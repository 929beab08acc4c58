/**
 The detection worker's work on one frame, in its order: the tracker is updated, the rules are evaluated, and then each
 detection with a track is entered into its zone, its dwell time read and the dwell rule evaluated. What the model, the
 zones and the clock answer is part of the frame.
 */
module Detector {
  import opened Prelude
  import Rules
  import Tracker

  datatype State = State(tracker: Tracker.State, rules: Rules.Engine)

  /** A detection in a zone with the clock readings it causes: for its rule, its entry, its dwell time and the dwell rule. */
  datatype Seen = Seen(detection: Rules.Detection, ruleReading: Rules.Reading, entryAt: int, seenAt: int, dwellAt: int, dwellReading: Rules.Reading)

  datatype Frame = Frame(checkAt: int, ids: seq<int>, now: int, tampered: bool, reading: Rules.Reading, timeOfDay: int, seen: seq<Seen>)

  function Turns(seen: seq<Seen>): (turns: seq<Rules.Turn>)
    ensures |turns| == |seen| && forall i | 0 <= i < |seen| :: turns[i] == Rules.Turn(seen[i].detection, seen[i].ruleReading)
  {
    seq(|seen|, i requires 0 <= i < |seen| => Rules.Turn(seen[i].detection, seen[i].ruleReading))
  }

  function DwellTime(s: Tracker.State, id: int, zone: string, now: int): int
  {
    if Tracker.HasEntry(s, id, zone) then now - s.zoneEntry[id][zone] else 0
  }

  /** The dwell rule for one detection of the frame. */
  function Visit(s: State, v: Seen): State
  {
    match v.detection.track
    case None => s
    case Some(id) =>
      var zone := v.detection.zone.name;
      var tracker := Tracker.RecordZoneEntry(s.tracker, id, zone, v.entryAt, v.seenAt);
      State(tracker, Rules.EvaluateDwell(s.rules, Rules.Turn(v.detection, v.dwellReading), DwellTime(tracker, id, zone, v.dwellAt)))
  }

  function VisitAll(s: State, seen: seq<Seen>): State
    decreases seen
  {
    if seen == [] then s else VisitAll(Visit(s, seen[0]), seen[1..])
  }

  /** The frame before the dwell rule. */
  function Look(s: State, f: Frame): State
  {
    State(Tracker.Update(s.tracker, f.checkAt, true, Tracker.IdsOf(f.ids), f.now),
      Rules.Evaluate(s.rules, f.tampered, f.reading, Turns(f.seen), f.timeOfDay))
  }

  function Process(s: State, f: Frame): State { VisitAll(Look(s, f), f.seen) }

  class Worker {
    const tracker: Tracker.ObjectTracker
    const rules: Rules.RulesEngine

    ghost function View(): State reads tracker, rules { State(tracker.View(), rules.View()) }

    constructor ()
      ensures View() == START && fresh(tracker) && fresh(rules)
    {
      tracker := new Tracker.ObjectTracker();
      rules := new Rules.RulesEngine();
    }

    method ProcessFrame(f: Frame) returns (alerts: seq<Rules.Alert>)
      modifies tracker, rules
      ensures View() == Process(old(View()), f)
      ensures rules.fired == old(rules.fired) + alerts
    {
      tracker.UpdateTracks(f.checkAt, true, f.ids, f.now);
      alerts := rules.EvaluateFrame(f.tampered, f.reading, Turns(f.seen), f.timeOfDay);
      var i := 0;
      while i < |f.seen|
        invariant i <= |f.seen| && rules.fired == old(rules.fired) + alerts
        invariant VisitAll(View(), f.seen[i..]) == Process(old(View()), f)
      {
        assert f.seen[i..][1..] == f.seen[i + 1..];
        var v := f.seen[i];
        ghost var before := View();
        if v.detection.track.Some? {
          var id, zone := v.detection.track.value, v.detection.zone.name;
          tracker.RecordEntry(id, zone, v.entryAt, v.seenAt);
          var dwell := tracker.GetDwellTime(id, zone, v.dwellAt);
          var alert := rules.EvaluateDwellTime(Rules.Turn(v.detection, v.dwellReading), dwell);
          alerts := alerts + alert;
        }
        assert View() == Visit(before, v);
        i := i + 1;
      }
    }
  }

  // ── Runs ───────────────────────────────────────────────────────────────────

  const START := State(Tracker.EMPTY, Rules.Engine(map[], []))

  function Run(s: State, frames: seq<Frame>): State
    decreases frames
  {
    if frames == [] then s else Run(Process(s, frames[0]), frames[1..])
  }

  /** The clock never goes back while the detections of a frame are visited. */
  predicate VisitsClocked(since: int, seen: seq<Seen>)
    decreases seen
  {
    seen != [] ==>
      && since <= seen[0].entryAt <= seen[0].seenAt <= seen[0].dwellAt
      && seen[0].dwellReading.check <= seen[0].dwellReading.stamp && seen[0].ruleReading.check <= seen[0].ruleReading.stamp
      && VisitsClocked(seen[0].dwellAt, seen[1..])
  }

  function VisitsEnd(since: int, seen: seq<Seen>): int
    decreases seen
  {
    if seen == [] then since else VisitsEnd(seen[0].dwellAt, seen[1..])
  }

  predicate FrameClocked(since: int, f: Frame)
  {
    since <= f.checkAt <= f.now && f.reading.check <= f.reading.stamp && VisitsClocked(f.now, f.seen)
  }

  /** Nor from one frame to the next. */
  predicate Clocked(since: int, frames: seq<Frame>)
    decreases frames
  {
    frames != [] ==> FrameClocked(since, frames[0]) && Clocked(VisitsEnd(frames[0].now, frames[0].seen), frames[1..])
  }

  function End(since: int, frames: seq<Frame>): int
    decreases frames
  {
    if frames == [] then since else End(VisitsEnd(frames[0].now, frames[0].seen), frames[1..])
  }

  ghost predicate Sound(s: State, now: int) { Tracker.Sound(s.tracker, now) && Rules.Sound(s.rules) }

  lemma VisitSound(s: State, since: int, v: Seen)
    requires Sound(s, since) && since <= v.entryAt <= v.seenAt <= v.dwellAt && v.dwellReading.check <= v.dwellReading.stamp
    ensures Sound(Visit(s, v), v.dwellAt)
  {
    if v.detection.track.Some? {
      Tracker.RecordSound(s.tracker, since, v.detection.track.value, v.detection.zone.name, v.entryAt, v.seenAt);
      Rules.FireSound(s.rules, Rules.KeyOf(v.detection, Rules.DwellTime), v.dwellReading);
    }
  }

  lemma {:induction false} VisitAllSound(s: State, since: int, seen: seq<Seen>)
    requires Sound(s, since) && VisitsClocked(since, seen)
    ensures Sound(VisitAll(s, seen), VisitsEnd(since, seen))
    decreases seen
  {
    if seen != [] {
      VisitSound(s, since, seen[0]);
      VisitAllSound(Visit(s, seen[0]), seen[0].dwellAt, seen[1..]);
    }
  }

  lemma {:induction false} RuleReadings(since: int, seen: seq<Seen>, i: nat)
    requires VisitsClocked(since, seen) && i < |seen|
    ensures seen[i].ruleReading.check <= seen[i].ruleReading.stamp
    decreases seen
  {
    if i > 0 {
      RuleReadings(seen[0].dwellAt, seen[1..], i - 1);
    }
  }

  lemma LookSound(s: State, since: int, f: Frame)
    requires Sound(s, since) && FrameClocked(since, f)
    ensures Sound(Look(s, f), f.now)
  {
    Tracker.ExpireSound(s.tracker, since, f.checkAt);
    Tracker.TouchSound(Tracker.ExpireStale(s.tracker, f.checkAt), f.checkAt, Tracker.IdsOf(f.ids), f.now);
    var turns := Turns(f.seen);
    forall t | t in turns ensures t.reading.check <= t.reading.stamp {
      var i :| 0 <= i < |turns| && turns[i] == t;
      RuleReadings(f.now, f.seen, i);
    }
    Rules.StepSound(s.rules, Rules.Frame(f.tampered, f.reading, turns, f.timeOfDay));
  }

  lemma {:induction false} RunSound(s: State, since: int, frames: seq<Frame>)
    requires Sound(s, since) && Clocked(since, frames)
    ensures Sound(Run(s, frames), End(since, frames))
    decreases frames
  {
    if frames != [] {
      LookSound(s, since, frames[0]);
      VisitAllSound(Look(s, frames[0]), frames[0].now, frames[0].seen);
      RunSound(Process(s, frames[0]), VisitsEnd(frames[0].now, frames[0].seen), frames[1..]);
    }
  }

  /** The visits of a frame up to the i-th are as well clocked as all of them. */
  lemma {:induction false} PrefixClocked(since: int, seen: seq<Seen>, i: nat)
    requires VisitsClocked(since, seen) && i < |seen|
    ensures VisitsClocked(since, seen[..i]) && VisitsEnd(since, seen[..i]) <= seen[i].entryAt <= seen[i].seenAt <= seen[i].dwellAt
    ensures seen[i].dwellReading.check <= seen[i].dwellReading.stamp
    decreases seen
  {
    if i > 0 {
      PrefixClocked(seen[0].dwellAt, seen[1..], i - 1);
      assert seen[..i][1..] == seen[1..][..i - 1];
    }
  }

  // ── How long a track has really been in a zone ─────────────────────────────

  datatype Pair = Pair(id: int, zone: string)

  /**
   History, kept beside the worker. `since`: when the present presence of a track in a zone began. `left`: pairs with a
   recorded entry that a frame has shown outside the zone since that entry. An expiry of the track clears both.
   */
  datatype Watch = Watch(since: map<Pair, int>, left: set<Pair>)

  predicate Visited(seen: seq<Seen>, p: Pair)
  {
    exists i :: 0 <= i < |seen| && seen[i].detection.track == Some(p.id) && seen[i].detection.zone.name == p.zone
  }

  /** The frame shows the track, and not in the zone. */
  predicate ShownOutside(f: Frame, p: Pair)
  {
    && (p.id in f.ids || exists i :: 0 <= i < |f.seen| && f.seen[i].detection.track == Some(p.id))
    && !Visited(f.seen, p)
  }

  function WatchLook(t: Tracker.State, w: Watch, f: Frame): Watch
  {
    var stale := Tracker.Stale(t.lastSeen, f.checkAt);
    Watch(
      map p | p in w.since && p.id !in stale && !ShownOutside(f, p) :: w.since[p],
      set p | p in w.left + w.since.Keys && p.id !in stale && (p in w.left || ShownOutside(f, p)))
  }

  function WatchVisit(w: Watch, v: Seen): Watch
  {
    match v.detection.track
    case None => w
    case Some(id) =>
      var p := Pair(id, v.detection.zone.name);
      if p in w.since then w else w.(since := w.since[p := v.entryAt])
  }

  function WatchVisits(w: Watch, seen: seq<Seen>): Watch
    decreases seen
  {
    if seen == [] then w else WatchVisits(WatchVisit(w, seen[0]), seen[1..])
  }

  function WatchRun(s: State, w: Watch, frames: seq<Frame>): Watch
    decreases frames
  {
    if frames == [] then w
    else WatchRun(Process(s, frames[0]), WatchVisits(WatchLook(s.tracker, w, frames[0]), frames[0].seen), frames[1..])
  }

  const UNWATCHED := Watch(map[], {})

  function EntryOf(t: Tracker.State, p: Pair): int
    requires Tracker.HasEntry(t, p.id, p.zone)
  {
    t.zoneEntry[p.id][p.zone]
  }

  /** A recorded entry is never later than the present presence, and is its beginning unless the track has left since. */
  ghost predicate Watched(t: Tracker.State, w: Watch)
  {
    && (forall p | p in w.since || p in w.left :: Tracker.HasEntry(t, p.id, p.zone))
    && (forall p: Pair | Tracker.HasEntry(t, p.id, p.zone) :: p in w.since || p in w.left)
    && (forall p | p in w.since :: EntryOf(t, p) <= w.since[p] && (p !in w.left ==> EntryOf(t, p) == w.since[p]))
  }

  /** If the track has left since, the recorded entry is too early. */
  ghost predicate Early(t: Tracker.State, w: Watch)
  {
    forall p | p in w.since && p in w.left && Tracker.HasEntry(t, p.id, p.zone) :: EntryOf(t, p) < w.since[p]
  }

  /** Entries of pairs that have left lie before `bound`. */
  ghost predicate LeftBefore(t: Tracker.State, w: Watch, bound: int)
  {
    forall p | p in w.left && Tracker.HasEntry(t, p.id, p.zone) :: EntryOf(t, p) < bound
  }

  lemma LookWatched(t: Tracker.State, w: Watch, f: Frame)
    requires Watched(t, w)
    ensures Watched(Tracker.Update(t, f.checkAt, true, Tracker.IdsOf(f.ids), f.now), WatchLook(t, w, f))
    ensures Early(t, w) ==> Early(Tracker.Update(t, f.checkAt, true, Tracker.IdsOf(f.ids), f.now), WatchLook(t, w, f))
  {
    var t' := Tracker.Update(t, f.checkAt, true, Tracker.IdsOf(f.ids), f.now);
    var stale := Tracker.Stale(t.lastSeen, f.checkAt);
    forall p: Pair
      ensures Tracker.HasEntry(t', p.id, p.zone) <==> Tracker.HasEntry(t, p.id, p.zone) && p.id !in stale
      ensures Tracker.HasEntry(t', p.id, p.zone) ==> EntryOf(t', p) == EntryOf(t, p)
    {
    }
  }

  lemma LookLeftBefore(t: Tracker.State, w: Watch, since: int, f: Frame)
    requires Tracker.Sound(t, since) && since < f.checkAt
    ensures LeftBefore(Tracker.Update(t, f.checkAt, true, Tracker.IdsOf(f.ids), f.now), WatchLook(t, w, f), f.checkAt)
  {
    var t' := Tracker.Update(t, f.checkAt, true, Tracker.IdsOf(f.ids), f.now);
    forall p: Pair | Tracker.HasEntry(t', p.id, p.zone) ensures EntryOf(t', p) < f.checkAt {
      assert Tracker.HasEntry(t, p.id, p.zone);
    }
  }

  /** From t to t' the pair q is entered at `at`, unless it was entered before; nothing else changes. */
  ghost predicate EntersOne(t: Tracker.State, t': Tracker.State, q: Pair, at: int)
  {
    && (forall p: Pair :: Tracker.HasEntry(t', p.id, p.zone) <==> Tracker.HasEntry(t, p.id, p.zone) || p == q)
    && (forall p: Pair | Tracker.HasEntry(t, p.id, p.zone) :: Tracker.HasEntry(t', p.id, p.zone) && EntryOf(t', p) == EntryOf(t, p))
    && (Tracker.HasEntry(t', q.id, q.zone) && !Tracker.HasEntry(t, q.id, q.zone) ==> EntryOf(t', q) == at)
  }

  lemma RecordingEntersOne(t: Tracker.State, id: int, zone: string, entryAt: int, seenAt: int)
    ensures EntersOne(t, Tracker.RecordZoneEntry(t, id, zone, entryAt, seenAt), Pair(id, zone), entryAt)
  {
  }

  lemma EnteringWatched(t: Tracker.State, t': Tracker.State, w: Watch, q: Pair, at: int, bound: int)
    requires Watched(t, w) && EntersOne(t, t', q, at) && bound <= at
    requires Tracker.HasEntry(t, q.id, q.zone) ==> EntryOf(t, q) <= at
    ensures var w' := if q in w.since then w else w.(since := w.since[q := at]);
      && Watched(t', w')
      && (LeftBefore(t, w, bound) ==> LeftBefore(t', w', bound))
      && (LeftBefore(t, w, bound) && Early(t, w) ==> Early(t', w'))
  {
  }

  lemma VisitWatched(s: State, w: Watch, since: int, v: Seen, bound: int)
    requires Watched(s.tracker, w) && Tracker.Sound(s.tracker, since) && since <= v.entryAt && bound <= v.entryAt
    ensures Watched(Visit(s, v).tracker, WatchVisit(w, v))
    ensures LeftBefore(s.tracker, w, bound) ==> LeftBefore(Visit(s, v).tracker, WatchVisit(w, v), bound)
    ensures LeftBefore(s.tracker, w, bound) && Early(s.tracker, w) ==> Early(Visit(s, v).tracker, WatchVisit(w, v))
  {
    if v.detection.track.Some? {
      var id, zone := v.detection.track.value, v.detection.zone.name;
      RecordingEntersOne(s.tracker, id, zone, v.entryAt, v.seenAt);
      EnteringWatched(s.tracker, Visit(s, v).tracker, w, Pair(id, zone), v.entryAt, bound);
    }
  }

  lemma {:induction false} VisitsWatched(s: State, w: Watch, since: int, seen: seq<Seen>, bound: int)
    requires Watched(s.tracker, w) && Sound(s, since) && VisitsClocked(since, seen) && bound <= since
    ensures Watched(VisitAll(s, seen).tracker, WatchVisits(w, seen))
    ensures LeftBefore(s.tracker, w, bound) && Early(s.tracker, w) ==> Early(VisitAll(s, seen).tracker, WatchVisits(w, seen))
    decreases seen
  {
    if seen != [] {
      VisitWatched(s, w, since, seen[0], bound);
      VisitSound(s, since, seen[0]);
      VisitsWatched(Visit(s, seen[0]), WatchVisit(w, seen[0]), seen[0].dwellAt, seen[1..], bound);
    }
  }

  /** The clock advances from one frame to the next. */
  predicate Advances(since: int, frames: seq<Frame>)
    decreases frames
  {
    frames != [] ==> since < frames[0].checkAt && Advances(VisitsEnd(frames[0].now, frames[0].seen), frames[1..])
  }

  lemma {:induction false} RunWatched(s: State, w: Watch, since: int, frames: seq<Frame>)
    requires Watched(s.tracker, w) && Sound(s, since) && Clocked(since, frames)
    ensures Watched(Run(s, frames).tracker, WatchRun(s, w, frames))
    ensures Advances(since, frames) && Early(s.tracker, w) ==> Early(Run(s, frames).tracker, WatchRun(s, w, frames))
    decreases frames
  {
    if frames != [] {
      var f := frames[0];
      var look := Look(s, f);
      LookWatched(s.tracker, w, f);
      LookSound(s, since, f);
      if since < f.checkAt {
        LookLeftBefore(s.tracker, w, since, f);
      }
      VisitsWatched(look, WatchLook(s.tracker, w, f), f.now, f.seen, f.checkAt);
      VisitAllSound(look, f.now, f.seen);
      RunWatched(Process(s, f), WatchVisits(WatchLook(s.tracker, w, f), f.seen), VisitsEnd(f.now, f.seen), frames[1..]);
    }
  }

  /**
   What a recorded entry says, after any frames: for a track now in a zone it is no later than the beginning of its
   presence there, and, on a clock that advances between frames, it is that beginning if and only if no frame has shown
   the track outside the zone since.
   */
  lemma EntryIsPresenceIff(frames: seq<Frame>, since: int, p: Pair)
    requires Clocked(since, frames) && p in WatchRun(START, UNWATCHED, frames).since
    ensures var t, w := Run(START, frames).tracker, WatchRun(START, UNWATCHED, frames);
      && Tracker.HasEntry(t, p.id, p.zone) && EntryOf(t, p) <= w.since[p]
      && (p !in w.left ==> EntryOf(t, p) == w.since[p])
      && (Advances(since, frames) ==> (EntryOf(t, p) == w.since[p] <==> p !in w.left))
  {
    assert Sound(START, since);
    RunWatched(START, UNWATCHED, since, frames);
  }

  // ── What a dwell alert means ───────────────────────────────────────────────

  /** The track entered the zone at `at`, was seen last at `seen` and has not expired in between, wherever it was. */
  ghost predicate InViewSince(s: Tracker.State, id: int, zone: string, at: int, seen: int)
  {
    exists k :: Tracker.Explains(s.log, id, zone, at, seen, k)
  }

  /** The worker, and the history beside it, before detection i of frame f is visited and when it has been. */
  function Before(frames: seq<Frame>, f: Frame, i: nat): State
    requires i <= |f.seen|
  {
    VisitAll(Look(Run(START, frames), f), f.seen[..i])
  }

  function WatchBefore(frames: seq<Frame>, f: Frame, i: nat): Watch
    requires i <= |f.seen|
  {
    WatchVisits(WatchLook(Run(START, frames).tracker, WatchRun(START, UNWATCHED, frames), f), f.seen[..i])
  }

  predicate StrictRun(since: int, frames: seq<Frame>, f: Frame) { Advances(since, frames) && End(since, frames) < f.checkAt }

  lemma {:induction false} VisitsOnward(since: int, seen: seq<Seen>)
    requires VisitsClocked(since, seen)
    ensures since <= VisitsEnd(since, seen)
    decreases seen
  {
    if seen != [] {
      VisitsOnward(seen[0].dwellAt, seen[1..]);
    }
  }

  lemma {:induction false} VisitsLeftBefore(s: State, w: Watch, since: int, seen: seq<Seen>, bound: int)
    requires Watched(s.tracker, w) && Sound(s, since) && VisitsClocked(since, seen) && bound <= since && LeftBefore(s.tracker, w, bound)
    ensures LeftBefore(VisitAll(s, seen).tracker, WatchVisits(w, seen), bound)
    decreases seen
  {
    if seen != [] {
      VisitWatched(s, w, since, seen[0], bound);
      VisitSound(s, since, seen[0]);
      VisitsLeftBefore(Visit(s, seen[0]), WatchVisit(w, seen[0]), seen[0].dwellAt, seen[1..], bound);
    }
  }

  lemma BeforeVisit(frames: seq<Frame>, since: int, f: Frame, i: nat)
    requires Clocked(since, frames) && FrameClocked(End(since, frames), f) && i < |f.seen|
    ensures var s, w, now := Before(frames, f, i), WatchBefore(frames, f, i), VisitsEnd(f.now, f.seen[..i]);
      && Sound(s, now) && f.checkAt <= now <= f.seen[i].entryAt
      && Watched(s.tracker, w)
      && (StrictRun(since, frames, f) ==> Early(s.tracker, w) && LeftBefore(s.tracker, w, f.checkAt))
  {
    assert Sound(START, since);
    RunSound(START, since, frames);
    RunWatched(START, UNWATCHED, since, frames);
    var s, w, last := Run(START, frames), WatchRun(START, UNWATCHED, frames), End(since, frames);
    LookSound(s, last, f);
    LookWatched(s.tracker, w, f);
    PrefixClocked(f.now, f.seen, i);
    VisitsOnward(f.now, f.seen[..i]);
    VisitAllSound(Look(s, f), f.now, f.seen[..i]);
    VisitsWatched(Look(s, f), WatchLook(s.tracker, w, f), f.now, f.seen[..i], f.checkAt);
    if StrictRun(since, frames, f) {
      LookLeftBefore(s.tracker, w, last, f);
      VisitsLeftBefore(Look(s, f), WatchLook(s.tracker, w, f), f.now, f.seen[..i], f.checkAt);
    }
  }

  lemma VisitFires(before: State, since: int, v: Seen)
    requires Sound(before, since) && since <= v.entryAt <= v.seenAt <= v.dwellAt && v.dwellReading.check <= v.dwellReading.stamp
    requires v.detection.track.Some?
    ensures var after, id, zone, key := Visit(before, v), v.detection.track.value, v.detection.zone, Rules.KeyOf(v.detection, Rules.DwellTime);
      && Tracker.HasEntry(after.tracker, id, zone.name)
      && var at := after.tracker.zoneEntry[id][zone.name];
      && InViewSince(after.tracker, id, zone.name, at, v.seenAt)
      && (after.rules.fired != before.rules.fired ==>
            after.rules.fired == before.rules.fired + [Rules.Alert(key, v.dwellReading.stamp)]
            && zone.dwellThreshold > 0 && v.dwellAt - at >= zone.dwellThreshold * Rules.SECOND)
      && (zone.dwellThreshold > 0 && v.dwellAt - at >= zone.dwellThreshold * Rules.SECOND ==>
            Rules.Answered(after.rules.fired, key, v.dwellReading.check))
  {
    var after, id, zone := Visit(before, v), v.detection.track.value, v.detection.zone.name;
    VisitSound(before, since, v);
    assert Tracker.HasEntry(after.tracker, id, zone);
    assert after.tracker.lastSeen[id] == v.seenAt;
    Rules.FireAnswers(before.rules, Rules.KeyOf(v.detection, Rules.DwellTime), v.dwellReading);
  }

  /** The time the dwell rule ought to go by: how long the track has been in the zone without being shown outside or expiring. */
  function Presence(w: Watch, p: Pair, now: int): int
    requires p in w.since
  {
    now - w.since[p]
  }

  /**
   After any frames, for any detection of the next. The dwell time counts from an entry since which the track has not
   expired, and is never less than its presence in the zone; so when the presence has lasted the zone's threshold, a dwell
   alert of the zone and track is in force. An alert is raised only for a dwell time that has lasted it. On a clock that
   advances between frames the dwell time is the presence if and only if no frame has shown the track outside the zone
   since its recorded entry, so an alert can be early only then.
   */
  lemma DwellAlertMeansStay(frames: seq<Frame>, since: int, f: Frame, i: nat)
    requires Clocked(since, frames) && FrameClocked(End(since, frames), f) && i < |f.seen| && f.seen[i].detection.track.Some?
    ensures var before, v, w := Before(frames, f, i), f.seen[i], WatchVisit(WatchBefore(frames, f, i), f.seen[i]);
      var after, zone, key := Visit(before, v), v.detection.zone, Rules.KeyOf(v.detection, Rules.DwellTime);
      var p := Pair(v.detection.track.value, zone.name);
      && Tracker.HasEntry(after.tracker, p.id, p.zone) && p in w.since
      && var dwell, long := v.dwellAt - EntryOf(after.tracker, p), zone.dwellThreshold * Rules.SECOND;
      && InViewSince(after.tracker, p.id, p.zone, EntryOf(after.tracker, p), v.seenAt)
      && dwell >= Presence(w, p, v.dwellAt)
      && (StrictRun(since, frames, f) ==> (dwell == Presence(w, p, v.dwellAt) <==> p !in w.left))
      && (after.rules.fired != before.rules.fired ==>
            after.rules.fired == before.rules.fired + [Rules.Alert(key, v.dwellReading.stamp)]
            && zone.dwellThreshold > 0 && dwell >= long && (Presence(w, p, v.dwellAt) >= long || p in w.left))
      && (zone.dwellThreshold > 0 && Presence(w, p, v.dwellAt) >= long ==> Rules.Answered(after.rules.fired, key, v.dwellReading.check))
  {
    BeforeVisit(frames, since, f, i);
    PrefixClocked(f.now, f.seen, i);
    var before, w, now, v := Before(frames, f, i), WatchBefore(frames, f, i), VisitsEnd(f.now, f.seen[..i]), f.seen[i];
    VisitFires(before, now, v);
    VisitWatched(before, w, now, v, f.checkAt);
    var p := Pair(v.detection.track.value, v.detection.zone.name);
    assert p in WatchVisit(w, v).since;
    assert Watched(Visit(before, v).tracker, WatchVisit(w, v));
  }

  // ── An early alert ─────────────────────────────────────────────────────────

  /** A frame at time t that shows one track, of no interest to the other rules, in one zone. */
  function Sight(id: int, zone: Rules.Zone, t: int): Frame
  {
    var r := Rules.Reading(t, t);
    Frame(t, [id], t, false, r, 0, [Seen(Rules.Detection("dog", zone, Some(id)), r, t, t, t, r)])
  }

  predicate Plain(zone: Rules.Zone) { !zone.restricted && zone.hours.None? }

  lemma SightLooks(s: State, id: int, zone: Rules.Zone, t: int)
    requires Plain(zone)
    ensures Look(s, Sight(id, zone, t)).rules == s.rules
    ensures Sight(id, zone, t).seen[1..] == [] && Sight(id, zone, t).seen[..0] == []
    ensures Process(s, Sight(id, zone, t)) == Visit(Look(s, Sight(id, zone, t)), Sight(id, zone, t).seen[0])
  {
    var f := Sight(id, zone, t);
    var turn := Rules.Turn(f.seen[0].detection, f.seen[0].ruleReading);
    assert Turns(f.seen) == [turn] && [turn][1..] == [];
    assert Rules.Condition(turn.detection, 0) == None;
    assert Rules.TakeTurns(s.rules, [turn], 0) == Rules.TakeTurns(Rules.TakeTurn(s.rules, turn, 0), [], 0) == s.rules;
    assert f.seen[1..] == [];
    assert VisitAll(Look(s, f), f.seen) == VisitAll(Visit(Look(s, f), f.seen[0]), []);
  }

  /** Only this track, seen last at t0, with these entries, and no alert so far. */
  ghost predicate Lone(s: State, id: int, seen: int, entries: map<string, int>)
  {
    s.tracker.zoneEntry == map[id := entries] && s.tracker.lastSeen == map[id := seen] && s.rules == Rules.Engine(map[], [])
  }

  lemma SightLone(s: State, id: int, zone: Rules.Zone, t0: int, t: int, entries: map<string, int>)
    requires Plain(zone) && Lone(s, id, t0, entries) && t0 <= t <= t0 + Tracker.EXPIRE && zone.name !in entries
    ensures Lone(Process(s, Sight(id, zone, t)), id, t, entries[zone.name := t])
  {
    SightLooks(s, id, zone, t);
    var look := Look(s, Sight(id, zone, t));
    assert Tracker.Stale(s.tracker.lastSeen, t) == {};
    assert look.tracker.zoneEntry == s.tracker.zoneEntry && look.tracker.lastSeen == map[id := t];
  }

  lemma FirstSight(id: int, zone: Rules.Zone, t: int)
    requires Plain(zone)
    ensures Lone(Process(START, Sight(id, zone, t)), id, t, map[zone.name := t])
  {
    SightLooks(START, id, zone, t);
    var look := Look(START, Sight(id, zone, t));
    assert Tracker.Stale(START.tracker.lastSeen, t) == {};
    assert look.tracker.zoneEntry == map[] && look.tracker.lastSeen == map[id := t];
  }

  lemma ReturningSight(s: State, id: int, zone: Rules.Zone, t0: int, t: int, entries: map<string, int>)
    requires Plain(zone) && Lone(s, id, t0, entries) && t0 <= t <= t0 + Tracker.EXPIRE && zone.name in entries
    requires zone.dwellThreshold > 0 && t - entries[zone.name] >= zone.dwellThreshold * Rules.SECOND
    ensures Visit(Look(s, Sight(id, zone, t)), Sight(id, zone, t).seen[0]).rules.fired
      == [Rules.Alert(Rules.Key(Rules.DwellTime, Some(zone.name), Some(id)), t)]
  {
    SightLooks(s, id, zone, t);
    var look := Look(s, Sight(id, zone, t));
    assert Tracker.Stale(s.tracker.lastSeen, t) == {};
    assert look.tracker.zoneEntry == s.tracker.zoneEntry;
  }

  /** A frame that shows a track in another zone ends its presence in the first. */
  lemma WatchSights(s: State, w: Watch, id: int, a: Rules.Zone, b: Rules.Zone, t: int)
    requires a.name != b.name && id !in Tracker.Stale(s.tracker.lastSeen, t)
    ensures var f := Sight(id, b, t);
      var next := WatchVisits(WatchLook(s.tracker, w, f), f.seen);
      && Pair(id, a.name) !in next.since
      && WatchVisits(WatchLook(s.tracker, w, f), f.seen) == WatchVisit(WatchLook(s.tracker, w, f), f.seen[0])
  {
    var f := Sight(id, b, t);
    assert f.seen[1..] == [];
    assert id in f.ids && !Visited(f.seen, Pair(id, a.name));
  }

  lemma SightClocked(since: int, id: int, zone: Rules.Zone, t: int)
    requires since <= t
    ensures FrameClocked(since, Sight(id, zone, t)) && VisitsEnd(t, Sight(id, zone, t).seen) == t
  {
    assert Sight(id, zone, t).seen[1..] == [];
  }

  lemma OneFrame(since: int, f: Frame)
    ensures End(since, [f]) == VisitsEnd(f.now, f.seen)
    ensures Clocked(since, [f]) <==> FrameClocked(since, f)
  {
    assert [f][1..] == [];
  }

  lemma TwoFrames(since: int, f: Frame, g: Frame)
    ensures End(since, [f, g]) == VisitsEnd(g.now, g.seen)
    ensures Clocked(since, [f, g]) <==> FrameClocked(since, f) && FrameClocked(VisitsEnd(f.now, f.seen), g)
  {
    assert [f, g][1..] == [g];
    OneFrame(VisitsEnd(f.now, f.seen), g);
  }

  lemma TwoSightsClocked(id: int, a: Rules.Zone, b: Rules.Zone, t0: int, t1: int)
    requires t0 <= t1
    ensures var frames := [Sight(id, a, t0), Sight(id, b, t1)]; Clocked(t0, frames) && End(t0, frames) == t1
  {
    SightClocked(t0, id, a, t0);
    SightClocked(t0, id, b, t1);
    TwoFrames(t0, Sight(id, a, t0), Sight(id, b, t1));
  }

  lemma TwoSights(id: int, a: Rules.Zone, b: Rules.Zone, t0: int, t1: int)
    requires Plain(a) && Plain(b) && a.name != b.name && t0 < t1 <= t0 + Tracker.EXPIRE
    ensures var frames := [Sight(id, a, t0), Sight(id, b, t1)];
      && Lone(Run(START, frames), id, t1, map[a.name := t0, b.name := t1])
      && Pair(id, a.name) !in WatchRun(START, UNWATCHED, frames).since
  {
    var f0, f1 := Sight(id, a, t0), Sight(id, b, t1);
    var frames := [f0, f1];
    assert frames[1..] == [f1] && [f1][1..] == [];
    var s1 := Process(START, f0);
    FirstSight(id, a, t0);
    SightLone(s1, id, b, t0, t1, map[a.name := t0]);
    assert Run(START, frames) == Run(s1, [f1]) == Process(s1, f1);
    var w1 := WatchVisits(WatchLook(START.tracker, UNWATCHED, f0), f0.seen);
    WatchSights(s1, w1, id, a, b, t1);
    assert WatchRun(START, UNWATCHED, frames) == WatchRun(s1, w1, [f1]) == WatchVisits(WatchLook(s1.tracker, w1, f1), f1.seen);
  }

  /**
   The dwell time runs on while a track is elsewhere: in a zone, seen in another, and back, a track raises a dwell alert at
   once if its first entry lies the threshold back, although its presence has only begun.
   */
  lemma TimeElsewhereCounts(id: int, a: Rules.Zone, b: Rules.Zone, t0: int, t1: int, t2: int)
    requires Plain(a) && Plain(b) && a.name != b.name && a.dwellThreshold > 0
    requires t0 < t1 < t2 && t1 - t0 <= Tracker.EXPIRE && t2 - t1 <= Tracker.EXPIRE && t2 - t0 >= a.dwellThreshold * Rules.SECOND
    ensures var frames, f := [Sight(id, a, t0), Sight(id, b, t1)], Sight(id, a, t2);
      var before, w := Before(frames, f, 0), WatchVisit(WatchBefore(frames, f, 0), f.seen[0]);
      && Clocked(t0, frames) && FrameClocked(End(t0, frames), f)
      && before.rules.fired == []
      && Visit(before, f.seen[0]).rules.fired == [Rules.Alert(Rules.Key(Rules.DwellTime, Some(a.name), Some(id)), t2)]
      && Pair(id, a.name) in w.since && Presence(w, Pair(id, a.name), t2) == 0
  {
    var frames, f := [Sight(id, a, t0), Sight(id, b, t1)], Sight(id, a, t2);
    TwoSightsClocked(id, a, b, t0, t1);
    SightClocked(t1, id, a, t2);
    TwoSights(id, a, b, t0, t1);
    var s := Run(START, frames);
    ReturningSight(s, id, a, t1, t2, map[a.name := t0, b.name := t1]);
    SightLooks(s, id, a, t2);
    assert Pair(id, a.name) !in WatchBefore(frames, f, 0).since;
  }

  // ── What a frame brings about ──────────────────────────────────────────────

  lemma {:induction false} VisitsOnlyAdd(s: State, seen: seq<Seen>)
    ensures s.rules.fired <= VisitAll(s, seen).rules.fired
    decreases seen
  {
    if seen != [] {
      VisitsOnlyAdd(Visit(s, seen[0]), seen[1..]);
    }
  }

  lemma AnsweredGrows(fired: seq<Rules.Alert>, more: seq<Rules.Alert>, key: Rules.Key, check: int)
    requires Rules.Answered(fired, key, check) && fired <= more
    ensures Rules.Answered(more, key, check)
  {
    var a :| a in fired && a.key == key && check - a.at < Rules.COOLDOWN;
    assert a in more;
  }

  /**
   After any frames, a frame answers what it shows: tampering by a tampering alert in force and, unless a new one of those
   ends it, each detection that calls for a rule by an alert of that rule, zone and track.
   */
  lemma FrameAnswers(frames: seq<Frame>, since: int, f: Frame, i: nat, day: int, rule: Rules.Rule)
    requires Clocked(since, frames) && FrameClocked(End(since, frames), f)
    ensures var before, after := Run(START, frames), Process(Run(START, frames), f);
      && (f.tampered ==> Rules.Answered(after.rules.fired, Rules.TAMPERING_KEY, f.reading.check))
      && (i < |f.seen| && Rules.OnTheClock(f.seen[i].detection, f.timeOfDay, day) && Rules.CallsFor(f.seen[i].detection, f.timeOfDay, day, rule)
          && (!f.tampered || Rules.Answered(before.rules.fired, Rules.TAMPERING_KEY, f.reading.check)) ==>
            Rules.Answered(after.rules.fired, Rules.Key(rule, Some(f.seen[i].detection.zone.name), f.seen[i].detection.track), f.seen[i].ruleReading.check))
  {
    assert Sound(START, since);
    RunSound(START, since, frames);
    var e := Run(START, frames).rules;
    var turns := Turns(f.seen);
    var c := Rules.Frame(f.tampered, f.reading, turns, f.timeOfDay);
    TurnsForward(f.now, f.seen);
    var look := Look(Run(START, frames), f);
    VisitsOnlyAdd(look, f.seen);
    if f.tampered {
      Rules.FrameIsAnswered(e, c, 0);
      AnsweredGrows(look.rules.fired, VisitAll(look, f.seen).rules.fired, Rules.TAMPERING_KEY, f.reading.check);
    }
    if i < |f.seen| && Rules.OnTheClock(f.seen[i].detection, f.timeOfDay, day) && Rules.CallsFor(f.seen[i].detection, f.timeOfDay, day, rule)
      && (!f.tampered || Rules.Answered(e.fired, Rules.TAMPERING_KEY, f.reading.check)) {
      Rules.CallIsAnswered(e, c, i, day, rule);
      AnsweredGrows(look.rules.fired, VisitAll(look, f.seen).rules.fired,
        Rules.Key(rule, Some(f.seen[i].detection.zone.name), f.seen[i].detection.track), f.seen[i].ruleReading.check);
    }
  }

  lemma TurnsForward(since: int, seen: seq<Seen>)
    requires VisitsClocked(since, seen)
    ensures forall t | t in Turns(seen) :: t.reading.check <= t.reading.stamp
  {
    forall t | t in Turns(seen) ensures t.reading.check <= t.reading.stamp {
      var i :| 0 <= i < |Turns(seen)| && Turns(seen)[i] == t;
      RuleReadings(since, seen, i);
    }
  }

  /** The alert was raised when this detection was visited. */
  predicate DwellAlertOf(a: Rules.Alert, v: Seen)
  {
    v.detection.track.Some? && v.detection.zone.dwellThreshold > 0
    && a == Rules.Alert(Rules.Key(Rules.DwellTime, Some(v.detection.zone.name), v.detection.track), v.dwellReading.stamp)
  }

  lemma {:induction false} VisitsRaiseOnly(s: State, seen: seq<Seen>, a: Rules.Alert)
    requires a in VisitAll(s, seen).rules.fired && a !in s.rules.fired
    ensures exists i :: 0 <= i < |seen| && DwellAlertOf(a, seen[i])
    decreases seen
  {
    if seen != [] {
      if a in Visit(s, seen[0]).rules.fired {
        assert DwellAlertOf(a, seen[0]);
      } else {
        VisitsRaiseOnly(Visit(s, seen[0]), seen[1..], a);
        var i :| 0 <= i < |seen[1..]| && DwellAlertOf(a, seen[1..][i]);
        assert seen[i + 1] == seen[1..][i];
      }
    }
  }

  /** Every alert a frame raises has its reason in it: tampering, a detection that calls for a rule, or a dwell time. */
  lemma FrameRaisesOnly(s: State, f: Frame, day: int, a: Rules.Alert)
    requires day > 0 && a in Process(s, f).rules.fired && a !in s.rules.fired
    requires forall v | v in f.seen :: Rules.OnTheClock(v.detection, f.timeOfDay, day)
    ensures (f.tampered && a == Rules.Alert(Rules.TAMPERING_KEY, f.reading.stamp))
      || (exists i :: 0 <= i < |f.seen| && DwellAlertOf(a, f.seen[i]))
      || (exists i :: 0 <= i < |f.seen| && Rules.RaisedBy(a, Turns(f.seen)[i], f.timeOfDay, day))
  {
    var look := Look(s, f);
    if a in look.rules.fired {
      var turns := Turns(f.seen);
      forall t | t in turns ensures Rules.OnTheClock(t.detection, f.timeOfDay, day) {
        var i :| 0 <= i < |turns| && turns[i] == t;
        assert f.seen[i] in f.seen;
      }
      Rules.AlertsHaveReasons(s.rules, Rules.Frame(f.tampered, f.reading, turns, f.timeOfDay), day, a);
      if t :| t in turns && Rules.RaisedBy(a, t, f.timeOfDay, day) {
        var i :| 0 <= i < |turns| && turns[i] == t;
      }
    } else {
      VisitsRaiseOnly(look, f.seen, a);
    }
  }

  lemma {:induction false} VisitsOnlySee(s: State, since: int, seen: seq<Seen>, id: int)
    requires VisitsClocked(since, seen) && id in s.tracker.lastSeen && s.tracker.lastSeen[id] <= since
    ensures var end := VisitAll(s, seen).tracker; id in end.lastSeen && s.tracker.lastSeen[id] <= end.lastSeen[id]
    decreases seen
  {
    if seen != [] {
      VisitsOnlySee(Visit(s, seen[0]), seen[0].dwellAt, seen[1..], id);
    }
  }

  /** A track the frame shows is known afterwards, and seen no earlier than then. */
  lemma ShownIsSeen(s: State, since: int, f: Frame, id: int)
    requires FrameClocked(since, f) && id in f.ids
    ensures var t := Process(s, f).tracker; id in t.lastSeen && t.lastSeen[id] >= f.now
  {
    Tracker.KnownIff(s.tracker, f.checkAt, true, Tracker.IdsOf(f.ids), f.now, id);
    VisitsOnlySee(Look(s, f), f.now, f.seen, id);
  }
}
