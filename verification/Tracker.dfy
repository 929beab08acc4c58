/**
 Track bookkeeping: when each track was last seen, when it entered each zone, and the expiry of tracks not seen for
 five seconds. Times are clock ticks read in the order the code reads them; the tracking library's answer, which
 track ids a frame shows, is an input.
 */
module Tracker {
  import opened Prelude

  const SECOND: int := 1_000_000
  const EXPIRE: int := 5 * SECOND

  type TrackId = int

  datatype Entry =
    | Touched(ids: set<TrackId>, at: int)
    | Entered(id: TrackId, zone: string, at: int)
    | Checked(expired: set<TrackId>, at: int)

  /** `log` is history: touches, first entries, and expiry checks with the tracks they dropped. */
  datatype State = State(zoneEntry: map<TrackId, map<string, int>>, lastSeen: map<TrackId, int>, log: seq<Entry>)

  const EMPTY := State(map[], map[], [])

  function Stale(lastSeen: map<TrackId, int>, now: int): set<TrackId>
  {
    set id | id in lastSeen && now - lastSeen[id] > EXPIRE
  }

  function ExpireStale(s: State, now: int): State
  {
    var stale := Stale(s.lastSeen, now);
    State(s.zoneEntry - stale, s.lastSeen - stale, s.log + [Checked(stale, now)])
  }

  function SeenNow(lastSeen: map<TrackId, int>, ids: set<TrackId>, now: int): map<TrackId, int>
  {
    map id | id in lastSeen.Keys + ids :: if id in ids then now else lastSeen[id]
  }

  function IdsOf(ids: seq<TrackId>): set<TrackId> { set id | id in ids }

  lemma SeenOneMore(lastSeen: map<TrackId, int>, ids: seq<TrackId>, id: TrackId, now: int)
    ensures SeenNow(lastSeen, IdsOf(ids + [id]), now) == SeenNow(lastSeen, IdsOf(ids), now)[id := now]
  {
  }

  function Touch(s: State, ids: set<TrackId>, now: int): State
  {
    s.(lastSeen := SeenNow(s.lastSeen, ids, now), log := s.log + [Touched(ids, now)])
  }

  /** Expiry comes first; a frame without detections does nothing more. */
  function Update(s: State, checkAt: int, detected: bool, ids: set<TrackId>, now: int): State
  {
    if detected then Touch(ExpireStale(s, checkAt), ids, now) else ExpireStale(s, checkAt)
  }

  predicate HasEntry(s: State, id: TrackId, zone: string) { id in s.zoneEntry && zone in s.zoneEntry[id] }

  function Zones(s: State, id: TrackId): map<string, int> { if id in s.zoneEntry then s.zoneEntry[id] else map[] }

  function NoteEntry(s: State, id: TrackId, zone: string, now: int): State
  {
    if HasEntry(s, id, zone) then s
    else s.(zoneEntry := s.zoneEntry[id := Zones(s, id)[zone := now]], log := s.log + [Entered(id, zone, now)])
  }

  function RecordZoneEntry(s: State, id: TrackId, zone: string, entryAt: int, seenAt: int): State
  {
    Touch(NoteEntry(s, id, zone, entryAt), {id}, seenAt)
  }

  class ObjectTracker {
    var zoneEntry: map<TrackId, map<string, int>>
    var lastSeen: map<TrackId, int>
    ghost var log: seq<Entry>

    ghost function View(): State reads this { State(zoneEntry, lastSeen, log) }

    constructor ()
      ensures View() == EMPTY
    {
      zoneEntry, lastSeen, log := map[], map[], [];
    }

    method Expire(now: int)
      modifies this
      ensures View() == ExpireStale(old(View()), now)
    {
      var expired := set id | id in lastSeen && now - lastSeen[id] > EXPIRE;
      lastSeen := lastSeen - expired;
      zoneEntry := zoneEntry - expired;
      log := log + [Checked(expired, now)];
    }

    method UpdateTracks(checkAt: int, detected: bool, ids: seq<TrackId>, now: int)
      modifies this
      ensures View() == Update(old(View()), checkAt, detected, IdsOf(ids), now)
    {
      Expire(checkAt);
      if !detected {
        return;
      }
      ghost var before := View();
      for i := 0 to |ids|
        invariant View() == before.(lastSeen := SeenNow(before.lastSeen, IdsOf(ids[..i]), now))
      {
        SeenOneMore(before.lastSeen, ids[..i], ids[i], now);
        assert ids[..i + 1] == ids[..i] + [ids[i]];
        lastSeen := lastSeen[ids[i] := now];
      }
      assert ids[..|ids|] == ids;
      log := log + [Touched(IdsOf(ids), now)];
    }

    method RecordEntry(id: TrackId, zone: string, entryAt: int, seenAt: int)
      modifies this
      ensures View() == RecordZoneEntry(old(View()), id, zone, entryAt, seenAt)
    {
      var zones := if id in zoneEntry then zoneEntry[id] else map[];
      if zone !in zones {
        zoneEntry := zoneEntry[id := zones[zone := entryAt]];
        log := log + [Entered(id, zone, entryAt)];
      }
      lastSeen := lastSeen[id := seenAt];
      log := log + [Touched({id}, seenAt)];
      assert View() == RecordZoneEntry(old(View()), id, zone, entryAt, seenAt);
    }

    method GetDwellTime(id: TrackId, zone: string, now: int) returns (dwell: int)
      ensures dwell == if HasEntry(View(), id, zone) then now - zoneEntry[id][zone] else 0
    {
      if id in zoneEntry && zone in zoneEntry[id] {
        return now - zoneEntry[id][zone];
      }
      return 0;
    }
  }

  // ── Runs ───────────────────────────────────────────────────────────────────

  datatype Call =
    | Frame(checkAt: int, detected: bool, ids: set<TrackId>, now: int)
    | Record(id: TrackId, zone: string, entryAt: int, seenAt: int)

  function Step(s: State, c: Call): State
  {
    match c
    case Frame(checkAt, detected, ids, now) => Update(s, checkAt, detected, ids, now)
    case Record(id, zone, entryAt, seenAt) => RecordZoneEntry(s, id, zone, entryAt, seenAt)
  }

  function Run(s: State, calls: seq<Call>): State
    decreases calls
  {
    if calls == [] then s else Run(Step(s, calls[0]), calls[1..])
  }

  function First(c: Call): int { if c.Frame? then c.checkAt else c.entryAt }

  function Last(c: Call): int { if c.Frame? then c.now else c.seenAt }

  /** The clock never goes back. */
  ghost predicate Clocked(calls: seq<Call>, since: int)
    decreases calls
  {
    calls != [] ==> since <= First(calls[0]) <= Last(calls[0]) && Clocked(calls[1..], Last(calls[0]))
  }

  // ── What an entry time stands for ──────────────────────────────────────────

  ghost predicate SeenBetween(log: seq<Entry>, id: TrackId, from: nat, to: nat, lo: int, hi: int)
  {
    exists j :: from < j < to && j < |log| && log[j].Touched? && id in log[j].ids && lo <= log[j].at <= hi
  }

  /** Since log line k the track has been in view, wherever it was: at each check it had been seen within five seconds. */
  ghost predicate StaysInView(log: seq<Entry>, id: TrackId, k: nat)
  {
    forall m | k < m < |log| && log[m].Checked? ::
      id !in log[m].expired && SeenBetween(log, id, k, m, log[m].at - EXPIRE, log[m].at)
  }

  /** An earlier entry of the track into the zone is always followed by an expiry of the track before k. */
  ghost predicate FirstInView(log: seq<Entry>, id: TrackId, zone: string, k: nat)
  {
    forall m | 0 <= m < k && m < |log| && log[m].Entered? && log[m].id == id && log[m].zone == zone :: ExpiredBetween(log, id, m, k)
  }

  ghost predicate ExpiredBetween(log: seq<Entry>, id: TrackId, from: nat, to: nat)
  {
    exists n :: from < n < to && n < |log| && log[n].Checked? && id in log[n].expired
  }

  ghost predicate Explains(log: seq<Entry>, id: TrackId, zone: string, at: int, seen: int, k: nat)
  {
    && k < |log| && log[k] == Entered(id, zone, at)
    && FirstInView(log, id, zone, k)
    && StaysInView(log, id, k)
    && SeenBetween(log, id, k, |log|, seen, seen)
  }

  /** Every recorded entry has a last-seen time no earlier than it, and the track has been in view since, and has no earlier entry from that time. */
  ghost predicate EntriesExplained(s: State)
  {
    forall id, zone | HasEntry(s, id, zone) ::
      && id in s.lastSeen && s.zoneEntry[id][zone] <= s.lastSeen[id]
      && exists k :: Explains(s.log, id, zone, s.zoneEntry[id][zone], s.lastSeen[id], k)
  }

  /** A logged entry is still recorded, unless the track has expired since. */
  ghost predicate NothingForgotten(s: State)
  {
    forall m | 0 <= m < |s.log| && s.log[m].Entered? ::
      HasEntry(s, s.log[m].id, s.log[m].zone) || ExpiredBetween(s.log, s.log[m].id, m, |s.log|)
  }

  ghost predicate Sound(s: State, now: int)
  {
    EntriesExplained(s) && NothingForgotten(s) && forall id | id in s.lastSeen :: s.lastSeen[id] <= now
  }

  lemma SeenGrows(log: seq<Entry>, e: Entry, id: TrackId, from: nat, to: nat, to': nat, lo: int, hi: int)
    requires SeenBetween(log, id, from, to, lo, hi) && to <= to'
    ensures SeenBetween(log + [e], id, from, to', lo, hi)
  {
    var j :| from < j < to && j < |log| && log[j].Touched? && id in log[j].ids && lo <= log[j].at <= hi;
    assert (log + [e])[j] == log[j];
  }

  lemma ExpiredGrows(log: seq<Entry>, e: Entry, id: TrackId, from: nat, to: nat, to': nat)
    requires ExpiredBetween(log, id, from, to) && to <= to'
    ensures ExpiredBetween(log + [e], id, from, to')
  {
    var n :| from < n < to && n < |log| && log[n].Checked? && id in log[n].expired;
    assert (log + [e])[n] == log[n];
  }

  /** One more log entry keeps an explanation, as long as it is not an expiry check that finds the track stale. */
  lemma ExplanationGrows(log: seq<Entry>, e: Entry, id: TrackId, zone: string, at: int, seen: int, seen': int, k: nat)
    requires Explains(log, id, zone, at, seen, k)
    requires e.Checked? ==> id !in e.expired && e.at - EXPIRE <= seen <= e.at
    requires seen' == if e.Touched? && id in e.ids then e.at else seen
    ensures Explains(log + [e], id, zone, at, seen', k)
  {
    var log' := log + [e];
    forall m | 0 <= m < k && log'[m].Entered? && log'[m].id == id && log'[m].zone == zone ensures ExpiredBetween(log', id, m, k) {
      assert log[m] == log'[m];
      ExpiredGrows(log, e, id, m, k, k);
    }
    forall m | k < m < |log'| && log'[m].Checked?
      ensures id !in log'[m].expired && SeenBetween(log', id, k, m, log'[m].at - EXPIRE, log'[m].at)
    {
      if m < |log| {
        assert log[m] == log'[m];
        SeenGrows(log, e, id, k, m, m, log[m].at - EXPIRE, log[m].at);
      } else {
        var j :| k < j < |log| && log[j].Touched? && id in log[j].ids && seen <= log[j].at <= seen;
        assert log'[j] == log[j];
      }
    }
    if e.Touched? && id in e.ids {
      assert log'[|log|] == e;
    } else {
      SeenGrows(log, e, id, k, |log|, |log'|, seen, seen);
    }
  }

  lemma ExpireSound(s: State, since: int, now: int)
    requires Sound(s, since) && since <= now
    ensures Sound(ExpireStale(s, now), now)
  {
    var next, e := ExpireStale(s, now), Checked(Stale(s.lastSeen, now), now);
    forall id, zone | HasEntry(next, id, zone)
      ensures id in next.lastSeen && next.zoneEntry[id][zone] <= next.lastSeen[id]
        && exists k :: Explains(next.log, id, zone, next.zoneEntry[id][zone], next.lastSeen[id], k)
    {
      assert HasEntry(s, id, zone);
      var k :| Explains(s.log, id, zone, s.zoneEntry[id][zone], s.lastSeen[id], k);
      ExplanationGrows(s.log, e, id, zone, s.zoneEntry[id][zone], s.lastSeen[id], s.lastSeen[id], k);
    }
    forall m | 0 <= m < |next.log| && next.log[m].Entered?
      ensures HasEntry(next, next.log[m].id, next.log[m].zone) || ExpiredBetween(next.log, next.log[m].id, m, |next.log|)
    {
      assert next.log[m] == s.log[m];
      var id := s.log[m].id;
      if HasEntry(s, id, s.log[m].zone) {
        if id in e.expired {
          assert next.log[|s.log|] == e;
        }
      } else {
        ExpiredGrows(s.log, e, id, m, |s.log|, |next.log|);
      }
    }
  }

  lemma TouchSound(s: State, since: int, ids: set<TrackId>, now: int)
    requires Sound(s, since) && since <= now
    ensures Sound(Touch(s, ids, now), now)
  {
    var next, e := Touch(s, ids, now), Touched(ids, now);
    forall id, zone | HasEntry(next, id, zone)
      ensures id in next.lastSeen && next.zoneEntry[id][zone] <= next.lastSeen[id]
        && exists k :: Explains(next.log, id, zone, next.zoneEntry[id][zone], next.lastSeen[id], k)
    {
      assert HasEntry(s, id, zone);
      var k :| Explains(s.log, id, zone, s.zoneEntry[id][zone], s.lastSeen[id], k);
      ExplanationGrows(s.log, e, id, zone, s.zoneEntry[id][zone], s.lastSeen[id], next.lastSeen[id], k);
    }
    LogGrows(s, next, e);
  }

  lemma LogGrows(s: State, next: State, e: Entry)
    requires NothingForgotten(s) && next.log == s.log + [e] && !e.Entered?
    requires next.zoneEntry == s.zoneEntry
    ensures NothingForgotten(next)
  {
    forall m | 0 <= m < |next.log| && next.log[m].Entered?
      ensures HasEntry(next, next.log[m].id, next.log[m].zone) || ExpiredBetween(next.log, next.log[m].id, m, |next.log|)
    {
      assert next.log[m] == s.log[m];
      if !HasEntry(s, s.log[m].id, s.log[m].zone) {
        ExpiredGrows(s.log, e, s.log[m].id, m, |s.log|, |next.log|);
      }
    }
  }

  /** A first entry, once its touch is logged too, is explained by its own log line. */
  lemma NewEntryExplained(s: State, id: TrackId, zone: string, entryAt: int, seenAt: int)
    requires NothingForgotten(s) && !HasEntry(s, id, zone)
    ensures Explains(s.log + [Entered(id, zone, entryAt)] + [Touched({id}, seenAt)], id, zone, entryAt, seenAt, |s.log|)
  {
    var log := s.log + [Entered(id, zone, entryAt)] + [Touched({id}, seenAt)];
    forall m | 0 <= m < |s.log| && log[m].Entered? && log[m].id == id && log[m].zone == zone ensures ExpiredBetween(log, id, m, |s.log|) {
      assert log[m] == s.log[m];
      ExpiredGrows(s.log, Entered(id, zone, entryAt), id, m, |s.log|, |s.log|);
      ExpiredGrows(s.log + [Entered(id, zone, entryAt)], Touched({id}, seenAt), id, m, |s.log|, |s.log|);
    }
    assert log[|s.log| + 1] == Touched({id}, seenAt);
  }

  lemma RecordSound(s: State, since: int, id: TrackId, zone: string, entryAt: int, seenAt: int)
    requires Sound(s, since) && since <= entryAt <= seenAt
    ensures Sound(RecordZoneEntry(s, id, zone, entryAt, seenAt), seenAt)
  {
    if HasEntry(s, id, zone) {
      TouchSound(s, since, {id}, seenAt);
    } else {
      var middle := NoteEntry(s, id, zone, entryAt);
      var next := Touch(middle, {id}, seenAt);
      var e, t := Entered(id, zone, entryAt), Touched({id}, seenAt);
      NewEntryExplained(s, id, zone, entryAt, seenAt);
      forall i, z | HasEntry(next, i, z)
        ensures i in next.lastSeen && next.zoneEntry[i][z] <= next.lastSeen[i]
          && exists k :: Explains(next.log, i, z, next.zoneEntry[i][z], next.lastSeen[i], k)
      {
        if (i, z) != (id, zone) {
          assert HasEntry(s, i, z);
          var k :| Explains(s.log, i, z, s.zoneEntry[i][z], s.lastSeen[i], k);
          ExplanationGrows(s.log, e, i, z, s.zoneEntry[i][z], s.lastSeen[i], s.lastSeen[i], k);
          ExplanationGrows(s.log + [e], t, i, z, s.zoneEntry[i][z], s.lastSeen[i], next.lastSeen[i], k);
        }
      }
      assert NothingForgotten(middle) by {
        forall m | 0 <= m < |middle.log| && middle.log[m].Entered?
          ensures HasEntry(middle, middle.log[m].id, middle.log[m].zone) || ExpiredBetween(middle.log, middle.log[m].id, m, |middle.log|)
        {
          if m < |s.log| {
            assert middle.log[m] == s.log[m];
            if !HasEntry(s, s.log[m].id, s.log[m].zone) {
              ExpiredGrows(s.log, e, s.log[m].id, m, |s.log|, |middle.log|);
            }
          }
        }
      }
      LogGrows(middle, next, t);
    }
  }

  function EndOf(calls: seq<Call>, since: int): int
    decreases calls
  {
    if calls == [] then since else EndOf(calls[1..], Last(calls[0]))
  }

  lemma {:induction false} RunSound(s: State, calls: seq<Call>, since: int)
    requires Sound(s, since) && Clocked(calls, since)
    ensures Sound(Run(s, calls), EndOf(calls, since))
    decreases calls
  {
    if calls != [] {
      match calls[0] {
        case Frame(checkAt, detected, ids, now) =>
          ExpireSound(s, since, checkAt);
          if detected {
            TouchSound(ExpireStale(s, checkAt), checkAt, ids, now);
          }
        case Record(id, zone, entryAt, seenAt) => RecordSound(s, since, id, zone, entryAt, seenAt);
      }
      assert Sound(Step(s, calls[0]), Last(calls[0]));
      RunSound(Step(s, calls[0]), calls[1..], Last(calls[0]));
    }
  }

  /**
   In every run a recorded entry time is that of the track's first entry into the zone since it last expired: the track has
   been seen no earlier, has not expired since, and at every check since had been seen within the last five seconds. So a
   dwell time never spans an expiry. Whether the track has been in the zone all that time the tracker does not know.
   */
  lemma DwellNeverSpansExpiry(calls: seq<Call>, since: int, id: TrackId, zone: string)
    requires Clocked(calls, since) && HasEntry(Run(EMPTY, calls), id, zone)
    ensures var s := Run(EMPTY, calls);
      && id in s.lastSeen && s.zoneEntry[id][zone] <= s.lastSeen[id]
      && exists k :: Explains(s.log, id, zone, s.zoneEntry[id][zone], s.lastSeen[id], k)
  {
    assert Sound(EMPTY, since);
    RunSound(EMPTY, calls, since);
  }

  // ── What each call does, and nothing else ──────────────────────────────────

  /** After an update a track is known exactly if the frame shows it or it was seen no more than five seconds before. */
  lemma KnownIff(s: State, checkAt: int, detected: bool, ids: set<TrackId>, now: int, id: TrackId)
    ensures var next := Update(s, checkAt, detected, ids, now);
      var shown := detected && id in ids;
      var recent := id in s.lastSeen && checkAt - s.lastSeen[id] <= 5 * SECOND;
      && (id in next.lastSeen <==> shown || recent)
      && (shown ==> next.lastSeen[id] == now)
      && (!shown && recent ==> next.lastSeen[id] == s.lastSeen[id])
  {
  }

  /** An update forgets a zone entry exactly if its track was seen more than five seconds before, and changes none. */
  lemma EntryKeptIff(s: State, checkAt: int, detected: bool, ids: set<TrackId>, now: int, id: TrackId, zone: string)
    ensures var next := Update(s, checkAt, detected, ids, now);
      && (HasEntry(next, id, zone) <==> HasEntry(s, id, zone) && !(id in s.lastSeen && checkAt - s.lastSeen[id] > 5 * SECOND))
      && (HasEntry(next, id, zone) ==> next.zoneEntry[id][zone] == s.zoneEntry[id][zone])
  {
  }

  /** Recording an entry adds one for its track and zone if there is none, changes no other, and sees the track. */
  lemma RecordedIff(s: State, id: TrackId, zone: string, entryAt: int, seenAt: int, i: TrackId, z: string)
    ensures var next := RecordZoneEntry(s, id, zone, entryAt, seenAt);
      && (HasEntry(next, i, z) <==> HasEntry(s, i, z) || (i == id && z == zone))
      && (HasEntry(s, i, z) ==> next.zoneEntry[i][z] == s.zoneEntry[i][z])
      && (!HasEntry(s, id, zone) ==> next.zoneEntry[id][zone] == entryAt)
      && next.lastSeen == s.lastSeen[id := seenAt]
  {
  }
}
