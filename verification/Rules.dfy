/**
 The detection rules and their cooldown table. Times are clock ticks; each time a rule fires or is held back it reads
 the clock to check the cooldown and, if it fires, again to restart it. Those readings are inputs.
 */
module Rules {
  import opened Prelude

  const SECOND: int := 1_000_000
  const COOLDOWN: int := 60 * SECOND

  datatype Rule = Tampering | RestrictedZone | AfterHoursPerson | AfterHoursVehicle | DwellTime

  datatype Key = Key(rule: Rule, zone: Option<string>, track: Option<int>)

  /** `hours` is missing unless both ends of the working day are set; ends are times of day. */
  datatype Zone = Zone(name: string, restricted: bool, hours: Option<(int, int)>, dwellThreshold: int)

  datatype Detection = Detection(kind: string, zone: Zone, track: Option<int>)

  datatype Reading = Reading(check: int, stamp: int)

  datatype Alert = Alert(key: Key, at: int)

  const TAMPERING_KEY := Key(Tampering, None, None)

  /** `fired` is the history of alerts; the rules only read `cooldowns`. */
  datatype Engine = Engine(cooldowns: map<Key, int>, fired: seq<Alert>)

  predicate WithinWorkingHours(zone: Zone, timeOfDay: int)
  {
    match zone.hours
    case None => false
    case Some((start, end)) => InWindow(start, end, timeOfDay)
  }

  predicate IsVehicle(kind: string) { kind in {"car", "truck", "motorcycle", "bus", "bicycle"} }

  /** The rule whose condition a detection meets: a restricted zone takes precedence over working hours. */
  function Condition(d: Detection, timeOfDay: int): Option<Rule>
  {
    if d.zone.restricted then Some(RestrictedZone)
    else if WithinWorkingHours(d.zone, timeOfDay) then None
    else if d.kind == "person" then Some(AfterHoursPerson)
    else if IsVehicle(d.kind) then Some(AfterHoursVehicle)
    else None
  }

  function KeyOf(d: Detection, rule: Rule): Key { Key(rule, Some(d.zone.name), d.track) }

  predicate InCooldown(e: Engine, key: Key, check: int) { key in e.cooldowns && check - e.cooldowns[key] < COOLDOWN }

  function Fire(e: Engine, key: Key, r: Reading): Engine
  {
    if InCooldown(e, key, r.check) then e
    else Engine(e.cooldowns[key := r.stamp], e.fired + [Alert(key, r.stamp)])
  }

  /** A detection together with the clock readings of its turn. */
  datatype Turn = Turn(detection: Detection, reading: Reading)

  function TakeTurn(e: Engine, turn: Turn, timeOfDay: int): Engine
  {
    match Condition(turn.detection, timeOfDay)
    case None => e
    case Some(rule) => Fire(e, KeyOf(turn.detection, rule), turn.reading)
  }

  function TakeTurns(e: Engine, turns: seq<Turn>, timeOfDay: int): Engine
    decreases turns
  {
    if turns == [] then e else TakeTurns(TakeTurn(e, turns[0], timeOfDay), turns[1..], timeOfDay)
  }

  /** `tampered`: a baseline is set and the frame differs too much from it. A tampering alert ends the frame. */
  function Evaluate(e: Engine, tampered: bool, r: Reading, turns: seq<Turn>, timeOfDay: int): Engine
  {
    if tampered && !InCooldown(e, TAMPERING_KEY, r.check) then Fire(e, TAMPERING_KEY, r)
    else TakeTurns(e, turns, timeOfDay)
  }

  predicate DwellsTooLong(d: Detection, dwell: int)
  {
    d.track.Some? && d.zone.dwellThreshold > 0 && dwell >= d.zone.dwellThreshold * SECOND
  }

  function EvaluateDwell(e: Engine, turn: Turn, dwell: int): Engine
  {
    if DwellsTooLong(turn.detection, dwell) then Fire(e, KeyOf(turn.detection, DwellTime), turn.reading) else e
  }

  class RulesEngine {
    var cooldowns: map<Key, int>
    ghost var fired: seq<Alert>

    ghost function View(): Engine reads this { Engine(cooldowns, fired) }

    constructor ()
      ensures View() == Engine(map[], [])
    {
      cooldowns, fired := map[], [];
    }

    method Try(key: Key, r: Reading) returns (alerts: seq<Alert>)
      modifies this
      ensures View() == Fire(old(View()), key, r) && fired == old(fired) + alerts
    {
      if key in cooldowns && r.check - cooldowns[key] < COOLDOWN {
        return [];
      }
      cooldowns := cooldowns[key := r.stamp];
      alerts := [Alert(key, r.stamp)];
      fired := fired + alerts;
    }

    method EvaluateFrame(tampered: bool, r: Reading, turns: seq<Turn>, timeOfDay: int) returns (alerts: seq<Alert>)
      modifies this
      ensures View() == Evaluate(old(View()), tampered, r, turns, timeOfDay) && fired == old(fired) + alerts
    {
      if tampered {
        var alert := Try(TAMPERING_KEY, r);
        if alert != [] {
          return alert;
        }
      }
      alerts := [];
      var i := 0;
      while i < |turns|
        invariant i <= |turns| && fired == old(fired) + alerts
        invariant TakeTurns(View(), turns[i..], timeOfDay) == TakeTurns(old(View()), turns, timeOfDay)
      {
        assert turns[i..][1..] == turns[i + 1..];
        var d := turns[i].detection;
        var found: seq<Alert> := [];
        if d.zone.restricted {
          found := Try(KeyOf(d, RestrictedZone), turns[i].reading);
        } else if d.kind == "person" {
          if !WithinWorkingHours(d.zone, timeOfDay) {
            found := Try(KeyOf(d, AfterHoursPerson), turns[i].reading);
          }
        } else if IsVehicle(d.kind) {
          if !WithinWorkingHours(d.zone, timeOfDay) {
            found := Try(KeyOf(d, AfterHoursVehicle), turns[i].reading);
          }
        }
        alerts := alerts + found;
        i := i + 1;
      }
    }

    method EvaluateDwellTime(turn: Turn, dwell: int) returns (alerts: seq<Alert>)
      modifies this
      ensures View() == EvaluateDwell(old(View()), turn, dwell) && fired == old(fired) + alerts
    {
      if turn.detection.track.None? || turn.detection.zone.dwellThreshold <= 0 {
        return [];
      }
      if dwell < turn.detection.zone.dwellThreshold * SECOND {
        return [];
      }
      alerts := Try(KeyOf(turn.detection, DwellTime), turn.reading);
    }
  }

  // ── Runs ───────────────────────────────────────────────────────────────────

  datatype Call =
    | Frame(tampered: bool, reading: Reading, turns: seq<Turn>, timeOfDay: int)
    | Dwell(turn: Turn, dwell: int)

  function Step(e: Engine, c: Call): Engine
  {
    match c
    case Frame(tampered, r, turns, timeOfDay) => Evaluate(e, tampered, r, turns, timeOfDay)
    case Dwell(turn, dwell) => EvaluateDwell(e, turn, dwell)
  }

  function Run(e: Engine, calls: seq<Call>): Engine
    decreases calls
  {
    if calls == [] then e else Run(Step(e, calls[0]), calls[1..])
  }

  /** Within one turn the second reading is no earlier than the first. */
  ghost predicate Forward(c: Call)
  {
    match c
    case Frame(_, r, turns, _) => r.check <= r.stamp && forall t | t in turns :: t.reading.check <= t.reading.stamp
    case Dwell(turn, _) => turn.reading.check <= turn.reading.stamp
  }

  ghost predicate Spaced(fired: seq<Alert>)
  {
    forall i, j | 0 <= i < j < |fired| && fired[i].key == fired[j].key :: fired[j].at - fired[i].at >= COOLDOWN
  }

  /** The table holds the time of the latest alert of every key that ever fired. */
  ghost predicate LatestKept(e: Engine)
  {
    && (forall key | key in e.cooldowns :: Alert(key, e.cooldowns[key]) in e.fired)
    && (forall i | 0 <= i < |e.fired| :: e.fired[i].key in e.cooldowns && e.fired[i].at <= e.cooldowns[e.fired[i].key])
  }

  ghost predicate Sound(e: Engine) { Spaced(e.fired) && LatestKept(e) }

  lemma FireSound(e: Engine, key: Key, r: Reading)
    requires Sound(e) && r.check <= r.stamp
    ensures Sound(Fire(e, key, r)) && e.fired <= Fire(e, key, r).fired
  {
    if !InCooldown(e, key, r.check) {
      var next := Fire(e, key, r);
      assert next.fired[|e.fired|] == Alert(key, r.stamp);
      forall k | k in next.cooldowns ensures Alert(k, next.cooldowns[k]) in next.fired {
        if k != key {
          assert Alert(k, e.cooldowns[k]) in e.fired;
        }
      }
    }
  }

  lemma {:induction false} TurnsSound(e: Engine, turns: seq<Turn>, timeOfDay: int)
    requires Sound(e) && forall t | t in turns :: t.reading.check <= t.reading.stamp
    ensures Sound(TakeTurns(e, turns, timeOfDay)) && e.fired <= TakeTurns(e, turns, timeOfDay).fired
    decreases turns
  {
    if turns != [] {
      var d := turns[0].detection;
      match Condition(d, timeOfDay) {
        case None =>
        case Some(rule) => FireSound(e, KeyOf(d, rule), turns[0].reading);
      }
      TurnsSound(TakeTurn(e, turns[0], timeOfDay), turns[1..], timeOfDay);
    }
  }

  lemma StepSound(e: Engine, c: Call)
    requires Sound(e) && Forward(c)
    ensures Sound(Step(e, c)) && e.fired <= Step(e, c).fired
  {
    match c {
      case Frame(_, r, turns, timeOfDay) =>
        FireSound(e, TAMPERING_KEY, r);
        TurnsSound(e, turns, timeOfDay);
      case Dwell(turn, _) => FireSound(e, KeyOf(turn.detection, DwellTime), turn.reading);
    }
  }

  lemma {:induction false} RunSound(e: Engine, calls: seq<Call>)
    requires Sound(e) && forall c | c in calls :: Forward(c)
    ensures Sound(Run(e, calls))
    decreases calls
  {
    if calls != [] {
      StepSound(e, calls[0]);
      RunSound(Step(e, calls[0]), calls[1..]);
    }
  }

  function CountIn(fired: seq<Alert>, key: Key, lo: int, hi: int): nat
  {
    if fired == [] then 0
    else
      var last := fired[|fired| - 1];
      CountIn(fired[..|fired| - 1], key, lo, hi) + if last.key == key && lo <= last.at <= hi then 1 else 0
  }

  lemma {:induction false} EarlierOnly(fired: seq<Alert>, key: Key, lo: int, mid: int, hi: int)
    requires mid <= hi && forall a | a in fired && a.key == key :: a.at <= mid
    ensures CountIn(fired, key, lo, hi) == CountIn(fired, key, lo, mid)
  {
    if fired != [] {
      var last := fired[|fired| - 1];
      assert last in fired;
      EarlierOnly(fired[..|fired| - 1], key, lo, mid, hi);
    }
  }

  lemma {:induction false} EmptyWindow(fired: seq<Alert>, key: Key, lo: int, hi: int)
    requires hi < lo
    ensures CountIn(fired, key, lo, hi) == 0
  {
    if fired != [] {
      EmptyWindow(fired[..|fired| - 1], key, lo, hi);
    }
  }

  lemma {:induction false} SpacedRate(fired: seq<Alert>, key: Key, lo: int, hi: int)
    requires Spaced(fired) && lo <= hi
    ensures CountIn(fired, key, lo, hi) <= (hi - lo) / COOLDOWN + 1
    decreases |fired|
  {
    if fired != [] {
      var before, last := fired[..|fired| - 1], fired[|fired| - 1];
      if last.key != key || !(lo <= last.at <= hi) {
        SpacedRate(before, key, lo, hi);
      } else {
        var mid := last.at - COOLDOWN;
        forall a | a in before && a.key == key ensures a.at <= mid {
          var i :| 0 <= i < |before| && before[i] == a;
          assert fired[i] == a && fired[|fired| - 1] == last;
        }
        EarlierOnly(before, key, lo, mid, hi);
        if mid < lo {
          EmptyWindow(before, key, lo, mid);
        } else {
          SpacedRate(before, key, lo, mid);
          assert (mid - lo) / COOLDOWN + 1 == (last.at - lo) / COOLDOWN;
        }
      }
    }
  }

  /** In every run alerts of one key are a cooldown apart, so a window holds at most one per started cooldown. */
  lemma CooldownHolds(calls: seq<Call>, key: Key, lo: int, hi: int)
    requires lo <= hi && forall c | c in calls :: Forward(c)
    ensures var e := Run(Engine(map[], []), calls); Spaced(e.fired) && CountIn(e.fired, key, lo, hi) <= (hi - lo) / COOLDOWN + 1
  {
    RunSound(Engine(map[], []), calls);
    SpacedRate(Run(Engine(map[], []), calls).fired, key, lo, hi);
  }

  // ── Nothing is held back without reason ────────────────────────────────────

  /** An alert of this key has fired and was, at the reading, less than a cooldown old. */
  ghost predicate Answered(fired: seq<Alert>, key: Key, check: int)
  {
    exists a :: a in fired && a.key == key && check - a.at < COOLDOWN
  }

  lemma FireAnswers(e: Engine, key: Key, r: Reading)
    requires LatestKept(e) && r.check <= r.stamp
    ensures Answered(Fire(e, key, r).fired, key, r.check)
    ensures Fire(e, key, r) == e ==> Answered(e.fired, key, r.check)
  {
    var next := Fire(e, key, r);
    if InCooldown(e, key, r.check) {
      assert Alert(key, e.cooldowns[key]) in e.fired;
    } else {
      assert next.fired[|e.fired|] == Alert(key, r.stamp);
    }
  }

  lemma {:induction false} TurnsAnswer(e: Engine, turns: seq<Turn>, timeOfDay: int, i: nat)
    requires Sound(e) && i < |turns| && forall t | t in turns :: t.reading.check <= t.reading.stamp
    requires Condition(turns[i].detection, timeOfDay).Some?
    ensures Answered(TakeTurns(e, turns, timeOfDay).fired, KeyOf(turns[i].detection, Condition(turns[i].detection, timeOfDay).value), turns[i].reading.check)
    decreases turns
  {
    var next := TakeTurn(e, turns[0], timeOfDay);
    TurnsSound(e, [turns[0]], timeOfDay);
    assert TakeTurns(e, [turns[0]], timeOfDay) == next by { assert [turns[0]][1..] == []; }
    if i > 0 {
      assert turns[i] == turns[1..][i - 1];
      TurnsAnswer(next, turns[1..], timeOfDay, i - 1);
    } else {
      var key := KeyOf(turns[0].detection, Condition(turns[0].detection, timeOfDay).value);
      FireAnswers(e, key, turns[0].reading);
      TurnsSound(next, turns[1..], timeOfDay);
      var a :| a in next.fired && a.key == key && turns[0].reading.check - a.at < COOLDOWN;
      assert a in TakeTurns(next, turns[1..], timeOfDay).fired;
    }
  }

  lemma FrameIsAnswered(e: Engine, c: Call, i: nat)
    requires Sound(e) && Forward(c) && c.Frame?
    ensures var next := Step(e, c);
      && (c.tampered ==> Answered(next.fired, TAMPERING_KEY, c.reading.check))
      && (c.tampered && !Answered(e.fired, TAMPERING_KEY, c.reading.check) ==> next.fired == e.fired + [Alert(TAMPERING_KEY, c.reading.stamp)])
      && ((!c.tampered || Answered(e.fired, TAMPERING_KEY, c.reading.check)) && i < |c.turns| && Condition(c.turns[i].detection, c.timeOfDay).Some? ==>
            Answered(next.fired, KeyOf(c.turns[i].detection, Condition(c.turns[i].detection, c.timeOfDay).value), c.turns[i].reading.check))
  {
    CooldownIsAnswered(e, TAMPERING_KEY, c.reading.check);
    FireAnswers(e, TAMPERING_KEY, c.reading);
    TurnsSound(e, c.turns, c.timeOfDay);
    if i < |c.turns| && Condition(c.turns[i].detection, c.timeOfDay).Some? {
      TurnsAnswer(e, c.turns, c.timeOfDay, i);
    }
    if InCooldown(e, TAMPERING_KEY, c.reading.check) {
      var a := Alert(TAMPERING_KEY, e.cooldowns[TAMPERING_KEY]);
      assert a in e.fired && a in TakeTurns(e, c.turns, c.timeOfDay).fired;
    }
  }

  /**
   Every condition met is answered. A tampered frame: by a tampering alert in force. A detection that meets a rule, in a
   frame no new tampering alert ends: by an alert of that rule, zone and track. A stay beyond its zone's threshold: by a
   dwell alert of that zone and track.
   */
  lemma ConditionsAreAnswered(calls: seq<Call>, c: Call, i: nat)
    requires Forward(c) && forall d | d in calls :: Forward(d)
    ensures var e := Run(Engine(map[], []), calls);
      var next := Step(e, c);
      match c
      case Frame(tampered, r, turns, timeOfDay) =>
        && (tampered ==> Answered(next.fired, TAMPERING_KEY, r.check))
        && (tampered && !Answered(e.fired, TAMPERING_KEY, r.check) ==> next.fired == e.fired + [Alert(TAMPERING_KEY, r.stamp)])
        && ((!tampered || Answered(e.fired, TAMPERING_KEY, r.check)) && i < |turns| && Condition(turns[i].detection, timeOfDay).Some? ==>
              Answered(next.fired, KeyOf(turns[i].detection, Condition(turns[i].detection, timeOfDay).value), turns[i].reading.check))
      case Dwell(turn, dwell) =>
        DwellsTooLong(turn.detection, dwell) ==> Answered(next.fired, KeyOf(turn.detection, DwellTime), turn.reading.check)
  {
    var e := Run(Engine(map[], []), calls);
    RunSound(Engine(map[], []), calls);
    match c {
      case Frame(_, _, _, _) => FrameIsAnswered(e, c, i);
      case Dwell(turn, _) => FireAnswers(e, KeyOf(turn.detection, DwellTime), turn.reading);
    }
  }

  /** The cooldown table tells exactly whether a key is answered. */
  lemma CooldownIsAnswered(e: Engine, key: Key, check: int)
    requires LatestKept(e)
    ensures InCooldown(e, key, check) <==> Answered(e.fired, key, check)
  {
    if InCooldown(e, key, check) {
      assert Alert(key, e.cooldowns[key]) in e.fired;
    }
    if Answered(e.fired, key, check) {
      var a :| a in e.fired && a.key == key && check - a.at < COOLDOWN;
      var i :| 0 <= i < |e.fired| && e.fired[i] == a;
    }
  }

  // ── The rules themselves ───────────────────────────────────────────────────

  /** Outside the zone's working day, on the circle of a day; a zone without hours is always outside. */
  predicate OffHours(zone: Zone, timeOfDay: int, day: int)
    requires day > 0
  {
    match zone.hours
    case None => true
    case Some((start, end)) => (timeOfDay - start) % day > (end - start) % day
  }

  /** What each rule of a frame is for. */
  predicate CallsFor(d: Detection, timeOfDay: int, day: int, rule: Rule)
    requires day > 0
  {
    match rule
    case RestrictedZone => d.zone.restricted
    case AfterHoursPerson => !d.zone.restricted && d.kind == "person" && OffHours(d.zone, timeOfDay, day)
    case AfterHoursVehicle =>
      && !d.zone.restricted && OffHours(d.zone, timeOfDay, day)
      && (d.kind == "car" || d.kind == "truck" || d.kind == "motorcycle" || d.kind == "bus" || d.kind == "bicycle")
    case Tampering => false
    case DwellTime => false
  }

  /** Times of day, and a zone's hours, lie within the day. */
  predicate OnTheClock(d: Detection, timeOfDay: int, day: int)
  {
    0 <= timeOfDay < day && (d.zone.hours.Some? ==> 0 <= d.zone.hours.value.0 < day && 0 <= d.zone.hours.value.1 < day)
  }

  lemma ConditionIff(d: Detection, timeOfDay: int, day: int, rule: Rule)
    requires OnTheClock(d, timeOfDay, day)
    ensures Condition(d, timeOfDay) == Some(rule) <==> CallsFor(d, timeOfDay, day, rule)
  {
    if d.zone.hours.Some? {
      WindowIsAnArc(d.zone.hours.value.0, d.zone.hours.value.1, timeOfDay, day);
    }
  }

  lemma CallIsAnswered(e: Engine, c: Call, i: nat, day: int, rule: Rule)
    requires Sound(e) && Forward(c) && c.Frame? && i < |c.turns|
    requires OnTheClock(c.turns[i].detection, c.timeOfDay, day) && CallsFor(c.turns[i].detection, c.timeOfDay, day, rule)
    requires !c.tampered || Answered(e.fired, TAMPERING_KEY, c.reading.check)
    ensures var d := c.turns[i].detection; Answered(Step(e, c).fired, Key(rule, Some(d.zone.name), d.track), c.turns[i].reading.check)
  {
    ConditionIff(c.turns[i].detection, c.timeOfDay, day, rule);
    FrameIsAnswered(e, c, i);
  }

  /**
   In every reachable state a frame that no new tampering alert ends leaves every detection that calls for a rule with an
   alert of that rule, its zone and its track in force.
   */
  lemma CallsAreAnswered(calls: seq<Call>, c: Call, i: nat, day: int, rule: Rule)
    requires Forward(c) && c.Frame? && i < |c.turns| && forall d | d in calls :: Forward(d)
    requires OnTheClock(c.turns[i].detection, c.timeOfDay, day) && CallsFor(c.turns[i].detection, c.timeOfDay, day, rule)
    requires !c.tampered || Answered(Run(Engine(map[], []), calls).fired, TAMPERING_KEY, c.reading.check)
    ensures var d := c.turns[i].detection;
      Answered(Step(Run(Engine(map[], []), calls), c).fired, Key(rule, Some(d.zone.name), d.track), c.turns[i].reading.check)
  {
    RunSound(Engine(map[], []), calls);
    CallIsAnswered(Run(Engine(map[], []), calls), c, i, day, rule);
  }

  /** The alert was raised in this turn, by the rule its detection calls for. */
  predicate RaisedBy(a: Alert, turn: Turn, timeOfDay: int, day: int)
    requires day > 0
  {
    && a == Alert(Key(a.key.rule, Some(turn.detection.zone.name), turn.detection.track), turn.reading.stamp)
    && CallsFor(turn.detection, timeOfDay, day, a.key.rule)
  }

  lemma {:induction false} TurnsRaiseOnly(e: Engine, turns: seq<Turn>, timeOfDay: int, day: int, a: Alert)
    requires forall t | t in turns :: OnTheClock(t.detection, timeOfDay, day)
    requires a in TakeTurns(e, turns, timeOfDay).fired && a !in e.fired && day > 0
    ensures exists t :: t in turns && RaisedBy(a, t, timeOfDay, day)
    decreases turns
  {
    if turns != [] {
      var next := TakeTurn(e, turns[0], timeOfDay);
      if a in next.fired {
        ConditionIff(turns[0].detection, timeOfDay, day, a.key.rule);
        assert turns[0] in turns && RaisedBy(a, turns[0], timeOfDay, day);
      } else {
        TurnsRaiseOnly(next, turns[1..], timeOfDay, day, a);
        var t :| t in turns[1..] && RaisedBy(a, t, timeOfDay, day);
        assert t in turns;
      }
    }
  }

  /** Every alert a call adds has its reason: tampering, a detection that calls for it, or a dwell time beyond the zone's threshold. */
  lemma AlertsHaveReasons(e: Engine, c: Call, day: int, a: Alert)
    requires day > 0 && a in Step(e, c).fired && a !in e.fired
    requires c.Frame? ==> forall t | t in c.turns :: OnTheClock(t.detection, c.timeOfDay, day)
    ensures match c
      case Frame(tampered, r, turns, timeOfDay) =>
        (tampered && a == Alert(Key(Tampering, None, None), r.stamp)) || exists t :: t in turns && RaisedBy(a, t, timeOfDay, day)
      case Dwell(turn, dwell) =>
        var d := turn.detection;
        && d.track.Some? && d.zone.dwellThreshold > 0 && dwell >= d.zone.dwellThreshold * SECOND
        && a == Alert(Key(DwellTime, Some(d.zone.name), d.track), turn.reading.stamp)
  {
    if c.Frame? && !(c.tampered && !InCooldown(e, TAMPERING_KEY, c.reading.check)) {
      TurnsRaiseOnly(e, c.turns, c.timeOfDay, day, a);
    }
  }
}
