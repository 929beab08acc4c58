/**
 Login lockout: a counter per e-mail address and per IP address, kept in a store whose keys expire. Every failed
 attempt bumps both counters and restarts their 15 minutes; a success deletes them. Time is in seconds.
 */
module Lockout {
  import opened Prelude

  const MAX_ATTEMPTS := 5
  const DURATION: int := 15 * 60

  /** The store keys: they are written "ip:..." and "email:...", so they never coincide. */
  datatype Identifier = Ip(address: string) | Email(address: string)

  datatype Counter = Counter(count: nat, expiresAt: int)

  type Store = map<Identifier, Counter>

  /** What the credential checks of one attempt come to: no active user, bad password, code missing, code bad, or right. */
  datatype Credentials = NoUser | BadPassword | MissingCode | BadCode | Right

  datatype Attempt = Attempt(email: string, ip: string, credentials: Credentials, now: int)

  datatype Verdict = LockedOut | Rejected | CodeRequired | Welcome

  /** What a reader sees: an expired key is gone. */
  function Count(store: Store, id: Identifier, now: int): nat
  {
    if id in store && now < store[id].expiresAt then store[id].count else 0
  }

  predicate IsLocked(store: Store, id: Identifier, now: int) { Count(store, id, now) >= MAX_ATTEMPTS }

  function Bumped(store: Store, id: Identifier, now: int): Store
  {
    store[id := Counter(Count(store, id, now) + 1, now + DURATION)]
  }

  predicate Blocked(store: Store, a: Attempt)
  {
    IsLocked(store, Ip(a.ip), a.now) || IsLocked(store, Email(a.email), a.now)
  }

  predicate Fails(a: Attempt) { a.credentials.NoUser? || a.credentials.BadPassword? || a.credentials.BadCode? }

  function Authenticated(store: Store, a: Attempt): (Store, Verdict)
  {
    if Blocked(store, a) then (store, LockedOut)
    else if Fails(a) then (Bumped(Bumped(store, Ip(a.ip), a.now), Email(a.email), a.now), Rejected)
    else if a.credentials.MissingCode? then (store, CodeRequired)
    else (store - {Ip(a.ip), Email(a.email)}, Welcome)
  }

  class LockoutService {
    var store: Store

    constructor ()
      ensures store == map[]
    {
      store := map[];
    }

    method CheckLockout(id: Identifier, now: int) returns (locked: bool)
      ensures locked == IsLocked(store, id, now)
    {
      locked := id in store && now < store[id].expiresAt && store[id].count >= MAX_ATTEMPTS;
    }

    method RecordFailedAttempt(id: Identifier, now: int)
      modifies this
      ensures store == Bumped(old(store), id, now)
    {
      var attempts := if id in store && now < store[id].expiresAt then store[id].count else 0;
      store := store[id := Counter(attempts + 1, now + DURATION)];
    }

    method ClearLockout(id: Identifier)
      modifies this
      ensures store == old(store) - {id}
    {
      store := store - {id};
    }

    method Authenticate(a: Attempt) returns (verdict: Verdict)
      modifies this
      ensures (store, verdict) == Authenticated(old(store), a)
    {
      var ipLocked := CheckLockout(Ip(a.ip), a.now);
      var emailLocked := CheckLockout(Email(a.email), a.now);
      if ipLocked || emailLocked {
        return LockedOut;
      }
      if Fails(a) {
        RecordFailedAttempt(Ip(a.ip), a.now);
        RecordFailedAttempt(Email(a.email), a.now);
        return Rejected;
      }
      if a.credentials.MissingCode? {
        return CodeRequired;
      }
      ClearLockout(Ip(a.ip));
      ClearLockout(Email(a.email));
      assert store == old(store) - {Ip(a.ip), Email(a.email)};
      return Welcome;
    }
  }

  // ── Runs ───────────────────────────────────────────────────────────────────

  function Run(store: Store, attempts: seq<Attempt>): Store
    decreases attempts
  {
    if attempts == [] then store else Run(Authenticated(store, attempts[0]).0, attempts[1..])
  }

  predicate Concerns(a: Attempt, id: Identifier) { id == Ip(a.ip) || id == Email(a.email) }

  /** How many attempts of the run record a failure for `id` at a time in lo..hi. */
  function Failures(store: Store, attempts: seq<Attempt>, id: Identifier, lo: int, hi: int): nat
    decreases attempts
  {
    if attempts == [] then 0
    else
      var a := attempts[0];
      (if Authenticated(store, a).1 == Rejected && Concerns(a, id) && lo <= a.now <= hi then 1 else 0)
      + Failures(Authenticated(store, a).0, attempts[1..], id, lo, hi)
  }

  ghost predicate InOrder(attempts: seq<Attempt>, since: int)
  {
    forall i | 0 <= i < |attempts| :: since <= attempts[i].now && forall j | i <= j < |attempts| :: attempts[i].now <= attempts[j].now
  }

  /** No attempt that concerns `id` succeeds in lo..hi. Right credentials may be among them: a lock turns them away too. */
  predicate NoWelcome(store: Store, attempts: seq<Attempt>, id: Identifier, lo: int, hi: int)
    decreases attempts
  {
    attempts != [] ==>
      && !(Authenticated(store, attempts[0]).1 == Welcome && Concerns(attempts[0], id) && lo <= attempts[0].now <= hi)
      && NoWelcome(Authenticated(store, attempts[0]).0, attempts[1..], id, lo, hi)
  }

  ghost predicate Capped(store: Store) { forall id | id in store :: 1 <= store[id].count <= MAX_ATTEMPTS }

  /** Attempts taken one at a time never push a counter past five. */
  lemma {:induction false} CountersStayCapped(store: Store, attempts: seq<Attempt>)
    requires Capped(store)
    ensures Capped(Run(store, attempts))
    decreases attempts
  {
    if attempts != [] {
      CountersStayCapped(Authenticated(store, attempts[0]).0, attempts[1..]);
    }
  }

  /** The most failures that can be recorded from time `now` to `hi` by a counter that stands at zero. */
  function Quota(now: int, hi: int): nat { if now > hi then 0 else MAX_ATTEMPTS * ((hi - now) / DURATION + 1) }

  /** The same for the counter as it stands: fill it up and wait, or wait for it to expire. */
  function Room(store: Store, id: Identifier, now: int, hi: int): nat
  {
    var c := Count(store, id, now);
    if c == 0 then Quota(now, hi)
    else
      var wait := Quota(Max(now, store[id].expiresAt), hi);
      var fill := if c < MAX_ATTEMPTS && now <= hi then MAX_ATTEMPTS - c + Quota(now + DURATION, hi) else 0;
      Max(wait, fill)
  }

  lemma QuotaFalls(now: int, later: int, hi: int)
    requires now <= later
    ensures Quota(later, hi) <= Quota(now, hi)
  {
  }

  lemma QuotaSplits(now: int, hi: int)
    requires now <= hi
    ensures Quota(now, hi) == MAX_ATTEMPTS + Quota(now + DURATION, hi)
  {
    if now + DURATION <= hi {
      assert (hi - now) / DURATION == (hi - now - DURATION) / DURATION + 1;
    }
  }

  lemma RoomFalls(store: Store, id: Identifier, now: int, later: int, hi: int)
    requires Capped(store) && now <= later
    ensures Room(store, id, later, hi) <= Room(store, id, now, hi)
  {
    QuotaFalls(now, later, hi);
    QuotaFalls(now + DURATION, later + DURATION, hi);
    if Count(store, id, now) != 0 {
      QuotaFalls(Max(now, store[id].expiresAt), Max(later, store[id].expiresAt), hi);
    }
  }

  lemma RoomWithinQuota(store: Store, id: Identifier, now: int, hi: int)
    requires Capped(store)
    ensures Room(store, id, now, hi) <= Quota(now, hi)
  {
    if Count(store, id, now) != 0 {
      QuotaFalls(now, Max(now, store[id].expiresAt), hi);
    }
    if now <= hi {
      QuotaSplits(now, hi);
    }
  }

  /** One recorded failure uses up at least one unit of room. */
  lemma FailureUsesRoom(store: Store, id: Identifier, now: int, hi: int)
    requires Capped(store) && now <= hi && !IsLocked(store, id, now)
    ensures 1 + Room(Bumped(store, id, now), id, now, hi) <= Room(store, id, now, hi)
  {
    QuotaSplits(now, hi);
  }

  lemma RoomOfOneKey(store: Store, other: Store, id: Identifier, now: int, hi: int)
    requires (id in store) == (id in other) && (id in store ==> store[id] == other[id])
    ensures Room(store, id, now, hi) == Room(other, id, now, hi)
  {
  }

  lemma StepUsesRoom(store: Store, a: Attempt, id: Identifier, hi: int)
    requires Capped(store) && a.now <= hi
    requires !(Concerns(a, id) && Authenticated(store, a).1 == Welcome)
    ensures var (next, verdict) := Authenticated(store, a);
      (if verdict == Rejected && Concerns(a, id) then 1 else 0) + Room(next, id, a.now, hi) <= Room(store, id, a.now, hi)
  {
    var (next, verdict) := Authenticated(store, a);
    if verdict == Rejected && Concerns(a, id) {
      FailureUsesRoom(store, id, a.now, hi);
      RoomOfOneKey(next, Bumped(store, id, a.now), id, a.now, hi);
    } else {
      RoomOfOneKey(next, store, id, a.now, hi);
    }
  }

  lemma {:induction false} NoneAfter(store: Store, attempts: seq<Attempt>, id: Identifier, lo: int, hi: int)
    requires InOrder(attempts, hi + 1)
    ensures Failures(store, attempts, id, lo, hi) == 0
    decreases attempts
  {
    if attempts != [] {
      NoneAfter(Authenticated(store, attempts[0]).0, attempts[1..], id, lo, hi);
    }
  }

  lemma {:induction false} FailuresWithinRoom(store: Store, attempts: seq<Attempt>, id: Identifier, now: int, lo: int, hi: int)
    requires Capped(store) && lo <= now && InOrder(attempts, now) && NoWelcome(store, attempts, id, lo, hi)
    ensures Failures(store, attempts, id, lo, hi) <= Room(store, id, now, hi)
    decreases attempts
  {
    if attempts != [] {
      var a := attempts[0];
      if a.now > hi {
        NoneAfter(store, attempts, id, lo, hi);
      } else {
        var next := Authenticated(store, a).0;
        RoomFalls(store, id, now, a.now, hi);
        StepUsesRoom(store, a, id, hi);
        assert Capped(next) by { CountersStayCapped(store, [a]); assert Run(store, [a]) == next; }
        FailuresWithinRoom(next, attempts[1..], id, a.now, lo, hi);
      }
    }
  }

  /**
   The rate the lockout enforces, for an e-mail address or an IP address: in any window without a success, however
   the attempts before it went, at most five failures are recorded per started quarter of an hour.
   */
  lemma {:induction false} FailureRate(store: Store, attempts: seq<Attempt>, id: Identifier, since: int, lo: int, hi: int)
    requires Capped(store) && InOrder(attempts, since) && lo <= hi && NoWelcome(store, attempts, id, lo, hi)
    ensures Failures(store, attempts, id, lo, hi) <= MAX_ATTEMPTS * ((hi - lo) / DURATION + 1)
    decreases attempts
  {
    if attempts != [] {
      var a := attempts[0];
      if a.now >= lo {
        FailuresWithinRoom(store, attempts, id, lo, lo, hi);
        RoomWithinQuota(store, id, lo, hi);
      } else {
        var next := Authenticated(store, a).0;
        assert Capped(next) by { CountersStayCapped(store, [a]); assert Run(store, [a]) == next; }
        FailureRate(next, attempts[1..], id, since, lo, hi);
      }
    }
  }

  /** While an identifier is locked nothing about it is recorded, so the lock ends on time: no attempt can prolong it. */
  lemma {:induction false} LockIsNotProlonged(store: Store, attempts: seq<Attempt>, id: Identifier, since: int)
    requires IsLocked(store, id, since)
    requires InOrder(attempts, since) && forall a | a in attempts :: a.now < store[id].expiresAt
    ensures var later := Run(store, attempts); id in later && later[id] == store[id]
    decreases attempts
  {
    if attempts != [] {
      LockIsNotProlonged(Authenticated(store, attempts[0]).0, attempts[1..], id, since);
    }
  }

  // ── What a counter stands for ──────────────────────────────────────────────

  /**
   The failures that count against `id` at `now`, read off the history alone: the recorded ones since the last
   success, back to the first pause of a quarter of an hour.
   */
  function Streak(history: seq<Attempt>, id: Identifier, now: int): nat
    decreases |history|, 1
  {
    if history == [] then 0
    else
      var before, last := history[..|history| - 1], history[|history| - 1];
      if !Concerns(last, id) || !Heeded(before, last) then Streak(before, id, now)
      else if last.credentials.Right? then 0
      else if Fails(last) then (if now < last.now + DURATION then Streak(before, id, last.now) + 1 else 0)
      else Streak(before, id, now)
  }

  /** The attempt is not turned away: neither its address nor its e-mail has five failures against it. */
  predicate Heeded(history: seq<Attempt>, a: Attempt)
    decreases |history|, 2
  {
    Streak(history, Ip(a.ip), a.now) < MAX_ATTEMPTS && Streak(history, Email(a.email), a.now) < MAX_ATTEMPTS
  }

  lemma {:induction false} RunAppend(store: Store, attempts: seq<Attempt>, a: Attempt)
    ensures Run(store, attempts + [a]) == Authenticated(Run(store, attempts), a).0
    decreases attempts
  {
    if attempts == [] {
      assert [a][1..] == [] && attempts + [a] == [a];
    } else {
      assert (attempts + [a])[1..] == attempts[1..] + [a];
      RunAppend(Authenticated(store, attempts[0]).0, attempts[1..], a);
    }
  }

  lemma CountStep(store: Store, a: Attempt, id: Identifier, now: int)
    requires a.now <= now
    ensures Count(Authenticated(store, a).0, id, now) ==
      if !Concerns(a, id) || Blocked(store, a) || a.credentials.MissingCode? then Count(store, id, now)
      else if a.credentials.Right? then 0
      else if now < a.now + DURATION then Count(store, id, a.now) + 1
      else 0
  {
  }

  /** One more attempt moves the counter as it moves the reading of the history. */
  lemma StreakStep(store: Store, before: seq<Attempt>, last: Attempt, id: Identifier, now: int)
    requires last.now <= now && (Heeded(before, last) <==> !Blocked(store, last))
    requires Count(store, id, now) == Streak(before, id, now) && Count(store, id, last.now) == Streak(before, id, last.now)
    ensures Count(Authenticated(store, last).0, id, now) == Streak(before + [last], id, now)
  {
    CountStep(store, last, id, now);
    var history := before + [last];
    assert history[..|history| - 1] == before && history[|history| - 1] == last;
  }

  /** The expiring counters implement that reading of the history, at every moment after it. */
  lemma {:induction false} CounterIsStreak(history: seq<Attempt>, since: int, id: Identifier, now: int)
    requires InOrder(history, since) && forall a | a in history :: a.now <= now
    ensures Count(Run(map[], history), id, now) == Streak(history, id, now)
    decreases |history|
  {
    if history != [] {
      var before, last := history[..|history| - 1], history[|history| - 1];
      InOrderPrefix(history, since);
      CounterIsStreak(before, since, id, now);
      CounterIsStreak(before, since, id, last.now);
      CounterIsStreak(before, since, Ip(last.ip), last.now);
      CounterIsStreak(before, since, Email(last.email), last.now);
      StreakStep(Run(map[], before), before, last, id, now);
      RunAppend(map[], before, last);
      assert history == before + [last];
    }
  }

  lemma InOrderPrefix(history: seq<Attempt>, since: int)
    requires InOrder(history, since) && history != []
    ensures var before := history[..|history| - 1];
      && InOrder(before, since)
      && history[|history| - 1] in history
      && forall a | a in before :: a in history && a.now <= history[|history| - 1].now
  {
    var before := history[..|history| - 1];
    assert forall i | 0 <= i < |before| :: before[i] == history[i];
  }

  /** So an attempt is turned away exactly when five failures stand against its address or its e-mail. */
  lemma LockedExactlyAfterFive(history: seq<Attempt>, since: int, a: Attempt)
    requires InOrder(history + [a], since)
    ensures Authenticated(Run(map[], history), a).1 == LockedOut <==> !Heeded(history, a)
  {
    assert forall i | 0 <= i < |history| :: (history + [a])[i] == history[i];
    assert (history + [a])[|history|] == a;
    CounterIsStreak(history, since, Ip(a.ip), a.now);
    CounterIsStreak(history, since, Email(a.email), a.now);
  }

  /** What an attempt comes to, after any history: it is let in exactly when it is heeded and everything about it is right. */
  lemma VerdictIff(history: seq<Attempt>, since: int, a: Attempt)
    requires InOrder(history + [a], since)
    ensures var verdict := Authenticated(Run(map[], history), a).1;
      && (verdict == LockedOut <==> !Heeded(history, a))
      && (verdict == Welcome <==> Heeded(history, a) && a.credentials.Right?)
      && (verdict == CodeRequired <==> Heeded(history, a) && a.credentials.MissingCode?)
      && (verdict == Rejected <==> Heeded(history, a) && (a.credentials.NoUser? || a.credentials.BadPassword? || a.credentials.BadCode?))
  {
    LockedExactlyAfterFive(history, since, a);
  }
}
