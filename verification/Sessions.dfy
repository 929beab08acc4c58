/**
 The server side of refresh-token sessions: the session table, its rotation, reuse detection and
 revocation, and the handlers that drive them. Each handler is one transaction. The table is a map because the
 session id is the refresh token; users keep only what the handlers look at.
 */
module Sessions {
  import opened Prelude

  type Token = string
  type UserId = string

  const REFRESH_LIFETIME: int := 7 * 86400

  datatype Reason = Rotated | ReuseDetected | LoggedOut | LoggedOutEverywhere | RevokedByUser | RevokedByAdmin | AdminDeactivated | GdprErasure

  datatype Session = Session(
    user: UserId,
    revoked: bool,
    revokedAt: Option<int>,
    reason: Option<Reason>,
    lastUsedAt: Option<int>,
    expiresAt: int)

  /** `password`: what the stored hash was made from; none if it is not the hash of anything, so that nothing matches it. */
  datatype User = User(active: bool, password: Option<string>)

  /** One rotation: session `spent` was revoked and session `issued` created in the same transaction. */
  datatype Rotation = Rotation(spent: Token, issued: Token)

  /** `rotations` is the history of committed rotations; no handler reads it. */
  datatype Server = Server(sessions: map<Token, Session>, users: map<UserId, User>, rotations: seq<Rotation>)

  datatype Reply = Issued(token: Token) | Done | Unauthorized | NotFound | BadRequest | Failed

  /**
   `committed` on a refused refresh: whether its writes survive the exception the handler raises. `checksOk` on a
   login: neither the lockout nor a second factor stands in the way. `SetActive` is the user update, as far as it
   concerns sessions.
   */
  datatype Event =
    | Login(user: UserId, password: string, checksOk: bool, minted: Token, now: int)
    | Refresh(cookie: Option<Token>, minted: Token, now: int, committed: bool)
    | Logout(caller: UserId, cookie: Option<Token>, now: int)
    | LogoutAll(caller: UserId, now: int)
    | RevokeOne(caller: UserId, id: Token, now: int)
    | Deactivate(user: UserId, now: int)
    | Activate(user: UserId)
    | Anonymise(user: UserId, now: int)
    | SetActive(user: UserId, active: bool)
    | AdminRevoke(user: UserId, now: int)
    | ChangePassword(caller: UserId, current: string, replacement: string, strong: bool)

  // ── Table operations ───────────────────────────────────────────────────────

  function NewSession(user: UserId, now: int): Session
  {
    Session(user, false, None, None, None, now + REFRESH_LIFETIME)
  }

  function Revoked(session: Session, reason: Reason, now: int): Session
  {
    session.(revoked := true, revokedAt := Some(now), reason := Some(reason))
  }

  /** The bulk UPDATE: every unrevoked session of `user` is revoked, no other row changes. */
  function RevokeAllOf(table: map<Token, Session>, user: UserId, reason: Reason, now: int): map<Token, Session>
  {
    map t | t in table :: if table[t].user == user && !table[t].revoked then Revoked(table[t], reason, now) else table[t]
  }

  predicate ActiveUser(s: Server, user: UserId) { user in s.users && s.users[user].active }

  /** verify_password: a hash that was made from nothing matches nothing. */
  predicate PasswordMatches(s: Server, user: UserId, password: string)
  {
    user in s.users && s.users[user].password == Some(password)
  }

  predicate IsReuse(s: Server, cookie: Option<Token>)
  {
    cookie.Some? && cookie.value in s.sessions && s.sessions[cookie.value].revoked
  }

  predicate IsValid(s: Server, token: Token, now: int)
  {
    token in s.sessions && !s.sessions[token].revoked && s.sessions[token].expiresAt > now
  }

  // ── Handlers ───────────────────────────────────────────────────────────────

  /** A successful login adds a row. A clash on the primary key fails the commit, which undoes everything. */
  function LoginStep(s: Server, user: UserId, password: string, checksOk: bool, minted: Token, now: int): (Server, Reply)
  {
    if !ActiveUser(s, user) || !PasswordMatches(s, user, password) || !checksOk then (s, Unauthorized)
    else if minted in s.sessions then (s, Failed)
    else (s.(sessions := s.sessions[minted := NewSession(user, now)]), Issued(minted))
  }

  function RefreshStep(s: Server, cookie: Option<Token>, minted: Token, now: int, committed: bool): (Server, Reply)
  {
    if cookie.None? then (s, Unauthorized)
    else if IsReuse(s, cookie) then
      var owner := s.sessions[cookie.value].user;
      (if committed then s.(sessions := RevokeAllOf(s.sessions, owner, ReuseDetected, now)) else s, Unauthorized)
    else if !IsValid(s, cookie.value, now) then (s, Unauthorized)
    else
      var used := s.sessions[cookie.value].(lastUsedAt := Some(now));
      if !ActiveUser(s, used.user) then
        (if committed then s.(sessions := s.sessions[cookie.value := used]) else s, Unauthorized)
      else if minted in s.sessions then (s, Failed)
      else
        (s.(sessions := s.sessions[cookie.value := Revoked(used, Rotated, now)][minted := NewSession(used.user, now)],
            rotations := s.rotations + [Rotation(cookie.value, minted)]),
         Issued(minted))
  }

  function RevokeOwned(s: Server, caller: UserId, id: Token, reason: Reason, now: int): Server
  {
    if id in s.sessions && s.sessions[id].user == caller
    then s.(sessions := s.sessions[id := Revoked(s.sessions[id], reason, now)])
    else s
  }

  function LogoutStep(s: Server, caller: UserId, cookie: Option<Token>, now: int): (Server, Reply)
  {
    if !ActiveUser(s, caller) then (s, Unauthorized)
    else (if cookie.Some? then RevokeOwned(s, caller, cookie.value, LoggedOut, now) else s, Done)
  }

  function LogoutAllStep(s: Server, caller: UserId, now: int): (Server, Reply)
  {
    if !ActiveUser(s, caller) then (s, Unauthorized)
    else (s.(sessions := RevokeAllOf(s.sessions, caller, LoggedOutEverywhere, now)), Done)
  }

  function RevokeOneStep(s: Server, caller: UserId, id: Token, now: int): (Server, Reply)
  {
    if !ActiveUser(s, caller) then (s, Unauthorized)
    else if id !in s.sessions || s.sessions[id].user != caller then (s, NotFound)
    else (RevokeOwned(s, caller, id, RevokedByUser, now), Done)
  }

  function DeactivateStep(s: Server, user: UserId, now: int): (Server, Reply)
  {
    if user !in s.users then (s, NotFound)
    else
      (s.(users := s.users[user := s.users[user].(active := false)],
          sessions := RevokeAllOf(s.sessions, user, AdminDeactivated, now)), Done)
  }

  function ActivateStep(s: Server, user: UserId): (Server, Reply)
  {
    if user !in s.users then (s, NotFound)
    else (s.(users := s.users[user := s.users[user].(active := true)]), Done)
  }

  function AnonymiseStep(s: Server, user: UserId, now: int): (Server, Reply)
  {
    if user !in s.users then (s, NotFound)
    else
      (s.(users := s.users[user := User(false, None)],
          sessions := RevokeAllOf(s.sessions, user, GdprErasure, now)), Done)
  }

  /** The user update sets the flag and touches no session. */
  function SetActiveStep(s: Server, user: UserId, active: bool): (Server, Reply)
  {
    if user !in s.users then (s, NotFound)
    else (s.(users := s.users[user := s.users[user].(active := active)]), Done)
  }

  function AdminRevokeStep(s: Server, user: UserId, now: int): (Server, Reply)
  {
    (s.(sessions := RevokeAllOf(s.sessions, user, RevokedByAdmin, now)), Done)
  }

  function ChangePasswordStep(s: Server, caller: UserId, current: string, replacement: string, strong: bool): (Server, Reply)
  {
    if !ActiveUser(s, caller) then (s, Unauthorized)
    else if !PasswordMatches(s, caller, current) || !strong then (s, BadRequest)
    else (s.(users := s.users[caller := s.users[caller].(password := Some(replacement))]), Done)
  }

  function Handle(s: Server, e: Event): (Server, Reply)
  {
    match e
    case Login(user, password, ok, minted, now) => LoginStep(s, user, password, ok, minted, now)
    case Refresh(cookie, minted, now, committed) => RefreshStep(s, cookie, minted, now, committed)
    case Logout(caller, cookie, now) => LogoutStep(s, caller, cookie, now)
    case LogoutAll(caller, now) => LogoutAllStep(s, caller, now)
    case RevokeOne(caller, id, now) => RevokeOneStep(s, caller, id, now)
    case Deactivate(user, now) => DeactivateStep(s, user, now)
    case Activate(user) => ActivateStep(s, user)
    case Anonymise(user, now) => AnonymiseStep(s, user, now)
    case SetActive(user, active) => SetActiveStep(s, user, active)
    case AdminRevoke(user, now) => AdminRevokeStep(s, user, now)
    case ChangePassword(caller, current, replacement, strong) => ChangePasswordStep(s, caller, current, replacement, strong)
  }

  function Next(s: Server, e: Event): Server { Handle(s, e).0 }

  function Run(s: Server, events: seq<Event>): Server
    decreases events
  {
    if events == [] then s else Run(Next(s, events[0]), events[1..])
  }

  function Boot(users: map<UserId, User>): Server { Server(map[], users, []) }

  // ── The handlers as code ───────────────────────────────────────────────────

  class AuthService {
    var sessions: map<Token, Session>
    var users: map<UserId, User>
    ghost var rotations: seq<Rotation>

    ghost function State(): Server reads this { Server(sessions, users, rotations) }

    constructor (users: map<UserId, User>)
      ensures State() == Boot(users)
    {
      this.sessions, this.users, this.rotations := map[], users, [];
    }

    method CreateSession(user: UserId, token: Token, now: int)
      modifies this`sessions
      ensures sessions == old(sessions)[token := NewSession(user, now)]
    {
      sessions := sessions[token := NewSession(user, now)];
    }

    method DetectRefreshTokenReuse(token: Token, now: int) returns (reused: bool)
      modifies this`sessions
      ensures reused == old(IsReuse(State(), Some(token)))
      ensures sessions == if reused then RevokeAllOf(old(sessions), old(sessions)[token].user, ReuseDetected, now) else old(sessions)
    {
      reused := token in sessions && sessions[token].revoked;
      if reused {
        sessions := RevokeAllOf(sessions, sessions[token].user, ReuseDetected, now);
      }
    }

    method ValidateRefreshToken(token: Token, now: int) returns (valid: bool)
      modifies this`sessions
      ensures valid == old(IsValid(State(), token, now))
      ensures sessions == if valid then old(sessions)[token := old(sessions)[token].(lastUsedAt := Some(now))] else old(sessions)
    {
      valid := token in sessions && !sessions[token].revoked && sessions[token].expiresAt > now;
      if valid {
        sessions := sessions[token := sessions[token].(lastUsedAt := Some(now))];
      }
    }

    method RotateRefreshToken(token: Token, minted: Token, now: int)
      requires token in sessions && minted !in sessions
      modifies this`sessions, this`rotations
      ensures sessions == old(sessions)[token := Revoked(old(sessions)[token], Rotated, now)][minted := NewSession(old(sessions)[token].user, now)]
      ensures rotations == old(rotations) + [Rotation(token, minted)]
    {
      var owner := sessions[token].user;
      sessions := sessions[token := Revoked(sessions[token], Rotated, now)];
      CreateSession(owner, minted, now);
      rotations := rotations + [Rotation(token, minted)];
    }

    method HandleLogin(user: UserId, password: string, checksOk: bool, minted: Token, now: int) returns (reply: Reply)
      modifies this
      ensures (State(), reply) == LoginStep(old(State()), user, password, checksOk, minted, now)
    {
      if !checksOk || user !in users || !users[user].active {
        return Unauthorized;
      }
      if users[user].password != Some(password) {
        return Unauthorized;
      }
      if minted in sessions {
        return Failed;
      }
      CreateSession(user, minted, now);
      return Issued(minted);
    }

    method HandleRefresh(cookie: Option<Token>, minted: Token, now: int, committed: bool) returns (reply: Reply)
      modifies this
      ensures (State(), reply) == RefreshStep(old(State()), cookie, minted, now, committed)
    {
      if cookie.None? {
        return Unauthorized;
      }
      var token, before := cookie.value, sessions;
      var reused := DetectRefreshTokenReuse(token, now);
      if reused {
        if !committed { sessions := before; }
        return Unauthorized;
      }
      var valid := ValidateRefreshToken(token, now);
      if !valid {
        return Unauthorized;
      }
      var owner := sessions[token].user;
      if owner !in users || !users[owner].active {
        if !committed { sessions := before; }
        return Unauthorized;
      }
      if minted in sessions {
        sessions := before;
        return Failed;
      }
      RotateRefreshToken(token, minted, now);
      assert sessions == before[token := Revoked(before[token].(lastUsedAt := Some(now)), Rotated, now)][minted := NewSession(owner, now)];
      return Issued(minted);
    }

    method HandleLogout(caller: UserId, cookie: Option<Token>, now: int) returns (reply: Reply)
      modifies this
      ensures (State(), reply) == LogoutStep(old(State()), caller, cookie, now)
    {
      if caller !in users || !users[caller].active {
        return Unauthorized;
      }
      if cookie.Some? && cookie.value in sessions && sessions[cookie.value].user == caller {
        sessions := sessions[cookie.value := Revoked(sessions[cookie.value], LoggedOut, now)];
      }
      return Done;
    }

    method HandleLogoutAll(caller: UserId, now: int) returns (reply: Reply)
      modifies this
      ensures (State(), reply) == LogoutAllStep(old(State()), caller, now)
    {
      if caller !in users || !users[caller].active {
        return Unauthorized;
      }
      sessions := RevokeAllOf(sessions, caller, LoggedOutEverywhere, now);
      return Done;
    }

    method HandleRevokeSession(caller: UserId, id: Token, now: int) returns (reply: Reply)
      modifies this
      ensures (State(), reply) == RevokeOneStep(old(State()), caller, id, now)
    {
      if caller !in users || !users[caller].active {
        return Unauthorized;
      }
      if id !in sessions || sessions[id].user != caller {
        return NotFound;
      }
      sessions := sessions[id := Revoked(sessions[id], RevokedByUser, now)];
      return Done;
    }

    method DeactivateUser(user: UserId, now: int) returns (reply: Reply)
      modifies this
      ensures (State(), reply) == DeactivateStep(old(State()), user, now)
    {
      if user !in users {
        return NotFound;
      }
      users := users[user := users[user].(active := false)];
      sessions := RevokeAllOf(sessions, user, AdminDeactivated, now);
      return Done;
    }

    method ActivateUser(user: UserId) returns (reply: Reply)
      modifies this
      ensures (State(), reply) == ActivateStep(old(State()), user)
    {
      if user !in users {
        return NotFound;
      }
      users := users[user := users[user].(active := true)];
      return Done;
    }

    method AnonymiseUser(user: UserId, now: int) returns (reply: Reply)
      modifies this
      ensures (State(), reply) == AnonymiseStep(old(State()), user, now)
    {
      if user !in users {
        return NotFound;
      }
      users := users[user := User(false, None)];
      sessions := RevokeAllOf(sessions, user, GdprErasure, now);
      return Done;
    }

    method UpdateUser(user: UserId, active: bool) returns (reply: Reply)
      modifies this
      ensures (State(), reply) == SetActiveStep(old(State()), user, active)
    {
      if user !in users {
        return NotFound;
      }
      users := users[user := users[user].(active := active)];
      return Done;
    }

    method HandleAdminRevoke(user: UserId, now: int) returns (reply: Reply)
      modifies this
      ensures (State(), reply) == AdminRevokeStep(old(State()), user, now)
    {
      sessions := RevokeAllOf(sessions, user, RevokedByAdmin, now);
      return Done;
    }

    method HandleChangePassword(caller: UserId, current: string, replacement: string, strong: bool) returns (reply: Reply)
      modifies this
      ensures (State(), reply) == ChangePasswordStep(old(State()), caller, current, replacement, strong)
    {
      if caller !in users || !users[caller].active {
        return Unauthorized;
      }
      if users[caller].password != Some(current) || !strong {
        return BadRequest;
      }
      users := users[caller := users[caller].(password := Some(replacement))];
      return Done;
    }
  }

  // ── Chains ─────────────────────────────────────────────────────────────────

  /** The login token a token descends from, read back through the rotation history. */
  function Root(rotations: seq<Rotation>, t: Token): Token
  {
    if rotations == [] then t
    else
      var last := rotations[|rotations| - 1];
      Root(rotations[..|rotations| - 1], if last.issued == t then last.spent else t)
  }

  ghost predicate SameChain(s: Server, t: Token, u: Token) { Root(s.rotations, t) == Root(s.rotations, u) }

  ghost predicate Live(s: Server, t: Token) { t in s.sessions && !s.sessions[t].revoked }

  ghost predicate NoLiveSession(s: Server, user: UserId)
  {
    forall t | Live(s, t) :: s.sessions[t].user != user
  }

  ghost predicate HistoryInTable(s: Server)
  {
    forall r | r in s.rotations :: r.spent in s.sessions && s.sessions[r.spent].revoked && r.issued in s.sessions
  }

  ghost predicate SpentOnce(rotations: seq<Rotation>)
  {
    forall i, j | 0 <= i < j < |rotations| :: rotations[i].spent != rotations[j].spent
  }

  ghost predicate ChainsStayWithOwner(s: Server)
  {
    forall t {:trigger Root(s.rotations, t)} | t in s.sessions ::
      Root(s.rotations, t) in s.sessions && s.sessions[Root(s.rotations, t)].user == s.sessions[t].user
  }

  /** A chain starts at a login: its root was never issued by a rotation. */
  ghost predicate RootsAreLogins(s: Server)
  {
    forall t, r {:trigger Root(s.rotations, t), r in s.rotations} | t in s.sessions && r in s.rotations ::
      r.issued != Root(s.rotations, t)
  }

  ghost predicate OneLivePerChain(s: Server)
  {
    forall t, u {:trigger SameChain(s, t, u)} | Live(s, t) && Live(s, u) && SameChain(s, t, u) :: t == u
  }

  ghost predicate Consistent(s: Server)
  {
    HistoryInTable(s) && SpentOnce(s.rotations) && ChainsStayWithOwner(s) && RootsAreLogins(s) && OneLivePerChain(s)
  }

  /** `later` keeps every row of `s`, with its owner and expiry, and never clears a revocation. */
  ghost predicate Extends(s: Server, later: Server)
  {
    forall t | t in s.sessions ::
      && t in later.sessions
      && later.sessions[t].user == s.sessions[t].user
      && later.sessions[t].expiresAt == s.sessions[t].expiresAt
      && (s.sessions[t].revoked ==> later.sessions[t].revoked)
  }

  lemma RootAppend(rotations: seq<Rotation>, r: Rotation, t: Token)
    ensures Root(rotations + [r], t) == Root(rotations, if r.issued == t then r.spent else t)
  {
    assert (rotations + [r])[..|rotations|] == rotations;
  }

  lemma {:induction false} RootOfUnrotated(rotations: seq<Rotation>, t: Token)
    requires forall r | r in rotations :: r.issued != t
    ensures Root(rotations, t) == t
  {
    if rotations != [] {
      var n := |rotations| - 1;
      assert rotations[n] in rotations;
      RootOfUnrotated(rotations[..n], t);
    }
  }

  lemma StepExtends(s: Server, e: Event)
    ensures Extends(s, Next(s, e))
  {
  }

  lemma {:induction false} RunExtends(s: Server, events: seq<Event>)
    ensures Extends(s, Run(s, events))
    decreases events
  {
    if events != [] {
      StepExtends(s, events[0]);
      RunExtends(Next(s, events[0]), events[1..]);
    }
  }

  /** A step that adds neither a row nor a rotation keeps every invariant: it can only revoke. */
  lemma RevokingKeepsConsistent(s: Server, later: Server)
    requires Consistent(s) && Extends(s, later)
    requires later.sessions.Keys == s.sessions.Keys && later.rotations == s.rotations
    ensures Consistent(later)
  {
    forall t, u | Live(later, t) && Live(later, u) && SameChain(later, t, u) ensures t == u {
      assert Live(s, t) && Live(s, u) && SameChain(s, t, u);
    }
  }

  lemma LoginKeepsConsistent(s: Server, minted: Token, row: Session)
    requires Consistent(s) && minted !in s.sessions
    ensures Consistent(s.(sessions := s.sessions[minted := row]))
  {
    var later := s.(sessions := s.sessions[minted := row]);
    RootOfUnrotated(s.rotations, minted);
    forall t, u | Live(later, t) && Live(later, u) && SameChain(later, t, u) ensures t == u {
      assert t != minted ==> Live(s, t);
      assert u != minted ==> Live(s, u);
      assert t != minted ==> Root(s.rotations, t) in s.sessions;
      assert u != minted ==> Root(s.rotations, u) in s.sessions;
      assert t != minted && u != minted ==> SameChain(s, t, u);
    }
  }

  lemma RotationKeepsConsistent(s: Server, spent: Token, minted: Token, row: Session, newRow: Session)
    requires Consistent(s) && Live(s, spent) && minted !in s.sessions
    requires row.revoked && row.user == newRow.user == s.sessions[spent].user
    ensures Consistent(s.(sessions := s.sessions[spent := row][minted := newRow], rotations := s.rotations + [Rotation(spent, minted)]))
  {
    var r := Rotation(spent, minted);
    var later := s.(sessions := s.sessions[spent := row][minted := newRow], rotations := s.rotations + [r]);
    forall t ensures Root(later.rotations, t) == Root(s.rotations, if t == minted then spent else t) {
      RootAppend(s.rotations, r, t);
    }
    assert SpentOnce(later.rotations) by {
      forall i | 0 <= i < |s.rotations| ensures s.rotations[i].spent != spent {
        assert s.rotations[i] in s.rotations;
      }
    }
    assert ChainsStayWithOwner(later) by {
      forall t | t in later.sessions
        ensures Root(later.rotations, t) in later.sessions
        ensures later.sessions[Root(later.rotations, t)].user == later.sessions[t].user
      {
        var b := if t == minted then spent else t;
        assert b in s.sessions && Root(s.rotations, b) in s.sessions;
      }
    }
    assert RootsAreLogins(later) by {
      forall t, q | t in later.sessions && q in later.rotations ensures q.issued != Root(later.rotations, t) {
        var b := if t == minted then spent else t;
        assert b in s.sessions && Root(s.rotations, b) in s.sessions;
        assert q == r || q in s.rotations;
      }
    }
    assert OneLivePerChain(later) by {
      forall t, u | Live(later, t) && Live(later, u) && SameChain(later, t, u) ensures t == u {
        var t0, u0 := if t == minted then spent else t, if u == minted then spent else u;
        assert Live(s, t0) && Live(s, u0) && SameChain(s, t0, u0);
      }
    }
  }

  lemma StepKeepsConsistent(s: Server, e: Event)
    requires Consistent(s)
    ensures Consistent(Next(s, e))
  {
    var later := Next(s, e);
    StepExtends(s, e);
    if later.sessions.Keys == s.sessions.Keys && later.rotations == s.rotations {
      RevokingKeepsConsistent(s, later);
    } else if e.Login? {
      LoginKeepsConsistent(s, e.minted, NewSession(e.user, e.now));
    } else {
      var t := e.cookie.value;
      var used := s.sessions[t].(lastUsedAt := Some(e.now));
      RotationKeepsConsistent(s, t, e.minted, Revoked(used, Rotated, e.now), NewSession(used.user, e.now));
    }
  }

  lemma {:induction false} RunKeepsConsistent(s: Server, events: seq<Event>)
    requires Consistent(s)
    ensures Consistent(Run(s, events))
    decreases events
  {
    if events != [] {
      StepKeepsConsistent(s, events[0]);
      RunKeepsConsistent(Next(s, events[0]), events[1..]);
    }
  }

  // ── What holds over every run ──────────────────────────────────────────────

  lemma EveryRunIsConsistent(users: map<UserId, User>, events: seq<Event>)
    ensures var s := Run(Boot(users), events);
      HistoryInTable(s) && SpentOnce(s.rotations) && ChainsStayWithOwner(s) && RootsAreLogins(s) && OneLivePerChain(s)
  {
    RunKeepsConsistent(Boot(users), events);
  }

  /** A revoked session stays revoked, and every later refresh that presents it is refused and issues nothing. */
  lemma RevocationIsPermanent(s: Server, t: Token, events: seq<Event>, minted: Token, now: int, committed: bool)
    requires t in s.sessions && s.sessions[t].revoked
    ensures var later := Run(s, events);
      && t in later.sessions && later.sessions[t].revoked
      && Handle(later, Refresh(Some(t), minted, now, committed)).1 == Unauthorized
      && Next(later, Refresh(Some(t), minted, now, committed)).sessions.Keys == later.sessions.Keys
  {
    RunExtends(s, events);
  }

  /** Deactivation, erasure and an administrator's revocation end the sessions of their user for good: re-activation brings none back. */
  lemma DeactivationIsForever(s: Server, e: Event, t: Token, events: seq<Event>, minted: Token, now: int, committed: bool)
    requires e.AdminRevoke? || ((e.Deactivate? || e.Anonymise?) && e.user in s.users)
    requires t in s.sessions && s.sessions[t].user == e.user
    ensures var later := Run(Next(s, e), events);
      && t in later.sessions && later.sessions[t].revoked
      && Handle(later, Refresh(Some(t), minted, now, committed)).1 == Unauthorized
  {
    RevocationIsPermanent(Next(s, e), t, events, minted, now, committed);
  }

  /** No token outlives its term: seven days after it was issued it is refused, whatever happened in between. */
  lemma TokensExpire(s: Server, e: Event, events: seq<Event>, minted: Token, now: int, committed: bool)
    requires Handle(s, e).1.Issued? && (e.Login? || e.Refresh?)
    requires now >= e.now + REFRESH_LIFETIME
    ensures Handle(Run(Next(s, e), events), Refresh(Some(Handle(s, e).1.token), minted, now, committed)).1 == Unauthorized
  {
    RunExtends(Next(s, e), events);
  }

  /** Until then, and while nothing revokes it, the owner can use it: a refresh is refused for no other reason. */
  lemma RefreshIssuesIff(s: Server, t: Token, minted: Token, now: int, committed: bool)
    requires minted !in s.sessions
    ensures var (next, reply) := Handle(s, Refresh(Some(t), minted, now, committed));
      && (reply == Issued(minted) <==> Live(s, t) && now < s.sessions[t].expiresAt && ActiveUser(s, s.sessions[t].user))
      && (reply == Issued(minted) ==> Live(next, minted) && next.sessions[minted].user == s.sessions[t].user)
      && (reply == Issued(minted) ==> !Live(next, t) && SameChain(next, t, minted))
      && (reply == Issued(minted) ==> forall u | u in s.sessions && u != t :: next.sessions[u] == s.sessions[u])
      && (reply != Issued(minted) ==> reply == Unauthorized && next.sessions.Keys == s.sessions.Keys)
  {
    if Handle(s, Refresh(Some(t), minted, now, committed)).1.Issued? {
      RootAppend(s.rotations, Rotation(t, minted), t);
      RootAppend(s.rotations, Rotation(t, minted), minted);
    }
  }

  /** The user whose sessions an event may change. */
  function Subject(s: Server, e: Event): Option<UserId>
  {
    match e
    case Refresh(cookie, _, _, _) => if cookie.Some? && cookie.value in s.sessions then Some(s.sessions[cookie.value].user) else None
    case Login(user, _, _, _, _) => Some(user)
    case Logout(caller, _, _) => Some(caller)
    case LogoutAll(caller, _) => Some(caller)
    case RevokeOne(caller, _, _) => Some(caller)
    case Deactivate(user, _) => Some(user)
    case Activate(user) => Some(user)
    case Anonymise(user, _) => Some(user)
    case SetActive(user, _) => Some(user)
    case AdminRevoke(user, _) => Some(user)
    case ChangePassword(caller, _, _, _) => Some(caller)
  }

  /** Nobody can touch another user's sessions. */
  lemma OthersAreUntouched(s: Server, e: Event, t: Token)
    requires t in s.sessions && Subject(s, e) != Some(s.sessions[t].user)
    ensures t in Next(s, e).sessions && Next(s, e).sessions[t] == s.sessions[t]
  {
  }

  /** Signing out does what it says, for good: the session named, or every session of the caller, never refreshes again. */
  lemma SignOutIsForever(s: Server, e: Event, t: Token, events: seq<Event>, minted: Token, now: int, committed: bool)
    requires t in s.sessions && ActiveUser(s, s.sessions[t].user)
    requires e.Logout? || e.LogoutAll? || e.RevokeOne?
    requires e == Logout(s.sessions[t].user, Some(t), e.now) || e == LogoutAll(s.sessions[t].user, e.now) || e == RevokeOne(s.sessions[t].user, t, e.now)
    ensures Handle(s, e).1 == Done
    ensures var later := Run(Next(s, e), events);
      !Live(later, t) && Handle(later, Refresh(Some(t), minted, now, committed)).1 == Unauthorized
  {
    RevocationIsPermanent(Next(s, e), t, events, minted, now, committed);
  }

  /** An erased account never gets another session, whatever is done to it afterwards. */
  lemma {:induction false} ErasedUserGetsNoSession(s: Server, user: UserId, events: seq<Event>)
    requires user in s.users && s.users[user].password.None? && NoLiveSession(s, user)
    ensures NoLiveSession(Run(s, events), user)
    decreases events
  {
    if events != [] {
      var next := Next(s, events[0]);
      forall t | Live(next, t) ensures next.sessions[t].user != user {
        if t in s.sessions {
          StepExtends(s, events[0]);
          assert Live(s, t);
        } else if events[0].Refresh? {
          assert Live(s, events[0].cookie.value);
        }
      }
      ErasedUserGetsNoSession(next, user, events[1..]);
    }
  }

  /**
   Two ways to switch a user off and on again: a deactivation ends the user's sessions, a user update only suspends
   them. Afterwards a token refreshes if and only if it was the update and the token is still good.
   */
  lemma OnlyDeactivationEndsSessions(s: Server, off: Event, on: Event, t: Token, minted: Token, now: int, committed: bool)
    requires t in s.sessions && minted !in s.sessions && s.sessions[t].user in s.users
    requires var u := s.sessions[t].user; (off.Deactivate? && off.user == u) || off == SetActive(u, false)
    requires var u := s.sessions[t].user; on == Activate(u) || on == SetActive(u, true)
    ensures Handle(Next(s, off), Refresh(Some(t), minted, now, committed)).1 == Unauthorized
    ensures Handle(Next(Next(s, off), on), Refresh(Some(t), minted, now, committed)).1 == Issued(minted) <==>
      off.SetActive? && Live(s, t) && now < s.sessions[t].expiresAt
  {
    var later := Next(Next(s, off), on);
    RefreshIssuesIff(later, t, minted, now, committed);
  }

  /** What replaying a spent token achieves: it ends every session of its owner exactly when the write survives. */
  lemma ReplayContains(s: Server, t: Token, minted: Token, now: int, committed: bool)
    requires t in s.sessions && s.sessions[t].revoked
    ensures var owner := s.sessions[t].user;
      NoLiveSession(Next(s, Refresh(Some(t), minted, now, committed)), owner) <==> committed || NoLiveSession(s, owner)
  {
  }

  /**
   Two users of one token, whichever comes first: once it has been rotated, a second presentation at any later time is
   taken for theft, and if that write survives the session issued to the first is ended too.
   */
  lemma SecondUseEndsTheFirst(s: Server, t: Token, events: seq<Event>, first: Event, second: Event)
    requires first.Refresh? && second.Refresh? && first.cookie == second.cookie == Some(t)
    requires Handle(s, first).1.Issued?
    ensures var later := Run(Next(s, first), events);
      && IsReuse(later, Some(t)) && Handle(later, second).1 == Unauthorized
      && (second.committed ==> !Live(Next(later, second), Handle(s, first).1.token))
  {
    RunExtends(Next(s, first), events);
  }

  /** Erasing an account is for good: no session of it is live, and none ever will be, whatever is done to it afterwards. */
  lemma ErasureIsForever(s: Server, user: UserId, now: int, events: seq<Event>)
    requires user in s.users
    ensures NoLiveSession(Run(Next(s, Anonymise(user, now)), events), user)
  {
    ErasedUserGetsNoSession(Next(s, Anonymise(user, now)), user, events);
  }

  // ── What each handler does, and nothing else ───────────────────────────────

  /** A login issues the new token exactly to an active user with the stored password and no other objection. */
  lemma LoginIssuesIff(s: Server, user: UserId, password: string, checksOk: bool, minted: Token, now: int)
    requires minted !in s.sessions
    ensures var (next, reply) := Handle(s, Login(user, password, checksOk, minted, now));
      && (reply == Issued(minted) <==> user in s.users && s.users[user].active && s.users[user].password == Some(password) && checksOk)
      && (reply == Issued(minted) ==>
            && next == s.(sessions := next.sessions) && next.sessions.Keys == s.sessions.Keys + {minted}
            && Live(next, minted) && next.sessions[minted].user == user && next.sessions[minted].expiresAt == now + 7 * 86400
            && forall t | t in s.sessions :: next.sessions[t] == s.sessions[t])
      && (reply != Issued(minted) ==> reply == Unauthorized && next == s)
  {
  }

  /** A password changes exactly for an active caller who knows it and chose a strong one; then the new one matches and no other. */
  lemma PasswordChangesIff(s: Server, caller: UserId, current: string, replacement: string, strong: bool)
    ensures var (next, reply) := Handle(s, ChangePassword(caller, current, replacement, strong));
      && (reply == Done <==> caller in s.users && s.users[caller].active && s.users[caller].password == Some(current) && strong)
      && (reply == Done ==>
            && (forall p :: PasswordMatches(next, caller, p) <==> p == replacement)
            && next.sessions == s.sessions && next.users.Keys == s.users.Keys && next.users[caller].active
            && forall u | u in s.users && u != caller :: next.users[u] == s.users[u])
      && (reply != Done ==> next == s)
  {
  }

  /** The sessions an event is meant to end. */
  predicate Ends(s: Server, e: Event, t: Token)
    requires t in s.sessions
  {
    var owner := s.sessions[t].user;
    match e
    case Login(_, _, _, _, _) => false
    case Refresh(cookie, minted, now, committed) =>
      if cookie == Some(t) then s.sessions[t].expiresAt > now && ActiveUser(s, owner) && minted !in s.sessions
      else cookie.Some? && cookie.value in s.sessions && s.sessions[cookie.value].revoked && s.sessions[cookie.value].user == owner && committed
    case Logout(caller, cookie, _) => ActiveUser(s, caller) && cookie == Some(t) && owner == caller
    case LogoutAll(caller, _) => ActiveUser(s, caller) && owner == caller
    case RevokeOne(caller, id, _) => ActiveUser(s, caller) && id == t && owner == caller
    case Deactivate(user, _) => user in s.users && owner == user
    case Activate(_) => false
    case Anonymise(user, _) => user in s.users && owner == user
    case SetActive(_, _) => false
    case AdminRevoke(user, _) => owner == user
    case ChangePassword(_, _, _, _) => false
  }

  function ReasonOf(e: Event, t: Token): Option<Reason>
  {
    match e
    case Refresh(cookie, _, _, _) => if cookie == Some(t) then Some(Rotated) else Some(ReuseDetected)
    case Logout(_, _, _) => Some(LoggedOut)
    case LogoutAll(_, _) => Some(LoggedOutEverywhere)
    case RevokeOne(_, _, _) => Some(RevokedByUser)
    case Deactivate(_, _) => Some(AdminDeactivated)
    case Anonymise(_, _) => Some(GdprErasure)
    case AdminRevoke(_, _) => Some(RevokedByAdmin)
    case _ => None
  }

  /** An event ends exactly the live sessions it is meant to end, for its reason and at its time, and alters no other live one. */
  lemma EndsExactly(s: Server, e: Event, t: Token)
    requires Live(s, t)
    ensures var next := Next(s, e);
      && t in next.sessions
      && (next.sessions[t].revoked <==> Ends(s, e, t))
      && (Ends(s, e, t) ==> next.sessions[t].reason == ReasonOf(e, t) && next.sessions[t].revokedAt == Some(e.now))
      && (Ends(s, e, t)
          || next.sessions[t] == s.sessions[t]
          || (e.Refresh? && e.committed && e.cookie == Some(t) && next.sessions[t] == s.sessions[t].(lastUsedAt := Some(e.now))))
  {
  }

  /** A session that has ended is altered only by its owner naming it again, which stamps it anew. */
  lemma EndedStaysAsItIs(s: Server, e: Event, t: Token)
    requires t in s.sessions && s.sessions[t].revoked
    ensures var next := Next(s, e);
      var owner := s.sessions[t].user;
      var again := ActiveUser(s, owner) && ((e.Logout? && e.caller == owner && e.cookie == Some(t)) || (e.RevokeOne? && e.caller == owner && e.id == t));
      && t in next.sessions
      && (!again ==> next.sessions[t] == s.sessions[t])
      && (again ==> next.sessions[t] == s.sessions[t].(revokedAt := Some(e.now), reason := ReasonOf(e, t)))
  {
  }

  /** A refresh that is refused leaves everything as it was, unless its writes survive: then, for an inactive user, the last use is noted. */
  lemma RefusedRefreshKeeps(s: Server, cookie: Option<Token>, minted: Token, now: int, committed: bool)
    ensures var (next, reply) := Handle(s, Refresh(cookie, minted, now, committed));
      && (!reply.Issued? && (!committed || cookie.None? || cookie.value !in s.sessions || reply == Failed) ==> next == s)
      && (!reply.Issued? ==> next.users == s.users && next.rotations == s.rotations && next.sessions.Keys == s.sessions.Keys)
      && (!reply.Issued? && committed && cookie.Some? && Live(s, cookie.value) ==>
            next.sessions == if s.sessions[cookie.value].expiresAt <= now || reply == Failed then s.sessions
              else s.sessions[cookie.value := s.sessions[cookie.value].(lastUsedAt := Some(now))])
  {
  }

  /** What becomes of a user: the flag and the password change by the events meant for that, and by no other. */
  lemma UsersAfter(s: Server, e: Event, u: UserId)
    requires u in s.users
    ensures var next := Next(s, e);
      && next.users.Keys == s.users.Keys
      && (next.users[u].active <==>
            if (e.Deactivate? || e.Anonymise?) && e.user == u then false
            else if e.Activate? && e.user == u then true
            else if e.SetActive? && e.user == u then e.active
            else s.users[u].active)
      && next.users[u].password ==
            if e.Anonymise? && e.user == u then None
            else if e.ChangePassword? && e.caller == u && s.users[u].active && s.users[u].password == Some(e.current) && e.strong then Some(e.replacement)
            else s.users[u].password
  {
  }
}
