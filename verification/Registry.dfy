/**
 The WebSocket registry: three maps that must agree while handlers interleave at their awaits. Connecting takes two
 steps, the limit check and the registration after the handshake; sending is modelled by its outcome, a socket that
 turned out dead.
 */
module Registry {
  import opened Prelude

  type Socket = nat
  type UserId = string
  type CameraId = string

  const MAX_PER_USER := 5

  /** `pending` and `seen` follow the handlers: sockets that passed the check and await the handshake, and all that ever did. */
  datatype State = State(
    connections: map<UserId, seq<Socket>>,
    userOf: map<Socket, UserId>,
    cameras: map<Socket, set<CameraId>>,
    pending: map<Socket, UserId>,
    seen: set<Socket>)

  function ListOf(s: State, user: UserId): seq<Socket> { if user in s.connections then s.connections[user] else [] }

  /** list.remove: the first occurrence goes, if there is one. */
  function Removed(list: seq<Socket>, ws: Socket): seq<Socket>
  {
    if list == [] then []
    else if list[0] == ws then list[1..]
    else [list[0]] + Removed(list[1..], ws)
  }

  // ── Steps ──────────────────────────────────────────────────────────────────

  /** The limit check. A socket belongs to one handler, so it comes here once; too many connections close it. */
  function BeginConnect(s: State, ws: Socket, user: UserId): State
  {
    if ws in s.seen || |ListOf(s, user)| >= MAX_PER_USER then s
    else s.(pending := s.pending[ws := user], seen := s.seen + {ws})
  }

  function FinishConnect(s: State, ws: Socket): State
  {
    if ws !in s.pending then s
    else
      var user := s.pending[ws];
      s.(connections := s.connections[user := ListOf(s, user) + [ws]],
         userOf := s.userOf[ws := user],
         cameras := s.cameras[ws := {}],
         pending := s.pending - {ws})
  }

  /** The handshake fails: the handler ends without registering. */
  function AbandonConnect(s: State, ws: Socket): State { s.(pending := s.pending - {ws}) }

  function Disconnect(s: State, ws: Socket): State
  {
    var rest := s.(userOf := s.userOf - {ws}, cameras := s.cameras - {ws});
    if ws in s.userOf && s.userOf[ws] != "" && s.userOf[ws] in s.connections then
      var user := s.userOf[ws];
      var list := Removed(s.connections[user], ws);
      rest.(connections := if list == [] then s.connections - {user} else s.connections[user := list])
    else rest
  }

  function Track(s: State, ws: Socket, camera: CameraId): State
  {
    if ws in s.cameras then s.(cameras := s.cameras[ws := s.cameras[ws] + {camera}]) else s
  }

  function Untrack(s: State, ws: Socket, camera: CameraId): State
  {
    if ws in s.cameras then s.(cameras := s.cameras[ws := s.cameras[ws] - {camera}]) else s
  }

  function DropEach(s: State, dead: seq<Socket>): State
    decreases dead
  {
    if dead == [] then s else DropEach(Disconnect(s, dead[0]), dead[1..])
  }

  lemma {:induction false} DropEachAppend(s: State, dead: seq<Socket>, ws: Socket)
    ensures DropEach(s, dead + [ws]) == Disconnect(DropEach(s, dead), ws)
    decreases dead
  {
    if dead == [] {
      assert ([ws])[1..] == [];
    } else {
      assert (dead + [ws])[1..] == dead[1..] + [ws];
      DropEachAppend(Disconnect(s, dead[0]), dead[1..], ws);
    }
  }

  // ── Interleaving ───────────────────────────────────────────────────────────

  datatype Move =
    | Begin(ws: Socket, user: UserId)
    | Finish(ws: Socket)
    | Abandon(ws: Socket)
    | Leave(ws: Socket)
    | Watch(ws: Socket, camera: CameraId)
    | Unwatch(ws: Socket, camera: CameraId)

  function Step(s: State, m: Move): State
  {
    match m
    case Begin(ws, user) => BeginConnect(s, ws, user)
    case Finish(ws) => FinishConnect(s, ws)
    case Abandon(ws) => AbandonConnect(s, ws)
    case Leave(ws) => Disconnect(s, ws)
    case Watch(ws, camera) => Track(s, ws, camera)
    case Unwatch(ws, camera) => Untrack(s, ws, camera)
  }

  function Run(s: State, moves: seq<Move>): State
    decreases moves
  {
    if moves == [] then s else Run(Step(s, moves[0]), moves[1..])
  }

  /** The state after n awaits of a handler that changes nothing itself. */
  function Meanwhile(s: State, others: nat -> seq<Move>, n: nat): State
  {
    if n == 0 then s else Run(Meanwhile(s, others, n - 1), others(n - 1))
  }

  /** Sending to each socket of a list in turn, dropping a dead one at once. */
  function SendEach(s: State, list: seq<Socket>, alive: Socket -> bool, others: nat -> seq<Move>, i: nat): State
    decreases list
  {
    if list == [] then s
    else
      var sent := Run(s, others(i));
      SendEach(if alive(list[0]) then sent else Disconnect(sent, list[0]), list[1..], alive, others, i + 1)
  }

  const EMPTY := State(map[], map[], map[], map[], {})

  class ConnectionManager {
    var connections: map<UserId, seq<Socket>>
    var userOf: map<Socket, UserId>
    var cameras: map<Socket, set<CameraId>>
    var pending: map<Socket, UserId>
    var seen: set<Socket>

    function View(): State reads this { State(connections, userOf, cameras, pending, seen) }

    constructor ()
      ensures View() == EMPTY
    {
      connections, userOf, cameras, pending, seen := map[], map[], map[], map[], {};
    }

    /** The part of connect before the handshake. */
    method CheckLimit(ws: Socket, user: UserId) returns (accepted: bool)
      requires ws !in seen
      modifies this`pending, this`seen
      ensures View() == BeginConnect(old(View()), ws, user) && accepted == (|ListOf(old(View()), user)| < MAX_PER_USER)
    {
      accepted := user !in connections || |connections[user]| < MAX_PER_USER;
      if accepted {
        pending, seen := pending[ws := user], seen + {ws};
      }
    }

    /** The part of connect after the handshake. */
    method Register(ws: Socket, user: UserId)
      requires ws in pending && pending[ws] == user
      modifies this
      ensures View() == FinishConnect(old(View()), ws)
    {
      var list := if user in connections then connections[user] else [];
      connections := connections[user := list + [ws]];
      userOf := userOf[ws := user];
      cameras := cameras[ws := {}];
      pending := pending - {ws};
    }

    method Remove(user: UserId, ws: Socket)
      requires user in connections
      modifies this`connections
      ensures connections == var list := Removed(old(connections)[user], ws);
        if list == [] then old(connections) - {user} else old(connections)[user := list]
    {
      var list, i := connections[user], 0;
      while i < |list| && list[i] != ws
        invariant i <= |list| && Removed(list, ws) == list[..i] + Removed(list[i..], ws)
      {
        assert list[i..][1..] == list[i + 1..];
        i := i + 1;
      }
      assert Removed(list, ws) == if i < |list| then list[..i] + list[i + 1..] else list;
      var rest := if i < |list| then list[..i] + list[i + 1..] else list;
      connections := if rest == [] then connections - {user} else connections[user := rest];
    }

    method Drop(ws: Socket) returns (watched: set<CameraId>)
      modifies this
      ensures View() == Disconnect(old(View()), ws)
      ensures watched == if ws in old(cameras) then old(cameras)[ws] else {}
    {
      watched := if ws in cameras then cameras[ws] else {};
      var user := if ws in userOf then userOf[ws] else "";
      userOf, cameras := userOf - {ws}, cameras - {ws};
      if user != "" && user in connections {
        Remove(user, ws);
      }
    }

    method TrackCamera(ws: Socket, camera: CameraId)
      modifies this`cameras
      ensures View() == Track(old(View()), ws, camera)
    {
      if ws in cameras {
        cameras := cameras[ws := cameras[ws] + {camera}];
      }
    }

    method UntrackCamera(ws: Socket, camera: CameraId)
      modifies this`cameras
      ensures View() == Untrack(old(View()), ws, camera)
    {
      if ws in cameras {
        cameras := cameras[ws := cameras[ws] - {camera}];
      }
    }

    /** What the other handlers do while this one awaits. */
    method Await(moves: seq<Move>)
      modifies this
      ensures View() == Run(old(View()), moves)
    {
      var s := Run(View(), moves);
      connections, userOf, cameras, pending, seen := s.connections, s.userOf, s.cameras, s.pending, s.seen;
    }

    /**
     `alive`: whether the send to a socket goes through. `others`: what happens during each send. The dead sockets are
     dropped after every send was tried.
     */
    method Broadcast(alive: Socket -> bool, others: nat -> seq<Move>) returns (dead: seq<Socket>)
      modifies this
      ensures forall ws :: ws in dead <==> ws in old(userOf) && !alive(ws)
      ensures View() == DropEach(Meanwhile(old(View()), others, |old(userOf)|), dead)
    {
      dead := [];
      ghost var targets := userOf.Keys;
      var rest, sent := userOf.Keys, 0;
      while rest != {}
        invariant rest <= targets && sent + |rest| == |targets|
        invariant View() == Meanwhile(old(View()), others, sent)
        invariant forall ws :: ws in dead <==> ws in targets && ws !in rest && !alive(ws)
        decreases rest
      {
        var ws :| ws in rest;
        Await(others(sent));
        if !alive(ws) {
          dead := dead + [ws];
        }
        rest, sent := rest - {ws}, sent + 1;
      }
      DropAll(dead);
    }

    method DropAll(dead: seq<Socket>)
      modifies this
      ensures View() == DropEach(old(View()), dead)
    {
      for i := 0 to |dead|
        invariant View() == DropEach(old(View()), dead[..i])
      {
        assert dead[..i + 1] == dead[..i] + [dead[i]];
        DropEachAppend(old(View()), dead[..i], dead[i]);
        var _ := Drop(dead[i]);
      }
      assert dead[..|dead|] == dead;
    }

    method SendToUser(user: UserId, alive: Socket -> bool, others: nat -> seq<Move>)
      modifies this
      ensures View() == SendEach(old(View()), ListOf(old(View()), user), alive, others, 0)
    {
      var list := if user in connections then connections[user] else [];
      for i := 0 to |list|
        invariant SendEach(View(), list[i..], alive, others, i) == SendEach(old(View()), list, alive, others, 0)
      {
        assert list[i..][1..] == list[i + 1..];
        Await(others(i));
        if !alive(list[i]) {
          var _ := Drop(list[i]);
        }
      }
    }

    method ConnectionCount() returns (n: nat)
      requires Agree(View())
      ensures n == Total(connections)
    {
      CountIsTotal(connections, userOf);
      n := |userOf|;
    }
  }

  // ── Agreement ──────────────────────────────────────────────────────────────

  ghost predicate Distinct(list: seq<Socket>) { forall i, j | 0 <= i < j < |list| :: list[i] != list[j] }

  /** Lists are not empty and hold each of their user's sockets once; a socket is in the list of the user it maps to. */
  ghost predicate ListsMatch(connections: map<UserId, seq<Socket>>, userOf: map<Socket, UserId>)
  {
    && (forall u | u in connections :: connections[u] != [] && Distinct(connections[u]))
    && (forall u, ws | u in connections && ws in connections[u] :: ws in userOf && userOf[ws] == u)
    && (forall ws | ws in userOf :: userOf[ws] in connections && ws in connections[userOf[ws]])
  }

  ghost predicate Agree(s: State)
  {
    && ListsMatch(s.connections, s.userOf)
    && s.cameras.Keys == s.userOf.Keys
    && s.userOf.Keys + s.pending.Keys <= s.seen
    && s.userOf.Keys !! s.pending.Keys
    && (forall ws | ws in s.userOf :: s.userOf[ws] != "")
    && (forall ws | ws in s.pending :: s.pending[ws] != "")
  }

  /** User ids are not empty. */
  ghost predicate Named(moves: seq<Move>) { forall m | m in moves && m.Begin? :: m.user != "" }

  lemma HeadOnce(list: seq<Socket>)
    requires Distinct(list) && list != []
    ensures list[0] !in list[1..] && Distinct(list[1..])
  {
    assert forall i | 0 <= i < |list[1..]| :: list[1..][i] == list[i + 1];
  }

  lemma {:induction false} RemovedIsGone(list: seq<Socket>, ws: Socket)
    requires Distinct(list)
    ensures Distinct(Removed(list, ws)) && forall x :: x in Removed(list, ws) <==> x in list && x != ws
    ensures |Removed(list, ws)| == |list| - if ws in list then 1 else 0
  {
    if list != [] {
      assert list == [list[0]] + list[1..];
      HeadOnce(list);
      RemovedIsGone(list[1..], ws);
      if list[0] != ws {
        assert Removed(list, ws) == [list[0]] + Removed(list[1..], ws);
      }
    }
  }

  /** The last socket of a user goes, and the list with it. */
  lemma EmptyingMatches(connections: map<UserId, seq<Socket>>, userOf: map<Socket, UserId>, ws: Socket)
    requires ListsMatch(connections, userOf) && ws in userOf && Removed(connections[userOf[ws]], ws) == []
    ensures ListsMatch(connections - {userOf[ws]}, userOf - {ws})
  {
    RemovedIsGone(connections[userOf[ws]], ws);
    forall x | x in userOf && x != ws ensures userOf[x] != userOf[ws] {
      assert x in connections[userOf[x]];
    }
  }

  lemma ShorteningMatches(connections: map<UserId, seq<Socket>>, userOf: map<Socket, UserId>, ws: Socket)
    requires ListsMatch(connections, userOf) && ws in userOf && Removed(connections[userOf[ws]], ws) != []
    ensures ListsMatch(connections[userOf[ws] := Removed(connections[userOf[ws]], ws)], userOf - {ws})
  {
    var user := userOf[ws];
    RemovedIsGone(connections[user], ws);
    var after := connections[user := Removed(connections[user], ws)];
    forall u, x | u in after && x in after[u] ensures x in userOf - {ws} && (userOf - {ws})[x] == u {
      assert x in connections[u];
    }
    forall x | x in userOf - {ws} ensures userOf[x] in after && x in after[userOf[x]] {
      assert x in connections[userOf[x]];
    }
  }

  /** Taking a socket out of its user's list and out of the reverse map keeps the two in step. */
  lemma RemovalMatches(connections: map<UserId, seq<Socket>>, userOf: map<Socket, UserId>, ws: Socket)
    requires ListsMatch(connections, userOf) && ws in userOf
    ensures var user := userOf[ws];
      var list := Removed(connections[user], ws);
      ListsMatch(if list == [] then connections - {user} else connections[user := list], userOf - {ws})
  {
    if Removed(connections[userOf[ws]], ws) == [] {
      EmptyingMatches(connections, userOf, ws);
    } else {
      ShorteningMatches(connections, userOf, ws);
    }
  }

  lemma DisconnectAgrees(s: State, ws: Socket)
    requires Agree(s)
    ensures Agree(Disconnect(s, ws))
  {
    if ws in s.userOf {
      RemovalMatches(s.connections, s.userOf, ws);
    } else {
      assert s.userOf - {ws} == s.userOf;
    }
  }

  /** Appending a new socket to a user's list and to the reverse map keeps the two in step. */
  lemma AdditionMatches(connections: map<UserId, seq<Socket>>, userOf: map<Socket, UserId>, user: UserId, ws: Socket)
    requires ListsMatch(connections, userOf) && ws !in userOf
    ensures var list := if user in connections then connections[user] else [];
      ListsMatch(connections[user := list + [ws]], userOf[ws := user])
  {
    var list := if user in connections then connections[user] else [];
    var after := connections[user := list + [ws]];
    assert forall x | x in list :: x in userOf;
    assert Distinct(list + [ws]);
    forall u, x | u in after && x in after[u] ensures x in userOf[ws := user] && userOf[ws := user][x] == u {
      assert x == ws || (u in connections && x in connections[u]);
    }
  }

  lemma FinishAgrees(s: State, ws: Socket)
    requires Agree(s)
    ensures Agree(FinishConnect(s, ws))
  {
    if ws in s.pending {
      AdditionMatches(s.connections, s.userOf, s.pending[ws], ws);
    }
  }

  lemma StepAgrees(s: State, m: Move)
    requires Agree(s) && (m.Begin? ==> m.user != "")
    ensures Agree(Step(s, m))
  {
    if m.Leave? {
      DisconnectAgrees(s, m.ws);
    } else if m.Finish? {
      FinishAgrees(s, m.ws);
    }
  }

  lemma {:induction false} RunAgrees(s: State, moves: seq<Move>)
    requires Agree(s) && Named(moves)
    ensures Agree(Run(s, moves))
    decreases moves
  {
    if moves != [] {
      StepAgrees(s, moves[0]);
      RunAgrees(Step(s, moves[0]), moves[1..]);
    }
  }

  /** However the handlers interleave, the three maps agree, and the connection count is the sum of the lists. */
  lemma MapsAlwaysAgree(moves: seq<Move>)
    requires Named(moves)
    ensures var s := Run(EMPTY, moves);
      ListsMatch(s.connections, s.userOf) && s.cameras.Keys == s.userOf.Keys && |s.userOf| == Total(s.connections)
  {
    RunAgrees(EMPTY, moves);
    var s := Run(EMPTY, moves);
    CountIsTotal(s.connections, s.userOf);
  }

  /** Dropping sockets removes exactly those, so after a broadcast exactly the live ones remain. */
  lemma {:induction false} DropEachLeaves(s: State, dead: seq<Socket>)
    ensures DropEach(s, dead).userOf.Keys == s.userOf.Keys - SocketsIn(dead)
    ensures forall ws | ws in DropEach(s, dead).userOf :: DropEach(s, dead).userOf[ws] == s.userOf[ws]
    decreases dead
  {
    if dead != [] {
      DropEachLeaves(Disconnect(s, dead[0]), dead[1..]);
      assert SocketsIn(dead) == {dead[0]} + SocketsIn(dead[1..]);
    }
  }

  // ── Sends that are interleaved ─────────────────────────────────────────────

  /** A socket whose handler has connected it and lost it again. */
  ghost predicate Gone(s: State, ws: Socket) { ws in s.seen && ws !in s.pending && ws !in s.userOf }

  /** Such a socket never comes back. */
  lemma {:induction false} GoneForGood(s: State, moves: seq<Move>, ws: Socket)
    requires Gone(s, ws)
    ensures Gone(Run(s, moves), ws)
    decreases moves
  {
    if moves != [] {
      GoneForGood(Step(s, moves[0]), moves[1..], ws);
    }
  }

  lemma {:induction false} MeanwhileAgrees(s: State, others: nat -> seq<Move>, n: nat)
    requires Agree(s) && forall i: nat :: Named(others(i))
    ensures Agree(Meanwhile(s, others, n))
  {
    if n > 0 {
      MeanwhileAgrees(s, others, n - 1);
      assert Named(others(n - 1));
      RunAgrees(Meanwhile(s, others, n - 1), others(n - 1));
    }
  }

  lemma {:induction false} DropEachAgrees(s: State, dead: seq<Socket>)
    requires Agree(s)
    ensures Agree(DropEach(s, dead))
    decreases dead
  {
    if dead != [] {
      DisconnectAgrees(s, dead[0]);
      DropEachAgrees(Disconnect(s, dead[0]), dead[1..]);
    }
  }

  /** Whatever the others do during its sends, a broadcast leaves agreeing maps, the dead sockets out of them and every other one in. */
  lemma BroadcastAgrees(s: State, others: nat -> seq<Move>, n: nat, dead: seq<Socket>)
    requires Agree(s) && forall i: nat :: Named(others(i))
    ensures var middle := Meanwhile(s, others, n);
      Agree(DropEach(middle, dead)) && DropEach(middle, dead).userOf.Keys == middle.userOf.Keys - SocketsIn(dead)
  {
    MeanwhileAgrees(s, others, n);
    DropEachAgrees(Meanwhile(s, others, n), dead);
    DropEachLeaves(Meanwhile(s, others, n), dead);
  }

  lemma {:induction false} RegisteredStaysSeen(s: State, moves: seq<Move>, ws: Socket)
    requires ws in s.seen && ws !in s.pending
    ensures ws in Run(s, moves).seen && ws !in Run(s, moves).pending
    decreases moves
  {
    if moves != [] {
      RegisteredStaysSeen(Step(s, moves[0]), moves[1..], ws);
    }
  }

  /** Sending to a user does the same, and in the end none of the sockets a send failed on is registered. */
  lemma {:induction false} SendEachAgrees(s: State, list: seq<Socket>, alive: Socket -> bool, others: nat -> seq<Move>, i: nat)
    requires Agree(s) && forall j: nat :: Named(others(j))
    requires forall ws | ws in list :: ws in s.seen && ws !in s.pending
    ensures Agree(SendEach(s, list, alive, others, i))
    ensures forall ws | ws in list && !alive(ws) :: ws !in SendEach(s, list, alive, others, i).userOf
    decreases list
  {
    if list != [] {
      assert Named(others(i));
      RunAgrees(s, others(i));
      var sent := Run(s, others(i));
      var next := if alive(list[0]) then sent else Disconnect(sent, list[0]);
      DisconnectAgrees(sent, list[0]);
      forall ws | ws in list ensures ws in next.seen && ws !in next.pending {
        RegisteredStaysSeen(s, others(i), ws);
      }
      assert list == [list[0]] + list[1..];
      SendEachAgrees(next, list[1..], alive, others, i + 1);
      if !alive(list[0]) {
        SendKeepsGone(next, list[1..], alive, others, i + 1, list[0]);
      }
    }
  }

  lemma {:induction false} SendKeepsGone(s: State, list: seq<Socket>, alive: Socket -> bool, others: nat -> seq<Move>, i: nat, ws: Socket)
    requires Gone(s, ws)
    ensures Gone(SendEach(s, list, alive, others, i), ws)
    decreases list
  {
    if list != [] {
      GoneForGood(s, others(i), ws);
      var sent := Run(s, others(i));
      SendKeepsGone(if alive(list[0]) then sent else Disconnect(sent, list[0]), list[1..], alive, others, i + 1, ws);
    }
  }

  /** User ids must not be empty: disconnecting such a user's socket leaves it in the list. */
  lemma EmptyUserIdIsLeftBehind(s: State, ws: Socket)
    requires ws in s.userOf && s.userOf[ws] == "" && "" in s.connections && ws in s.connections[""]
    ensures var after := Disconnect(s, ws); ws in after.connections[""] && ws !in after.userOf && !ListsMatch(after.connections, after.userOf)
  {
  }

  // ── The count ──────────────────────────────────────────────────────────────

  ghost function Total(connections: map<UserId, seq<Socket>>): nat
    decreases |connections|
  {
    if connections == map[] then 0
    else
      var u :| u in connections;
      |connections[u]| + Total(connections - {u})
  }

  function SocketsIn(list: seq<Socket>): set<Socket> { set ws | ws in list }

  lemma {:induction false} DistinctSize(list: seq<Socket>)
    requires Distinct(list)
    ensures |SocketsIn(list)| == |list|
  {
    if list != [] {
      HeadOnce(list);
      DistinctSize(list[1..]);
      assert SocketsIn(list) == {list[0]} + SocketsIn(list[1..]);
    }
  }

  function OfOthers(userOf: map<Socket, UserId>, u: UserId): map<Socket, UserId>
  {
    map ws | ws in userOf && userOf[ws] != u :: userOf[ws]
  }

  lemma OthersMatch(connections: map<UserId, seq<Socket>>, userOf: map<Socket, UserId>, u: UserId)
    requires ListsMatch(connections, userOf) && u in connections
    ensures ListsMatch(connections - {u}, OfOthers(userOf, u))
  {
    forall ws | ws in OfOthers(userOf, u) ensures userOf[ws] in connections - {u} && ws in connections[userOf[ws]] {
    }
  }

  lemma OthersSize(connections: map<UserId, seq<Socket>>, userOf: map<Socket, UserId>, u: UserId)
    requires ListsMatch(connections, userOf) && u in connections
    ensures |userOf| == |OfOthers(userOf, u)| + |connections[u]|
  {
    var keys, others, own := userOf.Keys, OfOthers(userOf, u).Keys, SocketsIn(connections[u]);
    DistinctSize(connections[u]);
    forall ws ensures ws in own <==> ws in userOf && userOf[ws] == u {
      assert ws in own <==> ws in connections[u];
      assert ws in userOf && userOf[ws] == u ==> ws in connections[userOf[ws]];
    }
    assert keys == others + own && others !! own;
    assert |keys| == |others| + |own|;
    assert |userOf| == |keys| && |OfOthers(userOf, u)| == |others|;
  }

  lemma {:induction false} CountIsTotal(connections: map<UserId, seq<Socket>>, userOf: map<Socket, UserId>)
    requires ListsMatch(connections, userOf)
    ensures |userOf| == Total(connections)
    decreases |connections|
  {
    if connections == map[] {
      assert userOf == map[];
    } else {
      var u :| u in connections && Total(connections) == |connections[u]| + Total(connections - {u});
      OthersMatch(connections, userOf, u);
      OthersSize(connections, userOf, u);
      CountIsTotal(connections - {u}, OfOthers(userOf, u));
    }
  }

  // ── The limit ──────────────────────────────────────────────────────────────

  function PendingOf(s: State, user: UserId): set<Socket> { set ws | ws in s.pending && s.pending[ws] == user }

  /** At no point of the run does the user have more than `k` handshakes under way. */
  ghost predicate AtMostPending(s: State, moves: seq<Move>, user: UserId, k: nat)
    decreases moves
  {
    |PendingOf(s, user)| <= k && (moves != [] ==> AtMostPending(Step(s, moves[0]), moves[1..], user, k))
  }

  lemma LeaveShortens(s: State, ws: Socket, user: UserId)
    requires Agree(s)
    ensures |ListOf(Disconnect(s, ws), user)| <= |ListOf(s, user)| && PendingOf(Disconnect(s, ws), user) == PendingOf(s, user)
  {
    if ws in s.userOf {
      RemovedIsGone(s.connections[s.userOf[ws]], ws);
    }
  }

  lemma FinishMoves(s: State, ws: Socket, user: UserId)
    ensures |ListOf(FinishConnect(s, ws), user)| + |PendingOf(FinishConnect(s, ws), user)| == |ListOf(s, user)| + |PendingOf(s, user)|
  {
    assert PendingOf(FinishConnect(s, ws), user) == PendingOf(s, user) - {ws};
  }

  /** The check lets a connect begin only below the limit, with at most k - 1 others of the user pending. */
  lemma BeginWithinLimit(s: State, ws: Socket, u: UserId, user: UserId, k: nat)
    requires |ListOf(s, user)| + |PendingOf(s, user)| <= MAX_PER_USER - 1 + k && |PendingOf(BeginConnect(s, ws, u), user)| <= k
    ensures |ListOf(BeginConnect(s, ws, u), user)| + |PendingOf(BeginConnect(s, ws, u), user)| <= MAX_PER_USER - 1 + k
  {
    var next := BeginConnect(s, ws, u);
    assert ListOf(next, user) == ListOf(s, user);
    if u != user || |ListOf(s, user)| >= MAX_PER_USER {
      assert PendingOf(next, user) <= PendingOf(s, user);
      SubsetSize(PendingOf(next, user), PendingOf(s, user));
    }
  }

  lemma SubsetSize(a: set<Socket>, b: set<Socket>)
    requires a <= b
    ensures |a| <= |b|
  {
    assert b == a + (b - a);
  }

  lemma StepWithinLimit(s: State, m: Move, user: UserId, k: nat)
    requires Agree(s) && |ListOf(s, user)| + |PendingOf(s, user)| <= MAX_PER_USER - 1 + k
    requires |PendingOf(Step(s, m), user)| <= k
    ensures |ListOf(Step(s, m), user)| + |PendingOf(Step(s, m), user)| <= MAX_PER_USER - 1 + k
  {
    match m {
      case Begin(ws, u) => BeginWithinLimit(s, ws, u, user, k);
      case Finish(ws) => FinishMoves(s, ws, user);
      case Abandon(ws) => assert PendingOf(Step(s, m), user) == PendingOf(s, user) - {ws};
      case Leave(ws) => LeaveShortens(s, ws, user);
      case Watch(_, _) => assert PendingOf(Step(s, m), user) == PendingOf(s, user);
      case Unwatch(_, _) => assert PendingOf(Step(s, m), user) == PendingOf(s, user);
    }
  }

  lemma {:induction false} RunWithinLimit(s: State, moves: seq<Move>, user: UserId, k: nat)
    requires Agree(s) && |ListOf(s, user)| + |PendingOf(s, user)| <= MAX_PER_USER - 1 + k
    requires AtMostPending(s, moves, user, k) && Named(moves)
    ensures |ListOf(Run(s, moves), user)| <= MAX_PER_USER - 1 + k
    decreases moves
  {
    if moves != [] {
      StepAgrees(s, moves[0]);
      StepWithinLimit(s, moves[0], user, k);
      RunWithinLimit(Step(s, moves[0]), moves[1..], user, k);
    }
  }

  /**
   The limit the check really gives: with at most `k` handshakes of a user at a time no list exceeds 4 + k, so the
   advertised five hold when a user's connects do not overlap.
   */
  lemma ConnectionLimit(moves: seq<Move>, user: UserId, k: nat)
    requires AtMostPending(EMPTY, moves, user, k) && Named(moves)
    ensures |ListOf(Run(EMPTY, moves), user)| <= MAX_PER_USER - 1 + k
  {
    assert PendingOf(EMPTY, user) == {};
    RunWithinLimit(EMPTY, moves, user, k);
  }

  /** The bound is reached: two connects that overlap take a user from four sockets to six. */
  lemma OverlappingConnectsExceed(s: State, a: Socket, b: Socket, user: UserId)
    requires |ListOf(s, user)| == MAX_PER_USER - 1 && a != b && a !in s.seen && b !in s.seen
    ensures |ListOf(FinishConnect(FinishConnect(BeginConnect(BeginConnect(s, a, user), b, user), a), b), user)| == MAX_PER_USER + 1
  {
  }

  // ── The bound is reached ───────────────────────────────────────────────────

  /** The p sockets from m on. */
  function Sockets(m: nat, p: nat): set<Socket>
  {
    if p == 0 then {} else Sockets(m, p - 1) + {m + p - 1}
  }

  lemma {:induction false} SocketsAre(m: nat, p: nat)
    ensures |Sockets(m, p)| == p && forall ws: Socket :: ws in Sockets(m, p) <==> m <= ws < m + p
  {
    if p > 0 {
      SocketsAre(m, p - 1);
    }
  }

  /** A user with m sockets registered whose next p, counting on, await their handshake. */
  ghost predicate Crowd(s: State, user: UserId, m: nat, p: nat)
  {
    |ListOf(s, user)| == m && PendingOf(s, user) == Sockets(m, p) && forall ws | ws in s.seen :: ws < m + p
  }

  lemma CrowdPending(s: State, user: UserId, m: nat, p: nat)
    requires Crowd(s, user, m, p)
    ensures |PendingOf(s, user)| == p
  {
    SocketsAre(m, p);
  }

  lemma BeginAddsPending(s: State, user: UserId, ws: Socket)
    requires ws !in s.seen && |ListOf(s, user)| < MAX_PER_USER
    ensures var next := BeginConnect(s, ws, user);
      PendingOf(next, user) == PendingOf(s, user) + {ws} && ListOf(next, user) == ListOf(s, user) && next.seen == s.seen + {ws}
  {
  }

  lemma CrowdBegins(s: State, user: UserId, m: nat, p: nat)
    requires Crowd(s, user, m, p) && m < MAX_PER_USER
    ensures Crowd(BeginConnect(s, m + p, user), user, m, p + 1)
  {
    BeginAddsPending(s, user, m + p);
  }

  lemma FinishRemovesPending(s: State, user: UserId, ws: Socket)
    requires ws in s.pending && s.pending[ws] == user
    ensures var next := FinishConnect(s, ws);
      PendingOf(next, user) == PendingOf(s, user) - {ws} && |ListOf(next, user)| == |ListOf(s, user)| + 1 && next.seen == s.seen
  {
  }

  lemma CrowdFinishes(s: State, user: UserId, m: nat, p: nat)
    requires Crowd(s, user, m, p) && p > 0
    ensures Crowd(FinishConnect(s, m), user, m + 1, p - 1)
  {
    SocketsAre(m, p);
    SocketsAre(m + 1, p - 1);
    assert m in PendingOf(s, user);
    assert Sockets(m, p) - {m} == Sockets(m + 1, p - 1);
    FinishRemovesPending(s, user, m);
  }

  function Finishes(m: nat, p: nat): seq<Move>
    decreases p
  {
    if p == 0 then [] else [Finish(m)] + Finishes(m + 1, p - 1)
  }

  /** q more handshakes begin, then all finish. */
  function BeginThenFinish(user: UserId, m: nat, p: nat, q: nat): seq<Move>
    decreases q
  {
    if q == 0 then Finishes(m, p) else [Begin(m + p, user)] + BeginThenFinish(user, m, p + 1, q - 1)
  }

  /** Connects that do not overlap up to four sockets, then k that all do. */
  function Rush(user: UserId, m: nat, k: nat): seq<Move>
    decreases MAX_PER_USER - m
  {
    if m >= MAX_PER_USER - 1 then BeginThenFinish(user, m, 0, k) else [Begin(m, user), Finish(m)] + Rush(user, m + 1, k)
  }

  /** `next` is where the first move leads. */
  lemma OneMove(s: State, m: Move, next: State, rest: seq<Move>, user: UserId, k: nat)
    requires next == Step(s, m) && |PendingOf(s, user)| <= k && AtMostPending(next, rest, user, k)
    ensures AtMostPending(s, [m] + rest, user, k) && Run(s, [m] + rest) == Run(next, rest)
  {
    assert ([m] + rest)[1..] == rest;
  }

  /** The run keeps to k handshakes at a time and ends with n sockets. */
  ghost predicate Reaches(s: State, moves: seq<Move>, user: UserId, k: nat, n: nat)
  {
    AtMostPending(s, moves, user, k) && |ListOf(Run(s, moves), user)| == n
  }

  lemma BeginReaches(s: State, user: UserId, m: nat, p: nat, rest: seq<Move>, k: nat, n: nat)
    requires Crowd(s, user, m, p) && p <= k && Reaches(BeginConnect(s, m + p, user), rest, user, k, n)
    ensures Reaches(s, [Begin(m + p, user)] + rest, user, k, n)
  {
    CrowdPending(s, user, m, p);
    OneMove(s, Begin(m + p, user), BeginConnect(s, m + p, user), rest, user, k);
  }

  lemma FinishReaches(s: State, user: UserId, m: nat, p: nat, rest: seq<Move>, k: nat, n: nat)
    requires Crowd(s, user, m, p) && p <= k && Reaches(FinishConnect(s, m), rest, user, k, n)
    ensures Reaches(s, [Finish(m)] + rest, user, k, n)
  {
    CrowdPending(s, user, m, p);
    OneMove(s, Finish(m), FinishConnect(s, m), rest, user, k);
  }

  lemma {:induction false} AllFinish(s: State, user: UserId, m: nat, p: nat, k: nat)
    requires Crowd(s, user, m, p) && p <= k
    ensures Reaches(s, Finishes(m, p), user, k, m + p)
    decreases p
  {
    if p == 0 {
      CrowdPending(s, user, m, p);
    } else {
      CrowdFinishes(s, user, m, p);
      AllFinish(FinishConnect(s, m), user, m + 1, p - 1, k);
      FinishReaches(s, user, m, p, Finishes(m + 1, p - 1), k, m + p);
    }
  }

  lemma {:induction false} AllBegin(s: State, user: UserId, m: nat, p: nat, q: nat, k: nat)
    requires Crowd(s, user, m, p) && m < MAX_PER_USER && p + q <= k
    ensures Reaches(s, BeginThenFinish(user, m, p, q), user, k, m + p + q)
    decreases q
  {
    if q == 0 {
      AllFinish(s, user, m, p, k);
    } else {
      CrowdBegins(s, user, m, p);
      AllBegin(BeginConnect(s, m + p, user), user, m, p + 1, q - 1, k);
      BeginReaches(s, user, m, p, BeginThenFinish(user, m, p + 1, q - 1), k, m + p + q);
    }
  }

  /** One connect that overlaps no other. */
  function Connected(s: State, user: UserId, ws: Socket): State { FinishConnect(BeginConnect(s, ws, user), ws) }

  lemma ConnectedCrowd(s: State, user: UserId, m: nat)
    requires Crowd(s, user, m, 0) && m < MAX_PER_USER
    ensures Crowd(BeginConnect(s, m, user), user, m, 1) && Crowd(Connected(s, user, m), user, m + 1, 0)
  {
    CrowdBegins(s, user, m, 0);
    CrowdFinishes(BeginConnect(s, m, user), user, m, 1);
  }

  lemma OneConnects(s: State, user: UserId, m: nat, rest: seq<Move>, k: nat, n: nat)
    requires Crowd(s, user, m, 0) && m < MAX_PER_USER && k >= 1
    requires Reaches(Connected(s, user, m), rest, user, k, n)
    ensures Reaches(s, [Begin(m, user), Finish(m)] + rest, user, k, n)
  {
    ConnectedCrowd(s, user, m);
    FinishReaches(BeginConnect(s, m, user), user, m, 1, rest, k, n);
    BeginReaches(s, user, m, 0, [Finish(m)] + rest, k, n);
    assert [Begin(m, user), Finish(m)] + rest == [Begin(m, user)] + ([Finish(m)] + rest);
  }

  lemma {:induction false} RushFills(s: State, user: UserId, m: nat, k: nat)
    requires Crowd(s, user, m, 0) && m < MAX_PER_USER && k >= 1
    ensures Reaches(s, Rush(user, m, k), user, k, MAX_PER_USER - 1 + k)
    decreases MAX_PER_USER - m
  {
    if m == MAX_PER_USER - 1 {
      AllBegin(s, user, m, 0, k, k);
    } else {
      ConnectedCrowd(s, user, m);
      var next, rest, n := Connected(s, user, m), Rush(user, m + 1, k), MAX_PER_USER - 1 + k;
      RushFills(next, user, m + 1, k);
      assert Reaches(next, rest, user, k, n);
      OneConnects(s, user, m, rest, k, n);
      assert Rush(user, m, k) == [Begin(m, user), Finish(m)] + rest;
    }
  }

  /** For every k the bound is reached by a run with no more than k handshakes at a time: 4 + k is exact. */
  lemma ConnectionLimitIsReached(user: UserId, k: nat)
    requires k >= 1
    ensures exists moves :: AtMostPending(EMPTY, moves, user, k) && |ListOf(Run(EMPTY, moves), user)| == MAX_PER_USER - 1 + k
  {
    assert PendingOf(EMPTY, user) == {};
    RushFills(EMPTY, user, 0, k);
    assert Reaches(EMPTY, Rush(user, 0, k), user, k, MAX_PER_USER - 1 + k);
  }

  // ── Who stays, and what is watched ─────────────────────────────────────────

  /** A socket is registered, for the user it connected as, from the end of its handshake until it leaves. */
  lemma RegisteredIff(s: State, m: Move, ws: Socket)
    ensures var next := Step(s, m);
      && (ws in next.userOf <==> (m == Finish(ws) && ws in s.pending) || (ws in s.userOf && m != Leave(ws)))
      && (ws in next.userOf && m == Finish(ws) && ws in s.pending ==> next.userOf[ws] == s.pending[ws])
      && (ws in next.userOf && !(m == Finish(ws) && ws in s.pending) ==> next.userOf[ws] == s.userOf[ws])
  {
  }

  /** It awaits its handshake from the check, if it passes, until the handshake ends, one way or the other. */
  lemma PendingIff(s: State, m: Move, ws: Socket)
    ensures var next := Step(s, m);
      var begins := m.Begin? && m.ws == ws && ws !in s.seen && |ListOf(s, m.user)| < 5;
      && (ws in next.pending <==> begins || (ws in s.pending && m != Finish(ws) && m != Abandon(ws)))
      && (ws in next.pending ==> next.pending[ws] == if begins then m.user else s.pending[ws])
  {
  }

  lemma {:induction false} StaysRegistered(s: State, moves: seq<Move>, ws: Socket)
    requires ws in s.userOf && ws in s.seen && ws !in s.pending && Leave(ws) !in moves
    ensures var end := Run(s, moves); ws in end.userOf && end.userOf[ws] == s.userOf[ws] && ws in end.seen && ws !in end.pending
    decreases moves
  {
    if moves != [] {
      RegisteredIff(s, moves[0], ws);
      StaysRegistered(Step(s, moves[0]), moves[1..], ws);
    }
  }

  /** A send to a user drops no socket but the ones it fails on: any other that no handler disconnects stays, with its user. */
  lemma {:induction false} SendEachKeeps(s: State, list: seq<Socket>, alive: Socket -> bool, others: nat -> seq<Move>, i: nat, ws: Socket)
    requires ws in s.userOf && ws in s.seen && ws !in s.pending && (alive(ws) || ws !in list)
    requires forall j: nat :: Leave(ws) !in others(j)
    ensures var end := SendEach(s, list, alive, others, i); ws in end.userOf && end.userOf[ws] == s.userOf[ws]
    decreases list
  {
    if list != [] {
      StaysRegistered(s, others(i), ws);
      var sent := Run(s, others(i));
      SendEachKeeps(if alive(list[0]) then sent else Disconnect(sent, list[0]), list[1..], alive, others, i + 1, ws);
    }
  }

  /** The same for the awaits of a broadcast, whose own drops DropEachLeaves tells. */
  lemma {:induction false} MeanwhileKeeps(s: State, others: nat -> seq<Move>, n: nat, ws: Socket)
    requires ws in s.userOf && ws in s.seen && ws !in s.pending && forall j: nat :: Leave(ws) !in others(j)
    ensures var end := Meanwhile(s, others, n); ws in end.userOf && end.userOf[ws] == s.userOf[ws] && ws in end.seen && ws !in end.pending
  {
    if n > 0 {
      MeanwhileKeeps(s, others, n - 1, ws);
      StaysRegistered(Meanwhile(s, others, n - 1), others(n - 1), ws);
    }
  }

  /** The cameras a socket asked for and has not given up since it connected, read off the moves alone. */
  function Asked(moves: seq<Move>, ws: Socket, before: set<CameraId>): set<CameraId>
    decreases moves
  {
    if moves == [] then before else Asked(moves[1..], ws, AskedOnce(moves[0], ws, before))
  }

  function AskedOnce(m: Move, ws: Socket, before: set<CameraId>): set<CameraId>
  {
    match m
    case Watch(x, camera) => if x == ws then before + {camera} else before
    case Unwatch(x, camera) => if x == ws then before - {camera} else before
    case _ => before
  }

  lemma CameraStep(s: State, m: Move, ws: Socket)
    requires ws in s.cameras && m != Leave(ws) && ws !in s.pending
    ensures var next := Step(s, m); ws in next.cameras && next.cameras[ws] == AskedOnce(m, ws, s.cameras[ws])
  {
  }

  /** As long as it stays connected, a socket's camera set is what it asked for. */
  lemma {:induction false} CamerasAreAsked(s: State, moves: seq<Move>, ws: Socket)
    requires Agree(s) && Named(moves) && ws in s.userOf && Leave(ws) !in moves
    ensures var end := Run(s, moves); ws in end.cameras && end.cameras[ws] == Asked(moves, ws, s.cameras[ws])
    decreases moves
  {
    if moves != [] {
      StepAgrees(s, moves[0]);
      RegisteredIff(s, moves[0], ws);
      CameraStep(s, moves[0], ws);
      CamerasAreAsked(Step(s, moves[0]), moves[1..], ws);
    }
  }

  /** It starts with none. */
  lemma FinishWatchesNothing(s: State, ws: Socket)
    requires ws in s.pending
    ensures var next := FinishConnect(s, ws); ws in next.cameras && next.cameras[ws] == {}
  {
  }
}
