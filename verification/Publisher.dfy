/**
 The alert publisher: a bounded buffer in front of a channel that comes and goes. Events are known by their
 submission number. The outcomes of connecting and publishing are inputs of each call.
 */
module Publisher {
  import opened Prelude

  type Event = nat

  const MAX_BUFFER := 100

  /** `published`, `evicted` and `lost` are history: what the channel took, what the bound pushed out, what a failing drain had in hand. */
  datatype State = State(
    connected: bool,
    buffer: seq<Event>,
    submitted: nat,
    published: seq<Event>,
    evicted: seq<Event>,
    lost: seq<Event>)

  /** One call's luck: the first connect, how many channel writes succeed before one fails, the connect after a failure. */
  datatype Luck = Luck(connects: bool, writes: nat, reconnects: bool)

  function Buffered(s: State, e: Event): State
  {
    if |s.buffer| < MAX_BUFFER then s.(buffer := s.buffer + [e])
    else s.(buffer := s.buffer[1..] + [e], evicted := s.evicted + [s.buffer[0]])
  }

  /** Draining: as many buffered events go out as writes succeed; the one whose write fails is gone. */
  function Drained(s: State, writes: nat): State
  {
    if writes >= |s.buffer| then s.(buffer := [], published := s.published + s.buffer)
    else s.(buffer := s.buffer[writes + 1..], published := s.published + s.buffer[..writes], lost := s.lost + [s.buffer[writes]])
  }

  function Sent(s: State, e: Event, luck: Luck): State
  {
    var drained := Drained(s, luck.writes);
    if luck.writes > |s.buffer| then drained.(published := drained.published + [e])
    else Buffered(drained, e).(connected := luck.reconnects)
  }

  /** A call that finds the channel down buffers its event first. */
  function Waiting(s: State, luck: Luck): State
  {
    Buffered(s.(submitted := s.submitted + 1), s.submitted).(connected := luck.connects)
  }

  function Published(s: State, luck: Luck): State
  {
    var e := s.submitted;
    var noted := s.(submitted := e + 1);
    if s.connected then Sent(noted, e, luck)
    else if luck.connects then Sent(Waiting(s, luck), e, luck)
    else Waiting(s, luck)
  }

  /** A failed ping drops the connection; a ping never makes one. */
  function Pinged(s: State, answers: bool): State { s.(connected := s.connected && answers) }

  class RedisPublisher {
    var connected: bool
    var buffer: seq<Event>
    ghost var submitted: nat
    ghost var published: seq<Event>
    ghost var evicted: seq<Event>
    ghost var lost: seq<Event>

    ghost function View(): State reads this { State(connected, buffer, submitted, published, evicted, lost) }

    constructor (connects: bool)
      ensures View() == State(connects, [], 0, [], [], [])
    {
      connected, buffer, submitted, published, evicted, lost := connects, [], 0, [], [], [];
    }

    method Buffer(e: Event)
      modifies this`buffer, this`evicted
      ensures View() == Buffered(old(View()), e)
    {
      if |buffer| >= MAX_BUFFER {
        evicted := evicted + [buffer[0]];
        buffer := buffer[1..];
      }
      buffer := buffer + [e];
    }

    /** The drain loop: `writes` is how many channel writes will succeed; `left` how many of them remain afterwards. */
    method Drain(writes: nat) returns (failed: bool, left: nat)
      modifies this`buffer, this`published, this`lost
      ensures View() == Drained(old(View()), writes)
      ensures failed == (writes < |old(buffer)|) && left == Max(0, writes - |old(buffer)|)
    {
      ghost var start := View();
      failed, left := false, writes;
      while buffer != [] && !failed
        invariant left <= writes && writes - left <= |start.buffer|
        invariant !failed ==> View() == start.(buffer := start.buffer[writes - left..], published := start.published + start.buffer[..writes - left])
        invariant failed ==> writes < |start.buffer| && left == 0 && View() == Drained(start, writes)
        decreases |buffer|
      {
        var first := buffer[0];
        buffer := buffer[1..];
        if left == 0 {
          failed := true;
          lost := lost + [first];
        } else {
          left := left - 1;
          published := published + [first];
        }
      }
      if !failed {
        assert start.buffer[..writes - left] == start.buffer;
      }
    }

    method Publish(e: Event, luck: Luck)
      requires e == submitted
      modifies this
      ensures View() == Published(old(View()), luck)
    {
      submitted := submitted + 1;
      if !connected {
        Buffer(e);
        connected := luck.connects;
        if !connected {
          return;
        }
      }
      var failed, left := Drain(luck.writes);
      if !failed && left > 0 {
        published := published + [e];
      } else {
        Buffer(e);
        connected := luck.reconnects;
      }
    }

    method IsConnected(answers: bool) returns (up: bool)
      modifies this`connected
      ensures View() == Pinged(old(View()), answers) && up == connected
    {
      if !connected {
        return false;
      }
      connected := answers;
      return answers;
    }
  }

  // ── What a call sends, and how it leaves the channel ───────────────────────

  /** The buffer a call starts its sends with: a channel that was down has put the event in already. */
  function LineBefore(s: State): seq<Event>
  {
    if s.connected then s.buffer
    else if |s.buffer| < MAX_BUFFER then s.buffer + [s.submitted]
    else s.buffer[1..] + [s.submitted]
  }

  /** What is sent, kept and lost when a line of events, the call's own last, meets so many good writes. */
  ghost predicate LineSent(s: State, next: State, line: seq<Event>, w: nat)
    requires line != []
  {
    && next.published == s.published + line[..Min(w, |line|)]
    && next.buffer == (if w >= |line| then [] else if w == |line| - 1 then [line[w]] else line[w + 1..])
    && next.lost == s.lost + (if w < |line| - 1 then [line[w]] else [])
  }

  lemma SentSends(s: State, e: Event, luck: Luck)
    requires |s.buffer| <= MAX_BUFFER
    ensures LineSent(s, Sent(s, e, luck), s.buffer + [e], luck.writes)
  {
    var line, w := s.buffer + [e], luck.writes;
    if w < |s.buffer| {
      assert line[..w] == s.buffer[..w];
      assert line[w + 1..] == s.buffer[w + 1..] + [e];
    } else if w == |s.buffer| {
      assert line[..w] == s.buffer;
    } else {
      assert line[..|line|] == line;
    }
  }

  /**
   With a channel, a call sends the buffer and then its event as far as writes succeed; the one whose write fails is lost if
   it was buffered and kept if it is the call's own; what comes after it is kept, the call's event last.
   */
  lemma CallSends(s: State, luck: Luck)
    requires |s.buffer| <= MAX_BUFFER
    ensures var next := Published(s, luck);
      && next.submitted == s.submitted + 1
      && (!s.connected && !luck.connects ==> next.published == s.published && next.buffer == LineBefore(s) && next.lost == s.lost)
      && (s.connected || luck.connects ==> LineSent(s, next, LineBefore(s) + [s.submitted], luck.writes))
  {
    if s.connected {
      SentSends(s.(submitted := s.submitted + 1), s.submitted, luck);
    } else if luck.connects {
      SentSends(Waiting(s, luck), s.submitted, luck);
    }
  }

  /** A call leaves the channel up exactly if there was one to try and either every write went through or it came back at once. */
  lemma CallConnectedIff(s: State, luck: Luck)
    requires |s.buffer| <= MAX_BUFFER
    ensures Published(s, luck).connected <==> (s.connected || luck.connects) && (luck.writes > |LineBefore(s)| || luck.reconnects)
  {
  }

  /** A ping leaves it up exactly if it was and the ping is answered, and changes nothing else. */
  lemma PingConnectedIff(s: State, answers: bool)
    ensures (Pinged(s, answers).connected <==> s.connected && answers) && Pinged(s, answers) == s.(connected := Pinged(s, answers).connected)
  {
  }

  // ── Runs ───────────────────────────────────────────────────────────────────

  datatype Action = Submit(luck: Luck) | Ping(answers: bool)

  function Next(s: State, a: Action): State
  {
    match a
    case Submit(luck) => Published(s, luck)
    case Ping(answers) => Pinged(s, answers)
  }

  function Run(s: State, actions: seq<Action>): State
    decreases actions
  {
    if actions == [] then s else Run(Next(s, actions[0]), actions[1..])
  }

  function Start(connects: bool): State { State(connects, [], 0, [], [], []) }

  // ── Conservation ───────────────────────────────────────────────────────────

  function Count(s: seq<Event>, x: Event): nat
  {
    if s == [] then 0 else Count(s[1..], x) + if s[0] == x then 1 else 0
  }

  lemma {:induction false} CountConcat(a: seq<Event>, b: seq<Event>, x: Event)
    ensures Count(a + b, x) == Count(a, x) + Count(b, x)
  {
    if a == [] {
      assert a + b == b;
    } else {
      assert (a + b)[1..] == a[1..] + b;
      CountConcat(a[1..], b, x);
    }
  }

  lemma {:induction false} CountMembers(s: seq<Event>, x: Event)
    ensures Count(s, x) > 0 <==> x in s
  {
    if s != [] {
      CountMembers(s[1..], x);
      assert s == [s[0]] + s[1..];
    }
  }

  /** The copies of an event, wherever they went. */
  function Copies(s: State, x: Event): nat
  {
    Count(s.published, x) + Count(s.buffer, x) + Count(s.evicted, x) + Count(s.lost, x)
  }

  function One(x: Event, e: Event): nat { if x == e then 1 else 0 }

  lemma BufferedCopies(s: State, e: Event, x: Event)
    ensures Copies(Buffered(s, e), x) == Copies(s, x) + One(x, e)
  {
    if |s.buffer| < MAX_BUFFER {
      CountConcat(s.buffer, [e], x);
    } else {
      CountConcat(s.buffer[1..], [e], x);
      CountConcat(s.evicted, [s.buffer[0]], x);
    }
  }

  lemma DrainedCopies(s: State, writes: nat, x: Event)
    ensures Copies(Drained(s, writes), x) == Copies(s, x)
  {
    if writes < |s.buffer| {
      var head, rest := s.buffer[..writes], s.buffer[writes + 1..];
      assert s.buffer == head + ([s.buffer[writes]] + rest);
      CountConcat(head, [s.buffer[writes]] + rest, x);
      CountConcat([s.buffer[writes]], rest, x);
      CountConcat(s.published, head, x);
      CountConcat(s.lost, [s.buffer[writes]], x);
    } else {
      CountConcat(s.published, s.buffer, x);
    }
  }

  lemma SentCopies(s: State, e: Event, luck: Luck, x: Event)
    ensures Copies(Sent(s, e, luck), x) == Copies(s, x) + One(x, e)
  {
    var drained := Drained(s, luck.writes);
    DrainedCopies(s, luck.writes, x);
    BufferedCopies(drained, e, x);
    CountConcat(drained.published, [e], x);
  }

  lemma ConnectionKeepsCopies(s: State, connected: bool, submitted: nat, x: Event)
    ensures Copies(s.(connected := connected, submitted := submitted), x) == Copies(s, x)
  {
  }

  lemma WaitingCopies(s: State, luck: Luck, x: Event)
    ensures Copies(Waiting(s, luck), x) == Copies(s, x) + One(x, s.submitted)
  {
    var noted := s.(submitted := s.submitted + 1);
    BufferedCopies(noted, s.submitted, x);
    ConnectionKeepsCopies(s, s.connected, s.submitted + 1, x);
    ConnectionKeepsCopies(Buffered(noted, s.submitted), luck.connects, noted.submitted, x);
  }

  /** One call adds one copy of its event, or two when it finds the channel down and brings it up; no other count changes. */
  lemma CallCopies(s: State, luck: Luck, x: Event)
    ensures Copies(Published(s, luck), x) == Copies(s, x) + (if x != s.submitted then 0 else if !s.connected && luck.connects then 2 else 1)
  {
    if s.connected {
      ConnectionKeepsCopies(s, s.connected, s.submitted + 1, x);
      SentCopies(s.(submitted := s.submitted + 1), s.submitted, luck, x);
    } else {
      WaitingCopies(s, luck, x);
      SentCopies(Waiting(s, luck), s.submitted, luck, x);
    }
  }

  /** The price of one call: at most one event lost, in a drain cut short, and at most one evicted, the oldest, by a full buffer of a channel that was down. */
  lemma CallLosses(s: State, luck: Luck)
    requires |s.buffer| <= MAX_BUFFER
    ensures var next, waiting := Published(s, luck), if s.connected then |s.buffer| else Min(|s.buffer| + 1, MAX_BUFFER);
      && |next.buffer| <= MAX_BUFFER
      && next.evicted == s.evicted + (if !s.connected && |s.buffer| == MAX_BUFFER then [s.buffer[0]] else [])
      && |next.lost| == |s.lost| + (if (s.connected || luck.connects) && luck.writes < waiting then 1 else 0)
      && ((s.connected || luck.connects) && luck.writes > waiting ==> next.buffer == [] && next.connected)
  {
  }

  /** Every submitted event is accounted for once, or twice if it was buffered and then also sent. */
  ghost predicate Accounted(s: State)
  {
    && |s.buffer| <= MAX_BUFFER
    && forall e: Event :: if e < s.submitted then 1 <= Copies(s, e) <= 2 else Copies(s, e) == 0
  }

  lemma {:induction false} EverythingIsAccounted(s: State, actions: seq<Action>)
    requires Accounted(s)
    ensures Accounted(Run(s, actions))
    decreases actions
  {
    if actions != [] {
      var next := Next(s, actions[0]);
      forall e: Event ensures if e < next.submitted then 1 <= Copies(next, e) <= 2 else Copies(next, e) == 0 {
        if actions[0].Submit? {
          CallCopies(s, actions[0].luck, e);
        } else {
          assert Copies(next, e) == Copies(s, e);
        }
      }
      if actions[0].Submit? {
        CallLosses(s, actions[0].luck);
      }
      EverythingIsAccounted(next, actions[1..]);
    }
  }

  /** The call that submits event x finds the channel down and brings it up at once. */
  predicate Doubled(s: State, actions: seq<Action>, x: Event)
    decreases actions
  {
    actions != [] &&
    if actions[0].Submit? && s.submitted == x then !s.connected && actions[0].luck.connects
    else Doubled(Next(s, actions[0]), actions[1..], x)
  }

  lemma {:induction false} SubmittedGrows(s: State, actions: seq<Action>)
    ensures s.submitted <= Run(s, actions).submitted
    decreases actions
  {
    if actions != [] {
      SubmittedGrows(Next(s, actions[0]), actions[1..]);
    }
  }

  /** Over a run an event's copies change only in the call that submits it: by two if that call is doubled, else by one. */
  lemma {:induction false} CopiesOverRun(s: State, actions: seq<Action>, x: Event)
    ensures var end := Run(s, actions);
      Copies(end, x) == Copies(s, x) + (if s.submitted <= x < end.submitted then if Doubled(s, actions, x) then 2 else 1 else 0)
    decreases actions
  {
    if actions != [] {
      var next := Next(s, actions[0]);
      if actions[0].Submit? {
        CallCopies(s, actions[0].luck, x);
      } else {
        assert Copies(next, x) == Copies(s, x);
      }
      CopiesOverRun(next, actions[1..], x);
      SubmittedGrows(next, actions[1..]);
    }
  }

  /**
   Conservation: after any run each submitted event was published, waits, was evicted or was lost in a drain. It has two
   copies exactly when the call that submitted it found the channel down and brought it up, else one.
   */
  lemma NothingVanishes(connects: bool, actions: seq<Action>, e: Event)
    ensures var s := Run(Start(connects), actions);
      && |s.buffer| <= MAX_BUFFER
      && (e < s.submitted <==> e in s.published || e in s.buffer || e in s.evicted || e in s.lost)
      && Count(s.published, e) + Count(s.buffer, e) + Count(s.evicted, e) + Count(s.lost, e)
         == if e >= s.submitted then 0 else if Doubled(Start(connects), actions, e) then 2 else 1
  {
    assert forall x: Event :: Copies(Start(connects), x) == 0;
    EverythingIsAccounted(Start(connects), actions);
    CopiesOverRun(Start(connects), actions, e);
    var s := Run(Start(connects), actions);
    CountMembers(s.published, e);
    CountMembers(s.buffer, e);
    CountMembers(s.evicted, e);
    CountMembers(s.lost, e);
  }

  // ── Order ──────────────────────────────────────────────────────────────────

  ghost predicate Ordered(s: seq<Event>) { forall i, j | 0 <= i < j < |s| :: s[i] <= s[j] }

  /** What has gone out, followed by what waits, is in submission order. */
  ghost predicate InOrder(s: State)
  {
    Ordered(s.published + s.buffer) && forall i | 0 <= i < |s.published + s.buffer| :: (s.published + s.buffer)[i] < s.submitted
  }

  ghost predicate UpTo(s: seq<Event>, e: Event) { forall i | 0 <= i < |s| :: s[i] <= e }

  lemma WithoutOne(line: seq<Event>, k: nat, e: Event)
    requires Ordered(line) && UpTo(line, e) && k < |line|
    ensures Ordered(line[..k] + line[k + 1..]) && UpTo(line[..k] + line[k + 1..], e)
  {
  }

  lemma BufferedOrder(s: State, e: Event)
    requires Ordered(s.published + s.buffer) && UpTo(s.published + s.buffer, e)
    ensures var next := Buffered(s, e); Ordered(next.published + next.buffer) && UpTo(next.published + next.buffer, e)
  {
    var line, next, p := s.published + s.buffer, Buffered(s, e), |s.published|;
    if |s.buffer| < MAX_BUFFER {
      assert next.published + next.buffer == line + [e];
    } else {
      WithoutOne(line, p, e);
      assert next.published + next.buffer == line[..p] + line[p + 1..] + [e];
    }
  }

  lemma SentOrder(s: State, e: Event, luck: Luck)
    requires Ordered(s.published + s.buffer) && UpTo(s.published + s.buffer, e)
    ensures var next := Sent(s, e, luck); Ordered(next.published + next.buffer) && UpTo(next.published + next.buffer, e)
  {
    var line, next, cut := s.published + s.buffer, Sent(s, e, luck), |s.published| + luck.writes;
    if luck.writes > |s.buffer| {
      assert next.published + next.buffer == line + [e];
    } else {
      var drained := Drained(s, luck.writes);
      if luck.writes < |s.buffer| {
        WithoutOne(line, cut, e);
        assert drained.published + drained.buffer == line[..cut] + line[cut + 1..];
      } else {
        assert drained.published + drained.buffer == line;
      }
      BufferedOrder(drained, e);
    }
  }

  lemma CallKeepsOrder(s: State, luck: Luck)
    requires InOrder(s)
    ensures InOrder(Published(s, luck))
  {
    var noted := s.(submitted := s.submitted + 1);
    if s.connected {
      SentOrder(noted, s.submitted, luck);
    } else {
      BufferedOrder(noted, s.submitted);
      SentOrder(Waiting(s, luck), s.submitted, luck);
    }
  }

  lemma {:induction false} RunKeepsOrder(s: State, actions: seq<Action>)
    requires InOrder(s)
    ensures InOrder(Run(s, actions))
    decreases actions
  {
    if actions != [] {
      if actions[0].Submit? {
        CallKeepsOrder(s, actions[0].luck);
      }
      RunKeepsOrder(Next(s, actions[0]), actions[1..]);
    }
  }

  /** In every run the channel sees events in submission order, and what is still buffered comes after all of them. */
  lemma PublishedInOrder(connects: bool, actions: seq<Action>)
    ensures var s := Run(Start(connects), actions); Ordered(s.published + s.buffer)
  {
    RunKeepsOrder(Start(connects), actions);
  }

  ghost predicate NeverDrops(a: Action) { match a case Submit(luck) => luck.writes >= 1 case Ping(answers) => answers }

  /** While the connection holds, every event goes out at once, exactly once. */
  lemma {:induction false} ExactlyOnceWhileConnected(s: State, actions: seq<Action>)
    requires s.connected && s.buffer == [] && s.published == seq(s.submitted, i => i)
    requires forall a | a in actions :: NeverDrops(a)
    ensures var end := Run(s, actions);
      end.connected && end.buffer == [] && end.published == seq(end.submitted, i => i) && end.evicted == s.evicted && end.lost == s.lost
    decreases actions
  {
    if actions != [] {
      assert NeverDrops(actions[0]);
      ExactlyOnceWhileConnected(Next(s, actions[0]), actions[1..]);
    }
  }

  /** Without that, once is too much to ask: an event buffered by the call that reconnects is sent twice. */
  lemma ReconnectSendsTwice(s: State, luck: Luck)
    requires !s.connected && luck.connects && luck.writes > |s.buffer| + 1 && |s.buffer| < MAX_BUFFER
    ensures Published(s, luck).published == s.published + s.buffer + [s.submitted, s.submitted]
  {
  }
}
