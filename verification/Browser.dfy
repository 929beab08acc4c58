/**
 Pages sharing one refresh between all their requests that failed with 401, against the session server. Any number of
 browsers, each with any number of pages on one cookie, log in, refresh, reload and sign out; requests and answers travel
 separately, so the server may act, and a login may complete, while an answer is still under way, and a request may
 arrive after its page has given it up.
 */
module Browser {
  import opened Prelude
  import opened Sessions

  type BrowserId = nat
  type PageId = nat
  type RequestId = nat

  // ── The response interceptor ───────────────────────────────────────────────

  /** `refreshing`: the shared promise exists; `retried`: requests whose retry flag is set; `launched`: refreshes sent. */
  datatype Tab = Tab(refreshing: bool, retried: set<RequestId>, waiting: set<RequestId>, launched: nat)

  datatype Reaction = Reject | Join | Launch

  const FRESH_TAB := Tab(false, {}, {}, 0)

  /** A request answered with 401: refused for good the second time, else it awaits the one shared refresh. */
  function Intercept(tab: Tab, request: RequestId): (Tab, Reaction)
  {
    if request in tab.retried then (tab, Reject)
    else
      var marked := tab.(retried := tab.retried + {request}, waiting := tab.waiting + {request});
      if tab.refreshing then (marked, Join)
      else (marked.(refreshing := true, launched := tab.launched + 1), Launch)
  }

  /** The shared promise settles with anything but a 401: it is forgotten and every waiter goes on. */
  function Settle(tab: Tab): Tab { tab.(refreshing := false, waiting := {}) }

  class Interceptor {
    var refreshing: bool
    var retried: set<RequestId>
    var waiting: set<RequestId>
    ghost var launched: nat

    ghost function State(): Tab reads this { Tab(refreshing, retried, waiting, launched) }

    constructor ()
      ensures State() == FRESH_TAB
    {
      refreshing, retried, waiting, launched := false, {}, {}, 0;
    }

    method OnUnauthorized(request: RequestId) returns (reaction: Reaction)
      modifies this
      ensures (State(), reaction) == Intercept(old(State()), request)
    {
      if request in retried {
        return Reject;
      }
      retried := retried + {request};
      reaction := Join;
      if !refreshing {
        refreshing := true;
        launched := launched + 1;
        reaction := Launch;
      }
      waiting := waiting + {request};
    }

    method OnRefreshSettled() returns (released: set<RequestId>)
      modifies this
      ensures State() == Settle(old(State())) && released == old(waiting)
    {
      released := waiting;
      refreshing, waiting := false, {};
    }
  }

  // ── The world ──────────────────────────────────────────────────────────────

  datatype Answer = GotToken(token: Token) | Refused

  /** A refresh call on its way: the cookie it was sent with and, once the server has acted, the answer to it. */
  datatype Call = Call(cookie: Option<Token>, answer: Option<Answer>)

  datatype Page = Page(tab: Tab, calls: seq<Call>)

  /** What the pages of a browser share. `logins`: tokens of login answers that have not reached the browser yet. */
  datatype Jar = Jar(cookie: Option<Token>, logins: set<Token>)

  /** Whom the server handed a token to. */
  datatype Courier = ByPage(p: PageId) | ByLogin(b: BrowserId)

  /**
   `home`: the browser of each page. `strays`: cookies of requests on their way that their page has given up. The rest is
   history. `courier`: whom tokens were handed to. `taken`: tokens that have been a browser's cookie. `orphaned`: tokens
   spent by a refresh whose answer was lost. `raced`: tokens two pages of a browser presented at once, or one while
   another's answer with the successor was under way. `ended`: tokens revoked by an alarm. `signedOut`: tokens revoked
   otherwise, by a sign-out, a deactivation or an administrator. `astray`: a stray has been served. `alarmed`: the server
   has taken a presented token for a stolen one.
   */
  datatype World = World(
    server: Server,
    pages: map<PageId, Page>,
    jars: map<BrowserId, Jar>,
    home: map<PageId, BrowserId>,
    strays: seq<Token>,
    courier: map<Token, Courier>,
    taken: set<Token>,
    orphaned: set<Token>,
    raced: set<Token>,
    ended: set<Token>,
    signedOut: set<Token>,
    astray: bool,
    alarmed: bool)

  datatype Move =
    | Unauthorised(p: PageId, request: RequestId)
    | ServeRefresh(p: PageId, i: nat, minted: Token, now: int, committed: bool)
    | TakeAnswer(p: PageId, i: nat, cookieCleared: bool)
    | LoseCall(p: PageId, i: nat)
    | Reload(p: PageId)
    | ServeStray(i: nat, minted: Token, now: int, committed: bool)
    | ServeLogin(b: BrowserId, user: UserId, password: string, checksOk: bool, minted: Token, now: int)
    | TakeLogin(b: BrowserId, token: Token)
    | LoseLogin(b: BrowserId, token: Token)
    | ForgetCookie(b: BrowserId)
    | Elsewhere(event: Event)

  // ── Pages and cookies ──────────────────────────────────────────────────────

  function Without<T>(s: seq<T>, i: nat): seq<T>
    requires i < |s|
  {
    s[..i] + s[i + 1..]
  }

  function Receive401(page: Page, cookie: Option<Token>, request: RequestId): Page
  {
    var (tab, reaction) := Intercept(page.tab, request);
    Page(tab, if reaction == Launch then page.calls + [Call(cookie, None)] else page.calls)
  }

  /** A 401 on the refresh itself awaits the very promise it belongs to, which then never settles. */
  function ReceiveAnswer(page: Page, i: nat): Page
    requires i < |page.calls| && page.calls[i].answer.Some?
  {
    Page(if page.calls[i].answer.value.GotToken? then Settle(page.tab) else page.tab, Without(page.calls, i))
  }

  function StoreAnswer(jar: Jar, answer: Answer, cookieCleared: bool): Jar
  {
    match answer
    case GotToken(t) => jar.(cookie := Some(t))
    case Refused => if cookieCleared then jar.(cookie := None) else jar
  }

  function LoseAnswer(page: Page, i: nat): Page
    requires i < |page.calls|
  {
    Page(Settle(page.tab), Without(page.calls, i))
  }

  /** A new page: the shared promise and the calls are forgotten, the cookie stays. */
  const FRESH_PAGE := Page(FRESH_TAB, [])

  function Answered(page: Page, i: nat, reply: Reply): Page
    requires i < |page.calls|
  {
    page.(calls := page.calls[i := page.calls[i].(answer := Some(if reply.Issued? then GotToken(reply.token) else Refused))])
  }

  /** The page has a refresh on its way that presents `t`. */
  predicate Presents(page: Page, t: Token) { page.calls != [] && page.calls[0] == Call(Some(t), None) }

  /** An answer is under way to the page that brings `t`. */
  predicate Brings(page: Page, t: Token) { page.calls != [] && page.calls[0].answer == Some(GotToken(t)) }

  /** An answer is under way to the page that brings the successor of `t`. */
  predicate Supersedes(page: Page, t: Token)
  {
    page.calls != [] && page.calls[0].cookie == Some(t) && page.calls[0].answer.Some? && page.calls[0].answer.value.GotToken?
  }

  // ── Moves ──────────────────────────────────────────────────────────────────

  predicate Placed(w: World, p: PageId) { p in w.pages && p in w.home && w.home[p] in w.jars }

  /**
   Minted tokens are new to the server: a move that would repeat one does not happen. Whatever else the server handles
   happens elsewhere, a sign-out of the browser's own included, whose answer then clears the cookie.
   */
  predicate CanMove(w: World, m: Move)
  {
    match m
    case Unauthorised(p, _) => Placed(w, p)
    case ServeRefresh(p, i, minted, _, _) =>
      Placed(w, p) && i < |w.pages[p].calls| && w.pages[p].calls[i].answer.None? && minted !in w.server.sessions
    case TakeAnswer(p, i, _) => Placed(w, p) && i < |w.pages[p].calls| && w.pages[p].calls[i].answer.Some?
    case LoseCall(p, i) => Placed(w, p) && i < |w.pages[p].calls|
    case Reload(p) => Placed(w, p)
    case ServeStray(i, minted, _, _) => i < |w.strays| && minted !in w.server.sessions
    case ServeLogin(b, _, _, _, minted, _) => b in w.jars && minted !in w.server.sessions
    case TakeLogin(b, token) => b in w.jars && token in w.jars[b].logins
    case LoseLogin(b, token) => b in w.jars && token in w.jars[b].logins
    case ForgetCookie(b) => b in w.jars
    case Elsewhere(e) => !e.Login? && !e.Refresh?
  }

  function WithJar(w: World, b: BrowserId, jar: Jar): World { w.(jars := w.jars[b := jar]) }

  /** Another page of p's browser presents `t` too. */
  ghost predicate SiblingPresents(w: World, p: PageId, t: Token)
    requires p in w.home
  {
    exists q :: q in w.pages && q != p && q in w.home && w.home[q] == w.home[p] && Presents(w.pages[q], t)
  }

  /** A page of p's browser is about to receive the successor of `t`. */
  ghost predicate SiblingSupersedes(w: World, p: PageId, t: Token)
    requires p in w.home
  {
    exists q :: q in w.pages && q in w.home && w.home[q] == w.home[p] && Supersedes(w.pages[q], t)
  }

  /** Requests that may still arrive although nobody waits for them any more. */
  function StraysOf(calls: seq<Call>): seq<Token>
  {
    if calls == [] then []
    else (if calls[0].cookie.Some? && calls[0].answer.None? then [calls[0].cookie.value] else []) + StraysOf(calls[1..])
  }

  /** Tokens whose successor nobody will receive. */
  function OrphansOf(calls: seq<Call>): set<Token>
  {
    set c | c in calls && c.cookie.Some? && c.answer.Some? && c.answer.value.GotToken? :: c.cookie.value
  }

  function NewlyRevoked(s: Server, s': Server): set<Token>
  {
    set t | t in s.sessions && !s.sessions[t].revoked && t in s'.sessions && s'.sessions[t].revoked
  }

  /** The tokens put out by alarms once the server has gone from w.server to `server` on a request with this cookie. */
  function EndedBy(w: World, cookie: Option<Token>, server: Server): set<Token>
  {
    if IsReuse(w.server, cookie) then w.ended + NewlyRevoked(w.server, server) else w.ended
  }

  ghost function Ask(w: World, p: PageId, request: RequestId): World
    requires Placed(w, p)
  {
    var cookie := w.jars[w.home[p]].cookie;
    var launched := Intercept(w.pages[p].tab, request).1 == Launch;
    w.(pages := w.pages[p := Receive401(w.pages[p], cookie, request)],
       raced := if launched && cookie.Some? && SiblingSupersedes(w, p, cookie.value) then w.raced + {cookie.value} else w.raced)
  }

  ghost function ServePage(w: World, p: PageId, i: nat, minted: Token, now: int, committed: bool): World
    requires Placed(w, p) && i < |w.pages[p].calls|
  {
    var cookie := w.pages[p].calls[i].cookie;
    var (server, reply) := RefreshStep(w.server, cookie, minted, now, committed);
    w.(server := server,
       pages := w.pages[p := Answered(w.pages[p], i, reply)],
       courier := if reply.Issued? then w.courier[minted := ByPage(p)] else w.courier,
       raced := if reply.Issued? && cookie.Some? && SiblingPresents(w, p, cookie.value) then w.raced + {cookie.value} else w.raced,
       ended := EndedBy(w, cookie, server),
       alarmed := w.alarmed || IsReuse(w.server, cookie))
  }

  function Arrive(w: World, i: nat, minted: Token, now: int, committed: bool): World
    requires i < |w.strays|
  {
    var t := w.strays[i];
    var (server, reply) := RefreshStep(w.server, Some(t), minted, now, committed);
    w.(server := server,
       strays := Without(w.strays, i),
       astray := true,
       orphaned := if reply.Issued? then w.orphaned + {t} else w.orphaned,
       ended := EndedBy(w, Some(t), server),
       alarmed := w.alarmed || IsReuse(w.server, Some(t)))
  }

  function Store(w: World, p: PageId, i: nat, cookieCleared: bool): World
    requires Placed(w, p) && i < |w.pages[p].calls| && w.pages[p].calls[i].answer.Some?
  {
    var b, answer := w.home[p], w.pages[p].calls[i].answer.value;
    w.(pages := w.pages[p := ReceiveAnswer(w.pages[p], i)],
       jars := w.jars[b := StoreAnswer(w.jars[b], answer, cookieCleared)],
       taken := if answer.GotToken? then w.taken + {answer.token} else w.taken)
  }

  /** The server has issued a login token, which is on its way to the browser. */
  function LoggedIn(w: World, b: BrowserId, minted: Token, server: Server): World
    requires b in w.jars
  {
    w.(server := server,
       jars := w.jars[b := w.jars[b].(logins := w.jars[b].logins + {minted})],
       courier := w.courier[minted := ByLogin(b)])
  }

  /** A page lets go of calls: its requests may still arrive, its answers are lost. */
  function GivenUp(w: World, p: PageId, page: Page, calls: seq<Call>): World
  {
    w.(pages := w.pages[p := page], strays := w.strays + StraysOf(calls), orphaned := w.orphaned + OrphansOf(calls))
  }

  ghost function Step(w: World, m: Move): World
  {
    if !CanMove(w, m) then w
    else
      match m
      case Unauthorised(p, request) => Ask(w, p, request)
      case ServeRefresh(p, i, minted, now, committed) => ServePage(w, p, i, minted, now, committed)
      case TakeAnswer(p, i, cookieCleared) => Store(w, p, i, cookieCleared)
      case LoseCall(p, i) => GivenUp(w, p, LoseAnswer(w.pages[p], i), [w.pages[p].calls[i]])
      case Reload(p) => GivenUp(w, p, FRESH_PAGE, w.pages[p].calls)
      case ServeStray(i, minted, now, committed) => Arrive(w, i, minted, now, committed)
      case ServeLogin(b, user, password, checksOk, minted, now) =>
        var (server, reply) := LoginStep(w.server, user, password, checksOk, minted, now);
        if reply.Issued? then LoggedIn(w, b, minted, server) else w
      case TakeLogin(b, token) => w.(jars := w.jars[b := Jar(Some(token), w.jars[b].logins - {token})], taken := w.taken + {token})
      case LoseLogin(b, token) => WithJar(w, b, w.jars[b].(logins := w.jars[b].logins - {token}))
      case ForgetCookie(b) => WithJar(w, b, w.jars[b].(cookie := None))
      case Elsewhere(e) => w.(server := Next(w.server, e), signedOut := w.signedOut + NewlyRevoked(w.server, Next(w.server, e)))
  }

  ghost function Play(w: World, moves: seq<Move>): World
    decreases moves
  {
    if moves == [] then w else Play(Step(w, moves[0]), moves[1..])
  }

  /** Any number of pages in any number of browsers, none of which has done anything yet. */
  function Opening(users: map<UserId, User>, home: map<PageId, BrowserId>): World
  {
    World(Boot(users), map p | p in home :: FRESH_PAGE, map b | b in home.Values :: Jar(None, {}), home,
      [], map[], {}, {}, {}, {}, {}, false, false)
  }

  // ── Single flight ──────────────────────────────────────────────────────────

  /** At most one refresh call exists, only under the shared promise; only it has waiters; each was paid for by a request. */
  ghost predicate SingleFlight(page: Page)
  {
    && |page.calls| <= 1
    && (page.calls != [] ==> page.tab.refreshing)
    && (page.tab.waiting != {} ==> page.tab.refreshing)
    && page.tab.waiting <= page.tab.retried
    && page.tab.launched <= |page.tab.retried|
  }

  ghost predicate AllSingleFlight(w: World)
  {
    forall p | p in w.pages :: SingleFlight(w.pages[p])
  }

  lemma Receive401SingleFlight(page: Page, cookie: Option<Token>, request: RequestId)
    requires SingleFlight(page)
    ensures SingleFlight(Receive401(page, cookie, request))
  {
    if request !in page.tab.retried {
      assert |page.tab.retried + {request}| == |page.tab.retried| + 1;
    }
  }

  /** The page a move concerns, and what becomes of it. */
  function PageOf(m: Move): Option<PageId>
  {
    if m.Unauthorised? || m.ServeRefresh? || m.TakeAnswer? || m.LoseCall? || m.Reload? then Some(m.p) else None
  }

  function PageAfter(w: World, m: Move): Page
    requires CanMove(w, m) && PageOf(m).Some?
  {
    match m
    case Unauthorised(p, request) => Receive401(w.pages[p], w.jars[w.home[p]].cookie, request)
    case ServeRefresh(p, i, minted, now, committed) =>
      Answered(w.pages[p], i, RefreshStep(w.server, w.pages[p].calls[i].cookie, minted, now, committed).1)
    case TakeAnswer(p, i, _) => ReceiveAnswer(w.pages[p], i)
    case LoseCall(p, i) => LoseAnswer(w.pages[p], i)
    case _ => FRESH_PAGE
  }

  lemma StepPages(w: World, m: Move)
    ensures Step(w, m).pages == if CanMove(w, m) && PageOf(m).Some? then w.pages[m.p := PageAfter(w, m)] else w.pages
    ensures Step(w, m).home == w.home
  {
  }

  lemma PageAfterSingleFlight(w: World, m: Move)
    requires CanMove(w, m) && PageOf(m).Some? && SingleFlight(w.pages[m.p])
    ensures SingleFlight(PageAfter(w, m))
  {
    if m.Unauthorised? {
      Receive401SingleFlight(w.pages[m.p], w.jars[w.home[m.p]].cookie, m.request);
    }
  }

  lemma StepKeepsSingleFlight(w: World, m: Move)
    requires AllSingleFlight(w)
    ensures AllSingleFlight(Step(w, m))
  {
    StepPages(w, m);
    if CanMove(w, m) && PageOf(m).Some? {
      PageAfterSingleFlight(w, m);
    }
  }

  lemma {:induction false} PlayKeepsSingleFlight(w: World, moves: seq<Move>)
    requires AllSingleFlight(w)
    ensures AllSingleFlight(Play(w, moves))
    decreases moves
  {
    if moves != [] {
      StepKeepsSingleFlight(w, moves[0]);
      PlayKeepsSingleFlight(Step(w, moves[0]), moves[1..]);
    }
  }

  /** In every run, whatever is lost, reloaded or signed out, no page ever has two refreshes under way, nor more refreshes than requests. */
  lemma AtMostOneRefreshInFlight(users: map<UserId, User>, home: map<PageId, BrowserId>, moves: seq<Move>)
    ensures AllSingleFlight(Play(Opening(users, home), moves))
  {
    PlayKeepsSingleFlight(Opening(users, home), moves);
  }

  // ── Stuck pages ────────────────────────────────────────────────────────────

  /** A page that believes in a refresh that no longer exists. */
  predicate Stuck(page: Page) { page.tab.refreshing && page.calls == [] }

  /** The move brings page p the refusal of its refresh. */
  predicate BringsRefusal(w: World, m: Move, p: PageId)
  {
    CanMove(w, m) && m.TakeAnswer? && m.p == p && w.pages[p].calls[m.i].answer == Some(Refused)
  }

  /** Page p has taken a refusal in these moves, or had before, and has not been reloaded since. */
  ghost predicate RefusedSince(w: World, moves: seq<Move>, p: PageId, before: bool)
    decreases moves
  {
    if moves == [] then before
    else RefusedSince(Step(w, moves[0]), moves[1..], p, moves[0] != Reload(p) && (before || BringsRefusal(w, moves[0], p)))
  }

  lemma PageAfterSticks(w: World, m: Move)
    requires CanMove(w, m) && PageOf(m).Some? && SingleFlight(w.pages[m.p])
    ensures Stuck(PageAfter(w, m)) <==> !m.Reload? && (Stuck(w.pages[m.p]) || BringsRefusal(w, m, m.p))
  {
  }

  lemma StepSticks(w: World, m: Move, p: PageId)
    requires AllSingleFlight(w) && Placed(w, p)
    ensures p in Step(w, m).pages
    ensures Stuck(Step(w, m).pages[p]) <==> m != Reload(p) && (Stuck(w.pages[p]) || BringsRefusal(w, m, p))
  {
    StepPages(w, m);
    if CanMove(w, m) && PageOf(m) == Some(p) {
      PageAfterSticks(w, m);
    }
  }

  lemma StepPlaced(w: World, m: Move, p: PageId)
    requires Placed(w, p)
    ensures Placed(Step(w, m), p)
  {
    StepPages(w, m);
  }

  lemma {:induction false} PlaySticks(w: World, moves: seq<Move>, p: PageId)
    requires AllSingleFlight(w) && Placed(w, p)
    ensures Placed(Play(w, moves), p)
    ensures Stuck(Play(w, moves).pages[p]) <==> RefusedSince(w, moves, p, Stuck(w.pages[p]))
    decreases moves
  {
    if moves != [] {
      StepSticks(w, moves[0], p);
      StepPlaced(w, moves[0], p);
      StepKeepsSingleFlight(w, moves[0]);
      PlaySticks(Step(w, moves[0]), moves[1..], p);
    }
  }

  /** In every run a page is stuck if and only if its refresh was refused since it was last loaded. */
  lemma StuckIffRefused(users: map<UserId, User>, home: map<PageId, BrowserId>, moves: seq<Move>, p: PageId)
    requires p in home
    ensures p in Play(Opening(users, home), moves).pages
    ensures Stuck(Play(Opening(users, home), moves).pages[p]) <==> RefusedSince(Opening(users, home), moves, p, false)
  {
    PlaySticks(Opening(users, home), moves, p);
  }

  lemma {:induction false} StaysRefused(w: World, moves: seq<Move>, p: PageId)
    requires Reload(p) !in moves
    ensures RefusedSince(w, moves, p, true)
    decreases moves
  {
    if moves != [] {
      StaysRefused(Step(w, moves[0]), moves[1..], p);
    }
  }

  /** So a page whose refresh was refused stays stuck, whatever happens, until it is reloaded, and sends no other. */
  lemma RefusalSticksUntilReload(users: map<UserId, User>, home: map<PageId, BrowserId>, before: seq<Move>, m: Move, moves: seq<Move>, request: RequestId)
    requires m.TakeAnswer? && BringsRefusal(Play(Opening(users, home), before), m, m.p) && Reload(m.p) !in moves
    ensures var later := Play(Step(Play(Opening(users, home), before), m), moves);
      && Placed(later, m.p) && Stuck(later.pages[m.p])
      && Receive401(later.pages[m.p], later.jars[later.home[m.p]].cookie, request).calls == []
  {
    var w := Play(Opening(users, home), before);
    PlayKeepsSingleFlight(Opening(users, home), before);
    StepSticks(w, m, m.p);
    StepPlaced(w, m, m.p);
    StepKeepsSingleFlight(w, m);
    PlaySticks(Step(w, m), moves, m.p);
    StaysRefused(Step(w, m), moves, m.p);
  }

  // ── What moves, and what does not ──────────────────────────────────────────

  /** How many times a page takes up a request that was answered with 401, rather than reject it. */
  ghost function TakenUp(w: World, moves: seq<Move>, p: PageId, request: RequestId): nat
    decreases moves
  {
    if moves == [] then 0
    else
      (if moves[0] == Unauthorised(p, request) && Placed(w, p) && Intercept(w.pages[p].tab, request).1 != Reject then 1 else 0)
      + TakenUp(Step(w, moves[0]), moves[1..], p, request)
  }

  lemma RetriedAfter(w: World, m: Move, p: PageId, request: RequestId)
    requires Placed(w, p) && m != Reload(p)
    ensures p in Step(w, m).pages
    ensures request in Step(w, m).pages[p].tab.retried <==> request in w.pages[p].tab.retried || m == Unauthorised(p, request)
  {
    StepPages(w, m);
  }

  /** Between reloads a page takes up a request exactly once, the first time, however often it fails. */
  lemma {:induction false} TakenUpOnce(w: World, moves: seq<Move>, p: PageId, request: RequestId)
    requires Placed(w, p) && Reload(p) !in moves
    ensures TakenUp(w, moves, p, request) == if request !in w.pages[p].tab.retried && Unauthorised(p, request) in moves then 1 else 0
    decreases moves
  {
    if moves != [] {
      RetriedAfter(w, moves[0], p, request);
      StepPlaced(w, moves[0], p);
      TakenUpOnce(Step(w, moves[0]), moves[1..], p, request);
      assert moves == [moves[0]] + moves[1..];
    }
  }

  /** The move ends page p's shared refresh: its answer, its loss, or a new page. */
  predicate Settles(w: World, m: Move, p: PageId)
  {
    && CanMove(w, m)
    && (m == Reload(p) || (m.LoseCall? && m.p == p) || (m.TakeAnswer? && m.p == p && w.pages[p].calls[m.i].answer.value.GotToken?))
  }

  /** A request waits from the moment its page takes it up until the shared refresh settles. */
  lemma WaitsUntilSettled(w: World, m: Move, p: PageId, request: RequestId)
    requires Placed(w, p)
    ensures p in Step(w, m).pages
    ensures request in Step(w, m).pages[p].tab.waiting <==>
      (m == Unauthorised(p, request) && request !in w.pages[p].tab.retried) || (request in w.pages[p].tab.waiting && !Settles(w, m, p))
  {
    StepPages(w, m);
  }

  /** A login token is on its way from its issue until the browser takes it or it is lost. */
  lemma LoginsAfter(w: World, m: Move, b: BrowserId, t: Token)
    requires b in w.jars && t in w.server.sessions
    ensures b in Step(w, m).jars
    ensures t in Step(w, m).jars[b].logins <==> t in w.jars[b].logins && m != TakeLogin(b, t) && m != LoseLogin(b, t)
  {
  }

  /** A browser's cookie changes only by an answer or a login it takes, or by being forgotten. */
  lemma CookieAfter(w: World, m: Move, b: BrowserId)
    requires b in w.jars
    ensures var next := Step(w, m);
      && b in next.jars
      && next.jars[b].cookie ==
           if !CanMove(w, m) then w.jars[b].cookie
           else match m
             case TakeAnswer(p, i, cookieCleared) =>
               if w.home[p] != b then w.jars[b].cookie
               else (match w.pages[p].calls[i].answer.value
                     case GotToken(t) => Some(t)
                     case Refused => if cookieCleared then None else w.jars[b].cookie)
             case TakeLogin(c, token) => if c == b then Some(token) else w.jars[b].cookie
             case ForgetCookie(c) => if c == b then None else w.jars[b].cookie
             case _ => w.jars[b].cookie
  {
  }

  /** A request becomes a stray when its page gives it up unanswered, and is one until the server gets it. */
  lemma StraysAfter(w: World, m: Move)
    requires AllSingleFlight(w)
    ensures var next := Step(w, m);
      next.strays ==
        if CanMove(w, m) && m.ServeStray? then Without(w.strays, m.i)
        else if CanMove(w, m) && (m.LoseCall? || m.Reload?) && w.pages[m.p].calls != []
          && w.pages[m.p].calls[0].cookie.Some? && w.pages[m.p].calls[0].answer.None?
        then w.strays + [w.pages[m.p].calls[0].cookie.value]
        else w.strays
  {
    if CanMove(w, m) && (m.LoseCall? || m.Reload?) {
      var calls := w.pages[m.p].calls;
      assert SingleFlight(w.pages[m.p]);
      if calls != [] {
        assert calls == [calls[0]] && StraysOf(calls[1..]) == [];
      }
    }
  }

  /** What the server handles elsewhere it handles as ever, and no page or cookie knows. */
  lemma ElsewhereIs(w: World, e: Event)
    requires CanMove(w, Elsewhere(e))
    ensures var next := Step(w, Elsewhere(e));
      next.server == Next(w.server, e) && next.pages == w.pages && next.jars == w.jars && next.strays == w.strays
  {
  }
}
