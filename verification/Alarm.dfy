/**
 When the session server takes an honest page for a thief. What pages and browsers hold is tracked through every move of
 the world, which gives the exact condition for the alarm after any run, and runs that meet it.
 */
module Alarm {
  import opened Prelude
  import opened Sessions
  import opened Browser

  // ── Which tokens are revoked ───────────────────────────────────────────────

  function SpentTokens(rotations: seq<Rotation>): set<Token> { set r | r in rotations :: r.spent }

  function Spent(w: World): set<Token> { SpentTokens(w.server.rotations) }

  lemma SpentAppend(rotations: seq<Rotation>, r: Rotation)
    ensures SpentTokens(rotations + [r]) == SpentTokens(rotations) + {r.spent}
  {
    assert forall q | q in rotations :: q in rotations + [r];
    assert r in rotations + [r];
    forall q | q in rotations + [r] ensures q in rotations || q == r {
    }
  }

  /** Tokens revoked without being spent. */
  function Out(w: World): set<Token> { w.ended + w.signedOut }

  /** A token is revoked when it has been spent or is out, and in no other way. */
  ghost predicate Marked(server: Server, out: set<Token>)
  {
    forall t :: t in SpentTokens(server.rotations) || t in out <==> t in server.sessions && server.sessions[t].revoked
  }

  /** What happens elsewhere adds no row and no rotation; it can only put tokens out. */
  lemma ElsewhereMarks(server: Server, e: Event, out: set<Token>)
    requires Marked(server, out) && !e.Login? && !e.Refresh?
    ensures var next := Next(server, e);
      Marked(next, out + NewlyRevoked(server, next)) && next.sessions.Keys == server.sessions.Keys && next.rotations == server.rotations
  {
    StepExtends(server, e);
    var next := Next(server, e);
    forall t ensures t in SpentTokens(next.rotations) || t in out + NewlyRevoked(server, next) <==> t in next.sessions && next.sessions[t].revoked {
      assert t in server.sessions && server.sessions[t].revoked ==> next.sessions[t].revoked;
    }
  }

  lemma AlarmMarks(server: Server, out: set<Token>, cookie: Option<Token>, minted: Token, now: int, committed: bool)
    requires Marked(server, out) && IsReuse(server, cookie)
    ensures var (next, reply) := RefreshStep(server, cookie, minted, now, committed);
      && Marked(next, out + NewlyRevoked(server, next)) && !reply.Issued?
      && next.sessions.Keys == server.sessions.Keys && next.rotations == server.rotations
  {
  }

  lemma RotationMarks(server: Server, out: set<Token>, cookie: Option<Token>, minted: Token, now: int, committed: bool)
    requires Marked(server, out) && minted !in server.sessions && !IsReuse(server, cookie)
    ensures var (next, reply) := RefreshStep(server, cookie, minted, now, committed);
      && Marked(next, out)
      && next.sessions.Keys == server.sessions.Keys + (if reply.Issued? then {minted} else {})
      && SpentTokens(next.rotations) == SpentTokens(server.rotations) + (if reply.Issued? then {cookie.value} else {})
      && (reply.Issued? ==> cookie.Some? && cookie.value in server.sessions && reply.token == minted)
  {
    if cookie.Some? {
      SpentAppend(server.rotations, Rotation(cookie.value, minted));
    }
  }

  /** Serving any refresh keeps "revoked means spent or out", and spends exactly the token it rotates. */
  lemma ServedMarks(w: World, cookie: Option<Token>, minted: Token, now: int, committed: bool)
    requires Marked(w.server, Out(w)) && minted !in w.server.sessions
    ensures var (next, reply) := RefreshStep(w.server, cookie, minted, now, committed);
      && Marked(next, EndedBy(w, cookie, next) + w.signedOut)
      && next.sessions.Keys == w.server.sessions.Keys + (if reply.Issued? then {minted} else {})
      && SpentTokens(next.rotations) == Spent(w) + (if reply.Issued? then {cookie.value} else {})
      && (reply.Issued? ==> cookie.Some? && cookie.value in w.server.sessions && reply.token == minted)
  {
    if IsReuse(w.server, cookie) {
      AlarmMarks(w.server, Out(w), cookie, minted, now, committed);
      var next := RefreshStep(w.server, cookie, minted, now, committed).0;
      assert EndedBy(w, cookie, next) + w.signedOut == Out(w) + NewlyRevoked(w.server, next);
    } else {
      RotationMarks(w.server, Out(w), cookie, minted, now, committed);
    }
  }

  /** What the server takes for reuse: a token spent before, or one put out by an alarm or elsewhere. */
  lemma ReuseIff(w: World, cookie: Option<Token>)
    requires Marked(w.server, Out(w))
    ensures IsReuse(w.server, cookie) <==> cookie.Some? && (cookie.value in Spent(w) || cookie.value in Out(w))
  {
  }

  // ── What pages and browsers hold ───────────────────────────────────────────

  /** The browser a token was handed to. */
  function OwnerOf(w: World, t: Token): Option<BrowserId>
  {
    if t !in w.courier then None
    else match w.courier[t]
      case ByLogin(b) => Some(b)
      case ByPage(p) => if p in w.home then Some(w.home[p]) else None
  }

  /** Spent tokens that may be presented again. */
  function Excused(w: World): set<Token> { w.orphaned + w.raced }

  ghost predicate Superseded(w: World, t: Token) { exists q :: q in w.pages && Supersedes(w.pages[q], t) }

  /** A page presents only tokens of its browser, spent only if excused; what it is brought is new; what that replaces is spent. */
  ghost predicate PageSound(w: World, p: PageId, page: Page)
    requires p in w.home
  {
    && (forall t | Presents(page, t) :: t in w.taken && OwnerOf(w, t) == Some(w.home[p]) && (t in Spent(w) ==> t in Excused(w)))
    && (forall t | Brings(page, t) :: t !in w.taken && t in w.courier && w.courier[t] == ByPage(p))
    && (forall t | Supersedes(page, t) :: t in Spent(w) && OwnerOf(w, t) == Some(w.home[p]))
  }

  ghost predicate CookieSound(w: World, b: BrowserId, t: Token)
  {
    t in w.taken && OwnerOf(w, t) == Some(b) && (t in Spent(w) ==> t in Excused(w) || Superseded(w, t))
  }

  /** A cookie is its browser's, spent only if excused or about to be replaced; login tokens on their way are new. */
  ghost predicate JarSound(w: World, b: BrowserId, jar: Jar)
  {
    && (jar.cookie.Some? ==> CookieSound(w, b, jar.cookie.value))
    && (forall t | t in jar.logins :: t !in w.taken && t in w.courier && w.courier[t] == ByLogin(b))
  }

  /** The first alarm has a cause: a lost answer, two pages at once, a stray, or a sign-out. */
  ghost predicate Caused(w: World)
  {
    && (w.alarmed ==> w.orphaned != {} || w.raced != {} || w.astray || w.signedOut != {})
    && (w.ended != {} ==> w.alarmed)
  }

  ghost predicate BooksSound(w: World)
  {
    && Marked(w.server, Out(w))
    && Excused(w) <= Spent(w) <= w.taken <= w.courier.Keys <= w.server.sessions.Keys
    && (forall t | t in w.strays :: t in w.taken)
    && Caused(w)
  }

  ghost predicate PagesSound(w: World) { forall p | p in w.pages :: p in w.home && w.home[p] in w.jars && PageSound(w, p, w.pages[p]) }

  ghost predicate JarsSound(w: World) { forall b | b in w.jars :: JarSound(w, b, w.jars[b]) }

  ghost predicate Held(w: World) { BooksSound(w) && PagesSound(w) && JarsSound(w) }

  ghost predicate Sound(w: World) { AllSingleFlight(w) && Held(w) }

  /** The books of w' extend those of w: tokens keep their courier, and nothing is forgotten. */
  ghost predicate Grows(w: World, w': World)
  {
    && w'.home == w.home
    && (forall t | t in w.courier :: t in w'.courier && w'.courier[t] == w.courier[t])
    && Spent(w) <= Spent(w') && w.taken <= w'.taken && Excused(w) <= Excused(w')
  }

  lemma FramePage(w: World, w': World, p: PageId, page: Page)
    requires p in w.home && PageSound(w, p, page) && Grows(w, w')
    requires forall t | Presents(page, t) && t in Spent(w') :: t in Spent(w) || t in Excused(w')
    requires forall t | Brings(page, t) :: t !in w'.taken
    ensures PageSound(w', p, page)
  {
  }

  lemma FrameJar(w: World, w': World, b: BrowserId, jar: Jar)
    requires JarSound(w, b, jar) && Grows(w, w')
    requires jar.cookie.Some? && jar.cookie.value in Spent(w') && (jar.cookie.value in Spent(w) ==> Superseded(w, jar.cookie.value)) ==>
      jar.cookie.value in Excused(w') || Superseded(w', jar.cookie.value)
    requires forall t | t in jar.logins :: t !in w'.taken
    ensures JarSound(w', b, jar)
  {
  }

  // ── A refresh is served ────────────────────────────────────────────────────

  /** What serving page p's refresh, which presents `cookie`, does to everything but the server. */
  ghost predicate Rotates(w: World, w': World, p: PageId, cookie: Option<Token>, minted: Token, issued: bool)
    requires p in w.home && p in w.pages
  {
    && w'.home == w.home && w'.jars == w.jars && w'.taken == w.taken && w'.orphaned == w.orphaned && w'.strays == w.strays
    && w'.pages == w.pages[p := Page(w.pages[p].tab, [Call(cookie, Some(if issued then GotToken(minted) else Refused))])]
    && if issued
       then cookie.Some? && minted !in w.courier && Spent(w') == Spent(w) + {cookie.value} && w'.courier == w.courier[minted := ByPage(p)]
         && w'.raced == w.raced + if SiblingPresents(w, p, cookie.value) then {cookie.value} else {}
       else Spent(w') == Spent(w) && w'.courier == w.courier && w'.raced == w.raced
  }

  lemma RotatedPageSound(w: World, w': World, p: PageId, cookie: Option<Token>, minted: Token, issued: bool)
    requires p in w.home && p in w.pages && w.taken <= w.courier.Keys && PageSound(w, p, w.pages[p])
    requires w.pages[p].calls == [Call(cookie, None)] && Rotates(w, w', p, cookie, minted, issued)
    ensures PageSound(w', p, w'.pages[p])
  {
    assert cookie.Some? ==> Presents(w.pages[p], cookie.value);
  }

  lemma RotatedOtherSound(w: World, w': World, p: PageId, cookie: Option<Token>, minted: Token, issued: bool, q: PageId)
    requires p in w.home && p in w.pages && PageSound(w, p, w.pages[p])
    requires w.pages[p].calls == [Call(cookie, None)] && Rotates(w, w', p, cookie, minted, issued)
    requires q in w.home && q in w.pages && q != p && PageSound(w, q, w.pages[q])
    ensures PageSound(w', q, w.pages[q])
  {
    if issued && Presents(w.pages[q], cookie.value) {
      assert Presents(w.pages[p], cookie.value);
      assert SiblingPresents(w, p, cookie.value);
    }
    FramePage(w, w', q, w.pages[q]);
  }

  lemma RotatedJarSound(w: World, w': World, p: PageId, cookie: Option<Token>, minted: Token, issued: bool, b: BrowserId, jar: Jar)
    requires p in w.home && p in w.pages && w.pages[p].calls == [Call(cookie, None)] && Rotates(w, w', p, cookie, minted, issued)
    requires JarSound(w, b, jar)
    ensures JarSound(w', b, jar)
  {
    if jar.cookie.Some? {
      var t := jar.cookie.value;
      if Superseded(w, t) {
        var q :| q in w.pages && Supersedes(w.pages[q], t);
        assert Supersedes(w'.pages[q], t);
      }
      if issued && t == cookie.value {
        assert Supersedes(w'.pages[p], t);
      }
    }
    FrameJar(w, w', b, jar);
  }

  /** A page's refresh is taken for reuse exactly when its token is excused or out. */
  lemma PageAlarmIff(w: World, p: PageId)
    requires Sound(w) && Placed(w, p) && w.pages[p].calls != [] && w.pages[p].calls[0].answer.None?
    ensures |w.pages[p].calls| == 1
    ensures var cookie := w.pages[p].calls[0].cookie;
      IsReuse(w.server, cookie) <==> cookie.Some? && (cookie.value in Excused(w) || cookie.value in Out(w))
  {
    var page := w.pages[p];
    assert SingleFlight(page) && PageSound(w, p, page);
    ReuseIff(w, page.calls[0].cookie);
    if page.calls[0].cookie.Some? {
      assert Presents(page, page.calls[0].cookie.value);
    }
  }

  lemma ServePageRotates(w: World, p: PageId, minted: Token, now: int, committed: bool)
    requires Marked(w.server, Out(w)) && w.courier.Keys <= w.server.sessions.Keys && minted !in w.server.sessions
    requires Placed(w, p) && |w.pages[p].calls| == 1 && w.pages[p].calls[0].answer.None?
    ensures var cookie, next := w.pages[p].calls[0].cookie, ServePage(w, p, 0, minted, now, committed);
      var issued := RefreshStep(w.server, cookie, minted, now, committed).1.Issued?;
      && w.pages[p].calls == [Call(cookie, None)]
      && Rotates(w, next, p, cookie, minted, issued)
      && Marked(next.server, Out(next)) && next.courier.Keys <= next.server.sessions.Keys
      && next.signedOut == w.signedOut && next.astray == w.astray
      && next.alarmed == (w.alarmed || IsReuse(w.server, cookie)) && (next.ended != w.ended ==> IsReuse(w.server, cookie))
  {
    var cookie := w.pages[p].calls[0].cookie;
    ServedMarks(w, cookie, minted, now, committed);
    assert w.pages[p].calls == [Call(cookie, None)];
    var next := ServePage(w, p, 0, minted, now, committed);
    assert next.pages[p].calls == [next.pages[p].calls[0]];
  }

  lemma ServePageBooks(w: World, p: PageId, minted: Token, now: int, committed: bool)
    requires BooksSound(w) && minted !in w.server.sessions
    requires Placed(w, p) && |w.pages[p].calls| == 1 && w.pages[p].calls[0].answer.None? && PageSound(w, p, w.pages[p])
    ensures BooksSound(ServePage(w, p, 0, minted, now, committed))
  {
    var cookie := w.pages[p].calls[0].cookie;
    var issued := RefreshStep(w.server, cookie, minted, now, committed).1.Issued?;
    ServePageRotates(w, p, minted, now, committed);
    ReuseIff(w, cookie);
    assert cookie.Some? ==> Presents(w.pages[p], cookie.value);
    RotatedBooks(w, ServePage(w, p, 0, minted, now, committed), p, cookie, minted, issued);
  }

  lemma RotatedBooks(w: World, w': World, p: PageId, cookie: Option<Token>, minted: Token, issued: bool)
    requires BooksSound(w) && p in w.home && p in w.pages && Rotates(w, w', p, cookie, minted, issued)
    requires cookie.Some? ==> cookie.value in w.taken && (cookie.value in Spent(w) ==> cookie.value in Excused(w))
    requires Marked(w'.server, Out(w')) && w'.courier.Keys <= w'.server.sessions.Keys
    requires w'.signedOut == w.signedOut && w'.astray == w.astray
    requires w'.alarmed ==> w.alarmed || (cookie.Some? && (cookie.value in Spent(w) || cookie.value in Out(w)))
    requires w'.ended != w.ended || w.alarmed ==> w'.alarmed
    ensures BooksSound(w')
  {
  }

  lemma ServePageSound(w: World, p: PageId, minted: Token, now: int, committed: bool)
    requires Held(w) && Placed(w, p) && |w.pages[p].calls| == 1 && w.pages[p].calls[0].answer.None? && minted !in w.server.sessions
    ensures Held(ServePage(w, p, 0, minted, now, committed))
  {
    var cookie := w.pages[p].calls[0].cookie;
    var issued := RefreshStep(w.server, cookie, minted, now, committed).1.Issued?;
    assert PageSound(w, p, w.pages[p]);
    ServePageRotates(w, p, minted, now, committed);
    ServePageBooks(w, p, minted, now, committed);
    RotatedAllSound(w, ServePage(w, p, 0, minted, now, committed), p, cookie, minted, issued);
  }

  lemma RotatedAllSound(w: World, w': World, p: PageId, cookie: Option<Token>, minted: Token, issued: bool)
    requires PagesSound(w) && JarsSound(w) && w.taken <= w.courier.Keys && Placed(w, p)
    requires w.pages[p].calls == [Call(cookie, None)] && Rotates(w, w', p, cookie, minted, issued)
    ensures PagesSound(w') && JarsSound(w')
  {
    RotatedPageSound(w, w', p, cookie, minted, issued);
    forall q | q in w'.pages && q != p ensures PageSound(w', q, w'.pages[q]) {
      RotatedOtherSound(w, w', p, cookie, minted, issued, q);
    }
    forall b | b in w'.jars ensures JarSound(w', b, w'.jars[b]) {
      RotatedJarSound(w, w', p, cookie, minted, issued, b, w.jars[b]);
    }
  }

  // ── The other moves ────────────────────────────────────────────────────────

  /** One page changes, the cookies stay; what it gives up superseding is excused. */
  lemma OnePageSound(w: World, w': World, p: PageId)
    requires PagesSound(w) && JarsSound(w) && Grows(w, w') && Placed(w, p)
    requires w'.taken == w.taken && w'.jars == w.jars && p in w'.pages && w'.pages == w.pages[p := w'.pages[p]]
    requires forall t | t in Spent(w') :: t in Spent(w) || t in Excused(w')
    requires forall t | Supersedes(w.pages[p], t) :: Supersedes(w'.pages[p], t) || t in Excused(w')
    requires PageSound(w', p, w'.pages[p])
    ensures PagesSound(w') && JarsSound(w')
  {
    forall q | q in w'.pages && q != p ensures PageSound(w', q, w'.pages[q]) {
      FramePage(w, w', q, w.pages[q]);
    }
    forall b | b in w'.jars ensures JarSound(w', b, w'.jars[b]) {
      var cookie := w.jars[b].cookie;
      if cookie.Some? && Superseded(w, cookie.value) {
        var q :| q in w.pages && Supersedes(w.pages[q], cookie.value);
        assert q != p ==> Supersedes(w'.pages[q], cookie.value);
      }
      FrameJar(w, w', b, w.jars[b]);
    }
  }

  /** No page and no cookie changes; what is spent is excused. */
  lemma BooksOnlySound(w: World, w': World)
    requires PagesSound(w) && JarsSound(w) && Grows(w, w')
    requires w'.pages == w.pages && w'.jars == w.jars && w'.taken == w.taken
    requires forall t | t in Spent(w') :: t in Spent(w) || t in Excused(w')
    ensures PagesSound(w') && JarsSound(w')
  {
    forall q | q in w'.pages ensures PageSound(w', q, w'.pages[q]) {
      FramePage(w, w', q, w.pages[q]);
    }
    forall b | b in w'.jars ensures JarSound(w', b, w'.jars[b]) {
      FrameJar(w, w', b, w.jars[b]);
    }
  }

  /** A cookie that is spent and not excused is about to be replaced by the answer to a page of the same browser. */
  lemma CookieExcused(w: World, p: PageId, t: Token)
    requires PagesSound(w) && JarsSound(w) && Placed(w, p) && w.jars[w.home[p]].cookie == Some(t)
    ensures t in w.taken && OwnerOf(w, t) == Some(w.home[p])
    ensures t in Spent(w) ==> t in Excused(w) || SiblingSupersedes(w, p, t)
  {
    assert JarSound(w, w.home[p], w.jars[w.home[p]]);
    if Superseded(w, t) {
      var q :| q in w.pages && Supersedes(w.pages[q], t);
      assert PageSound(w, q, w.pages[q]);
    }
  }

  /** A page that asks with its browser's cookie: if that is spent it is excused, at the latest now. */
  lemma AskedPageSound(w: World, p: PageId, request: RequestId)
    requires PagesSound(w) && JarsSound(w) && Placed(w, p) && SingleFlight(w.pages[p])
    ensures var next := Ask(w, p, request); next.home == w.home && PageSound(next, p, next.pages[p])
  {
    var next, page, cookie := Ask(w, p, request), w.pages[p], w.jars[w.home[p]].cookie;
    assert PageSound(w, p, page);
    if next.pages[p].calls == page.calls {
      FramePage(w, next, p, next.pages[p]);
    } else {
      assert next.pages[p].calls == [Call(cookie, None)];
      if cookie.Some? {
        CookieExcused(w, p, cookie.value);
      }
    }
  }

  lemma AskSound(w: World, p: PageId, request: RequestId)
    requires Held(w) && Placed(w, p) && SingleFlight(w.pages[p])
    ensures Held(Ask(w, p, request))
  {
    var next := Ask(w, p, request);
    AskedPageSound(w, p, request);
    assert next.pages[p].calls == w.pages[p].calls || w.pages[p].calls == [];
    RacedAreSpent(w, p, request);
    OnePageSound(w, next, p);
  }

  lemma RacedAreSpent(w: World, p: PageId, request: RequestId)
    requires PagesSound(w) && Placed(w, p) && w.raced <= Spent(w)
    ensures Ask(w, p, request).raced <= Spent(w)
  {
    var cookie := w.jars[w.home[p]].cookie;
    if cookie.Some? && SiblingSupersedes(w, p, cookie.value) {
      var q :| q in w.pages && q in w.home && w.home[q] == w.home[p] && Supersedes(w.pages[q], cookie.value);
      assert PageSound(w, q, w.pages[q]);
    }
  }

  lemma GivenUpBooks(w: World, p: PageId, page: Page)
    requires BooksSound(w) && p in w.home && p in w.pages && PageSound(w, p, w.pages[p]) && |w.pages[p].calls| <= 1
    ensures var next := GivenUp(w, p, page, w.pages[p].calls);
      BooksSound(next) && Grows(w, next) && forall t | Supersedes(w.pages[p], t) :: t in next.orphaned
  {
    var calls := w.pages[p].calls;
    if calls != [] {
      assert calls == [calls[0]] && StraysOf(calls[1..]) == [];
      assert calls[0].cookie.Some? && calls[0].answer.None? ==> Presents(w.pages[p], calls[0].cookie.value);
    }
    forall t ensures t in OrphansOf(calls) <==> Supersedes(w.pages[p], t) {
    }
  }

  /** A page gives up its only call, answered or not, or is reloaded. */
  lemma GivenUpSound(w: World, p: PageId, tab: Tab)
    requires Held(w) && Placed(w, p) && |w.pages[p].calls| <= 1
    ensures Held(GivenUp(w, p, Page(tab, []), w.pages[p].calls))
  {
    assert PageSound(w, p, w.pages[p]);
    GivenUpBooks(w, p, Page(tab, []));
    OnePageSound(w, GivenUp(w, p, Page(tab, []), w.pages[p].calls), p);
  }

  lemma ArriveBooks(w: World, i: nat, minted: Token, now: int, committed: bool)
    requires BooksSound(w) && i < |w.strays| && minted !in w.server.sessions
    ensures var next := Arrive(w, i, minted, now, committed);
      && BooksSound(next) && Grows(w, next)
      && next.pages == w.pages && next.jars == w.jars && next.taken == w.taken
      && forall t | t in Spent(next) :: t in Spent(w) || t in Excused(next)
  {
    ServedMarks(w, Some(w.strays[i]), minted, now, committed);
    assert w.strays[i] in w.taken;
  }

  lemma ArriveSound(w: World, i: nat, minted: Token, now: int, committed: bool)
    requires Held(w) && i < |w.strays| && minted !in w.server.sessions
    ensures Held(Arrive(w, i, minted, now, committed))
  {
    ArriveBooks(w, i, minted, now, committed);
    BooksOnlySound(w, Arrive(w, i, minted, now, committed));
  }

  lemma ElsewhereSound(w: World, e: Event)
    requires Held(w) && !e.Login? && !e.Refresh?
    ensures Held(Step(w, Elsewhere(e)))
  {
    var next := Step(w, Elsewhere(e));
    ElsewhereMarks(w.server, e, Out(w));
    assert Out(next) == Out(w) + NewlyRevoked(w.server, next.server);
    BooksOnlySound(w, next);
  }

  /** Browser b gets a new cookie, which was on its way to it; one of its pages may let go of its call. */
  lemma NewCookieSound(w: World, w': World, b: BrowserId, t: Token)
    requires PagesSound(w) && JarsSound(w) && Spent(w) <= w.taken && b in w.jars
    requires t in w.courier && t !in w.taken && OwnerOf(w, t) == Some(b)
    requires b in w'.jars && w' == w.(pages := w'.pages, jars := w.jars[b := Jar(Some(t), w'.jars[b].logins)], taken := w.taken + {t})
    requires w'.jars[b].logins <= w.jars[b].logins && (w.courier[t] == ByLogin(b) ==> t !in w'.jars[b].logins)
    requires w'.pages.Keys == w.pages.Keys
    requires forall p | p in w.pages :: w'.pages[p] == w.pages[p] || (w'.pages[p].calls == [] && w.home[p] == b)
    requires forall p | p in w.pages :: !Brings(w'.pages[p], t)
    ensures PagesSound(w') && JarsSound(w')
  {
    forall p | p in w'.pages ensures PageSound(w', p, w'.pages[p]) {
      assert PageSound(w, p, w.pages[p]);
    }
    forall c | c in w'.jars ensures JarSound(w', c, w'.jars[c]) {
      assert JarSound(w, c, w.jars[c]);
      var cookie := w.jars[c].cookie;
      if c != b && cookie.Some? && Superseded(w, cookie.value) {
        var q :| q in w.pages && Supersedes(w.pages[q], cookie.value);
        assert PageSound(w, q, w.pages[q]);
        assert Supersedes(w'.pages[q], cookie.value);
      }
    }
  }

  lemma OnlyOnePageBrings(w: World, p: PageId, t: Token)
    requires PagesSound(w) && p in w.pages && Brings(w.pages[p], t)
    ensures forall q | q in w.pages && q != p :: !Brings(w.pages[q], t)
  {
    assert PageSound(w, p, w.pages[p]);
    forall q | q in w.pages && q != p ensures !Brings(w.pages[q], t) {
      assert PageSound(w, q, w.pages[q]);
    }
  }

  lemma StoreTokenSound(w: World, p: PageId, cookieCleared: bool)
    requires Held(w) && Placed(w, p) && |w.pages[p].calls| == 1
    requires w.pages[p].calls[0].answer.Some? && w.pages[p].calls[0].answer.value.GotToken?
    ensures Held(Store(w, p, 0, cookieCleared))
  {
    var next, page := Store(w, p, 0, cookieCleared), w.pages[p];
    var t := page.calls[0].answer.value.token;
    assert PageSound(w, p, page) && Brings(page, t);
    OnlyOnePageBrings(w, p, t);
    assert JarSound(w, w.home[p], w.jars[w.home[p]]);
    NewCookieSound(w, next, w.home[p], t);
  }

  lemma TakeLoginSound(w: World, b: BrowserId, token: Token)
    requires Held(w) && b in w.jars && token in w.jars[b].logins
    ensures Held(Step(w, TakeLogin(b, token)))
  {
    assert JarSound(w, b, w.jars[b]);
    forall q | q in w.pages ensures !Brings(w.pages[q], token) {
      assert PageSound(w, q, w.pages[q]);
    }
    NewCookieSound(w, Step(w, TakeLogin(b, token)), b, token);
  }

  ghost predicate SameBooks(w: World, w': World)
  {
    && w'.home == w.home && w'.courier == w.courier && w'.taken == w.taken && w'.server == w.server
    && w'.orphaned == w.orphaned && w'.raced == w.raced
  }

  /** A page changes but in calls that supersede nothing, which it may lose. */
  predicate NoLess(page: Page, page': Page)
  {
    page'.calls == page.calls || (page'.calls == [] && (page.calls == [] || page.calls[0].answer == Some(Refused)))
  }

  lemma QuietPagesSound(w: World, w': World)
    requires PagesSound(w) && SameBooks(w, w') && w'.jars.Keys == w.jars.Keys
    requires w'.pages.Keys == w.pages.Keys && forall p | p in w.pages :: NoLess(w.pages[p], w'.pages[p])
    ensures PagesSound(w') && forall t | Superseded(w, t) :: Superseded(w', t)
  {
    forall p | p in w'.pages ensures PageSound(w', p, w'.pages[p]) {
      assert PageSound(w, p, w.pages[p]);
      forall t
        ensures Presents(w'.pages[p], t) ==> Presents(w.pages[p], t)
        ensures Brings(w'.pages[p], t) ==> Brings(w.pages[p], t)
        ensures Supersedes(w'.pages[p], t) ==> Supersedes(w.pages[p], t)
      {
      }
    }
    forall t | Superseded(w, t) ensures Superseded(w', t) {
      var q :| q in w.pages && Supersedes(w.pages[q], t);
      assert Supersedes(w'.pages[q], t);
    }
  }

  /** A jar may lose its cookie or login tokens. */
  predicate Fewer(jar: Jar, jar': Jar) { (jar'.cookie == None || jar'.cookie == jar.cookie) && jar'.logins <= jar.logins }

  lemma FewerSound(w: World, w': World)
    requires PagesSound(w) && JarsSound(w) && SameBooks(w, w')
    requires w'.pages.Keys == w.pages.Keys && forall p | p in w.pages :: NoLess(w.pages[p], w'.pages[p])
    requires w'.jars.Keys == w.jars.Keys && forall b | b in w.jars :: Fewer(w.jars[b], w'.jars[b])
    ensures PagesSound(w') && JarsSound(w')
  {
    QuietPagesSound(w, w');
    forall c | c in w'.jars ensures JarSound(w', c, w'.jars[c]) {
      assert JarSound(w, c, w.jars[c]);
    }
  }

  lemma RefusalSound(w: World, p: PageId, cookieCleared: bool)
    requires Held(w) && Placed(w, p) && |w.pages[p].calls| == 1 && w.pages[p].calls[0].answer == Some(Refused)
    ensures Held(Store(w, p, 0, cookieCleared))
  {
    FewerSound(w, Store(w, p, 0, cookieCleared));
  }

  /** A login lost, or a cookie gone. */
  lemma LocalLossSound(w: World, b: BrowserId, jar: Jar)
    requires Held(w) && b in w.jars && Fewer(w.jars[b], jar)
    ensures Held(WithJar(w, b, jar))
  {
    FewerSound(w, WithJar(w, b, jar));
  }

  lemma LoggedInBooks(w: World, b: BrowserId, minted: Token, row: Session)
    requires BooksSound(w) && b in w.jars && minted !in w.server.sessions && !row.revoked
    ensures var next := LoggedIn(w, b, minted, w.server.(sessions := w.server.sessions[minted := row]));
      BooksSound(next) && Grows(w, next) && minted !in w.taken
  {
  }

  lemma LoggedInSound(w: World, b: BrowserId, minted: Token, row: Session)
    requires Held(w) && b in w.jars && minted !in w.server.sessions && !row.revoked
    ensures Held(LoggedIn(w, b, minted, w.server.(sessions := w.server.sessions[minted := row])))
  {
    var next := LoggedIn(w, b, minted, w.server.(sessions := w.server.sessions[minted := row]));
    LoggedInBooks(w, b, minted, row);
    forall q | q in next.pages ensures PageSound(next, q, next.pages[q]) {
      FramePage(w, next, q, w.pages[q]);
    }
    forall c | c in next.jars ensures JarSound(next, c, next.jars[c]) {
      FrameJar(w, next, c, w.jars[c]);
    }
  }

  lemma PageMoveKeepsHeld(w: World, m: Move)
    requires Sound(w) && CanMove(w, m) && PageOf(m).Some?
    ensures Held(Step(w, m))
  {
    var page := w.pages[m.p];
    assert SingleFlight(page);
    match m {
      case Unauthorised(p, request) => AskSound(w, p, request);
      case ServeRefresh(p, _, minted, now, committed) => ServePageSound(w, p, minted, now, committed);
      case TakeAnswer(p, i, cookieCleared) =>
        if page.calls[i].answer.value.GotToken? {
          StoreTokenSound(w, p, cookieCleared);
        } else {
          RefusalSound(w, p, cookieCleared);
        }
      case LoseCall(p, i) =>
        assert Without(page.calls, i) == [] && [page.calls[i]] == page.calls;
        GivenUpSound(w, p, Settle(page.tab));
      case Reload(p) => GivenUpSound(w, p, FRESH_TAB);
    }
  }

  lemma StepKeepsSound(w: World, m: Move)
    requires Sound(w)
    ensures Sound(Step(w, m))
  {
    StepKeepsSingleFlight(w, m);
    if CanMove(w, m) {
      if PageOf(m).Some? {
        PageMoveKeepsHeld(w, m);
      } else {
        match m {
          case ServeStray(i, minted, now, committed) => ArriveSound(w, i, minted, now, committed);
          case ServeLogin(b, user, _, _, minted, now) =>
            if Step(w, m) != w {
              LoggedInSound(w, b, minted, NewSession(user, now));
            }
          case TakeLogin(b, token) => TakeLoginSound(w, b, token);
          case LoseLogin(b, token) => LocalLossSound(w, b, w.jars[b].(logins := w.jars[b].logins - {token}));
          case ForgetCookie(b) => LocalLossSound(w, b, w.jars[b].(cookie := None));
          case Elsewhere(e) => ElsewhereSound(w, e);
        }
      }
    }
  }

  lemma {:induction false} PlayKeepsSound(w: World, moves: seq<Move>)
    requires Sound(w)
    ensures Sound(Play(w, moves))
    decreases moves
  {
    if moves != [] {
      StepKeepsSound(w, moves[0]);
      PlayKeepsSound(Step(w, moves[0]), moves[1..]);
    }
  }

  // ── Over every run ─────────────────────────────────────────────────────────

  lemma EveryPlayIsSound(users: map<UserId, User>, home: map<PageId, BrowserId>, moves: seq<Move>)
    ensures Sound(Play(Opening(users, home), moves))
  {
    PlayKeepsSound(Opening(users, home), moves);
  }

  /** A token the server takes for stolen although an honest page may present it. */
  predicate Suspect(w: World, t: Token) { t in w.orphaned || t in w.raced || t in w.ended || t in w.signedOut }

  /**
   After any run, whatever was lost, reloaded, signed out or had set off an alarm before: a page's refresh is taken for a
   thief's if and only if the token it presents was spent by a refresh whose answer was lost, was used by two pages at
   once, was ended by an earlier alarm, or was signed out.
   */
  lemma AlarmIff(users: map<UserId, User>, home: map<PageId, BrowserId>, moves: seq<Move>, m: Move)
    requires CanMove(Play(Opening(users, home), moves), m) && m.ServeRefresh?
    ensures var w := Play(Opening(users, home), moves);
      var cookie := w.pages[m.p].calls[m.i].cookie;
      && (IsReuse(w.server, cookie) <==> cookie.Some? && Suspect(w, cookie.value))
      && (!w.alarmed ==> (Step(w, m).alarmed <==>
            cookie.Some? && (cookie.value in w.orphaned || cookie.value in w.raced || cookie.value in w.signedOut)))
  {
    EveryPlayIsSound(users, home, moves);
    var w := Play(Opening(users, home), moves);
    assert SingleFlight(w.pages[m.p]);
    PageAlarmIff(w, m.p);
  }

  /** A stray raises the alarm if and only if its token has been spent since, lost answer or not, or put out. */
  lemma StrayAlarmIff(users: map<UserId, User>, home: map<PageId, BrowserId>, moves: seq<Move>, m: Move)
    requires CanMove(Play(Opening(users, home), moves), m) && m.ServeStray?
    ensures var w := Play(Opening(users, home), moves);
      && (IsReuse(w.server, Some(w.strays[m.i])) <==> w.strays[m.i] in Spent(w) || w.strays[m.i] in w.ended || w.strays[m.i] in w.signedOut)
      && (!w.alarmed ==> (Step(w, m).alarmed <==> w.strays[m.i] in Spent(w) || w.strays[m.i] in w.signedOut))
  {
    EveryPlayIsSound(users, home, moves);
    var w := Play(Opening(users, home), moves);
    ReuseIff(w, Some(w.strays[m.i]));
  }

  /** After any run a browser's cookie is good if and only if it is not suspect and its successor is not under way. */
  lemma CookieIsGoodIff(users: map<UserId, User>, home: map<PageId, BrowserId>, moves: seq<Move>, b: BrowserId, t: Token)
    requires var w := Play(Opening(users, home), moves); b in w.jars && w.jars[b].cookie == Some(t)
    ensures var w := Play(Opening(users, home), moves); Live(w.server, t) <==> !Suspect(w, t) && !Superseded(w, t)
  {
    EveryPlayIsSound(users, home, moves);
    var w := Play(Opening(users, home), moves);
    assert JarSound(w, b, w.jars[b]);
    if Superseded(w, t) {
      var q :| q in w.pages && Supersedes(w.pages[q], t);
      assert PageSound(w, q, w.pages[q]);
    }
  }

  /**
   However many browsers log in, refresh and reload, and however their messages interleave: while no answer carrying a
   token is lost, no two pages of a browser refresh at once, no request is served after its page gave it up and no session
   is revoked otherwise, reuse detection never fires, and a cookie whose successor is not under way is unrevoked.
   */
  lemma NoFalseAlarm(users: map<UserId, User>, home: map<PageId, BrowserId>, moves: seq<Move>)
    requires var w := Play(Opening(users, home), moves); w.orphaned == {} && w.raced == {} && !w.astray && w.signedOut == {}
    ensures var w := Play(Opening(users, home), moves);
      && !w.alarmed
      && forall b, t | b in w.jars && w.jars[b].cookie == Some(t) && !Superseded(w, t) :: Live(w.server, t)
  {
    EveryPlayIsSound(users, home, moves);
    var w := Play(Opening(users, home), moves);
    forall b, t | b in w.jars && w.jars[b].cookie == Some(t) && !Superseded(w, t) ensures Live(w.server, t) {
      CookieIsGoodIff(users, home, moves, b, t);
    }
  }

  lemma StepWithoutRace(w: World, m: Move)
    requires AllSingleFlight(w) && w.raced == {}
    requires forall p, q | p in w.home && q in w.home && w.home[p] == w.home[q] :: p == q
    ensures Step(w, m).raced == {} && Step(w, m).home == w.home
  {
    StepPages(w, m);
    if CanMove(w, m) && m.Unauthorised? {
      assert SingleFlight(w.pages[m.p]);
    }
  }

  lemma {:induction false} PlayWithoutRace(w: World, moves: seq<Move>)
    requires AllSingleFlight(w) && w.raced == {}
    requires forall p, q | p in w.home && q in w.home && w.home[p] == w.home[q] :: p == q
    ensures Play(w, moves).raced == {}
    decreases moves
  {
    if moves != [] {
      StepWithoutRace(w, moves[0]);
      StepKeepsSingleFlight(w, moves[0]);
      PlayWithoutRace(Step(w, moves[0]), moves[1..]);
    }
  }

  /** The shared refresh does its work within a page: browsers with one page each never race. */
  lemma OnePageNeverRaces(users: map<UserId, User>, home: map<PageId, BrowserId>, moves: seq<Move>)
    requires forall p, q | p in home && q in home && home[p] == home[q] :: p == q
    ensures Play(Opening(users, home), moves).raced == {}
  {
    PlayWithoutRace(Opening(users, home), moves);
  }

  // ── The conditions are needed ──────────────────────────────────────────────

  lemma PlayOne(w: World, m: Move, rest: seq<Move>)
    ensures Play(w, [m] + rest) == Play(Step(w, m), rest)
  {
    assert ([m] + rest)[1..] == rest;
  }

  lemma PlayTwo(w: World, m1: Move, m2: Move)
    ensures Play(w, [m1, m2]) == Step(Step(w, m1), m2)
  {
    PlayOne(w, m1, [m2]);
    PlayOne(Step(w, m1), m2, []);
    assert [m1] + [m2] == [m1, m2] && [m2] + [] == [m2];
  }

  lemma {:induction false} PlayConcat(w: World, a: seq<Move>, b: seq<Move>)
    ensures Play(w, a + b) == Play(Play(w, a), b)
    decreases a
  {
    if a == [] {
      assert a + b == b;
    } else {
      assert (a + b)[1..] == a[1..] + b;
      PlayConcat(Step(w, a[0]), a[1..], b);
    }
  }

  /** Page p has asked for a refresh with the cookie its browser still has. */
  predicate Asks(w: World, p: PageId, t: Token)
  {
    && Placed(w, p) && w.pages[p].calls == [Call(Some(t), None)] && w.jars[w.home[p]].cookie == Some(t)
  }

  lemma ServedPage(w: World, p: PageId, t: Token, serve: Move)
    requires Asks(w, p, t) && CanMove(w, serve) && serve.ServeRefresh? && serve.p == p && serve.i == 0
    requires RefreshStep(w.server, Some(t), serve.minted, serve.now, serve.committed).1.Issued?
    ensures var next := Step(w, serve);
      && IsReuse(next.server, Some(t)) && next.home == w.home && next.jars == w.jars
      && next.server.sessions.Keys == w.server.sessions.Keys + {serve.minted}
      && next.pages == w.pages[p := Page(w.pages[p].tab, [Call(Some(t), Some(GotToken(serve.minted)))])]
  {
    var next := Step(w, serve);
    assert next.pages[p].calls == [next.pages[p].calls[0]];
  }

  lemma LostPage(w: World, p: PageId, t: Token, n: Token, request: RequestId)
    requires Placed(w, p) && w.pages[p].calls == [Call(Some(t), Some(GotToken(n)))] && w.jars[w.home[p]].cookie == Some(t)
    requires request !in w.pages[p].tab.retried
    ensures var next := Play(w, [LoseCall(p, 0), Unauthorised(p, request)]); Asks(next, p, t) && next.server == w.server
  {
    PlayTwo(w, LoseCall(p, 0), Unauthorised(p, request));
    var lost := Step(w, LoseCall(p, 0));
    assert lost.pages[p].calls == [];
  }

  lemma ReuseIsAlarm(w: World, p: PageId, t: Token, serve: Move)
    requires Placed(w, p) && w.pages[p].calls == [Call(Some(t), None)] && IsReuse(w.server, Some(t))
    requires CanMove(w, serve) && serve.ServeRefresh? && serve.p == p && serve.i == 0
    ensures Step(w, serve).alarmed
    ensures serve.committed ==> NoLiveSession(Step(w, serve).server, w.server.sessions[t].user)
  {
  }

  /** Whenever a refresh succeeds and its answer is lost, the page's next refresh is taken for a thief's. */
  lemma LossRaisesTheAlarm(w: World, p: PageId, t: Token, serve: Move, request: RequestId, again: Move)
    requires Asks(w, p, t) && CanMove(w, serve) && serve.ServeRefresh? && again.ServeRefresh? && again.p == serve.p == p && again.i == serve.i == 0
    requires RefreshStep(w.server, Some(t), serve.minted, serve.now, serve.committed).1.Issued?
    requires request !in w.pages[p].tab.retried && again.minted !in w.server.sessions && again.minted != serve.minted
    ensures Play(w, [serve] + ([LoseCall(p, 0), Unauthorised(p, request)] + [again])).alarmed
  {
    var drop := [LoseCall(p, 0), Unauthorised(p, request)];
    ServedPage(w, p, t, serve);
    var served := Step(w, serve);
    LostPage(served, p, t, serve.minted, request);
    var asked := Play(served, drop);
    ReuseIsAlarm(asked, p, t, again);
    PlayOne(w, serve, drop + [again]);
    PlayConcat(served, drop, [again]);
    PlayOne(asked, again, []);
    assert [again] + [] == [again];
  }

  /** Whenever two pages of a browser have asked with the same cookie, serving the second is taken for a theft. */
  lemma RaceRaisesTheAlarm(w: World, p: PageId, q: PageId, t: Token, serve: Move, again: Move)
    requires Asks(w, p, t) && Asks(w, q, t) && p != q && CanMove(w, serve) && serve.ServeRefresh? && again.ServeRefresh?
    requires serve.p == p && again.p == q && again.i == serve.i == 0
    requires RefreshStep(w.server, Some(t), serve.minted, serve.now, serve.committed).1.Issued?
    requires again.minted !in w.server.sessions && again.minted != serve.minted
    ensures Play(w, [serve, again]).alarmed
  {
    ServedPage(w, p, t, serve);
    ReuseIsAlarm(Step(w, serve), q, t, again);
    PlayTwo(w, serve, again);
  }

  lemma SignedOutEverywhere(w: World, t: Token, now: int)
    requires Live(w.server, t) && ActiveUser(w.server, w.server.sessions[t].user)
    ensures var out := Step(w, Elsewhere(LogoutAll(w.server.sessions[t].user, now)));
      && out == w.(server := out.server, signedOut := out.signedOut)
      && IsReuse(out.server, Some(t)) && out.server.users == w.server.users
      && out.server.sessions.Keys == w.server.sessions.Keys && out.server.sessions[t].user == w.server.sessions[t].user
  {
  }

  lemma LoggedInAgain(w: World, login: Move)
    requires CanMove(w, login) && login.ServeLogin? && ActiveUser(w.server, login.user) && login.checksOk
    requires PasswordMatches(w.server, login.user, login.password)
    ensures var back := Step(w, login);
      && back.pages == w.pages && back.home == w.home && back.jars.Keys == w.jars.Keys
      && back.server.sessions == w.server.sessions[login.minted := NewSession(login.user, login.now)]
  {
  }

  /**
   Whenever the owner signs out everywhere while a page has a refresh under way, and logs in again in whichever browser:
   that refresh is taken for a theft and, if the write survives, ends the new session.
   */
  lemma SignOutRaisesTheAlarm(w: World, p: PageId, t: Token, now: int, login: Move, serve: Move)
    requires Asks(w, p, t) && Live(w.server, t)
    requires var u := w.server.sessions[t].user;
      && ActiveUser(w.server, u) && login.ServeLogin? && login.user == u && login.checksOk && PasswordMatches(w.server, u, login.password)
      && login.b in w.jars && login.minted !in w.server.sessions
    requires serve.ServeRefresh? && serve.p == p && serve.i == 0 && serve.minted !in w.server.sessions && serve.minted != login.minted
    ensures var end := Play(w, [Elsewhere(LogoutAll(w.server.sessions[t].user, now)), login] + [serve]);
      end.alarmed && login.minted in end.server.sessions && (serve.committed ==> !Live(end.server, login.minted))
  {
    var leave := Elsewhere(LogoutAll(w.server.sessions[t].user, now));
    var out := Step(w, leave);
    SignedOutEverywhere(w, t, now);
    var back := Step(out, login);
    LoggedInAgain(out, login);
    ReuseIsAlarm(back, p, t, serve);
    PlayTwo(w, leave, login);
    PlayConcat(w, [leave, login], [serve]);
    PlayOne(back, serve, []);
    assert [serve] + [] == [serve];
  }

  /** A user logs in, and the first request of a page of that browser comes back with 401. */
  function FirstMoves(b: BrowserId, user: UserId, password: string, token: Token): seq<Move>
  {
    [ServeLogin(b, user, password, true, token, 0), TakeLogin(b, token)]
  }

  lemma FirstLogin(users: map<UserId, User>, home: map<PageId, BrowserId>, b: BrowserId, user: UserId, password: string, token: Token)
    requires b in home.Values && user in users && users[user] == User(true, Some(password))
    ensures var w := Play(Opening(users, home), FirstMoves(b, user, password, token));
      && w.pages == Opening(users, home).pages && w.home == home
      && w.jars == Opening(users, home).jars[b := Jar(Some(token), {})]
      && w.server == Server(map[token := NewSession(user, 0)], users, [])
  {
    var w0 := Opening(users, home);
    var login, take := ServeLogin(b, user, password, true, token, 0), TakeLogin(b, token);
    PlayTwo(w0, login, take);
    var w1 := Step(w0, login);
    assert w1.jars[b] == Jar(None, {token});
    assert Jar(Some(token), {token} - {token}) == Jar(Some(token), {});
  }

  /** A page that has done nothing yet asks with its browser's cookie. */
  lemma FirstAsk(w: World, p: PageId, t: Token, request: RequestId)
    requires Placed(w, p) && w.pages[p] == FRESH_PAGE && w.jars[w.home[p]].cookie == Some(t)
    ensures var next := Step(w, Unauthorised(p, request));
      && Asks(next, p, t) && next.pages[p].tab.retried == {request} && next.pages == w.pages[p := next.pages[p]]
      && next.server == w.server && next.jars == w.jars && next.home == w.home
  {
  }

  lemma PlayFirst(w: World, first: seq<Move>, m: Move, rest: seq<Move>)
    ensures Play(w, first + ([m] + rest)) == Play(Step(Play(w, first), m), rest)
  {
    PlayConcat(w, first, [m] + rest);
    PlayOne(Play(w, first), m, rest);
  }

  /** All three happen, whatever pages there are. One page: a login, a 401 and a lost answer. */
  lemma LostAnswerRaisesTheAlarm(users: map<UserId, User>, home: map<PageId, BrowserId>, p: PageId,
    user: UserId, password: string, a: Token, b: Token, c: Token)
    requires user in users && users[user] == User(true, Some(password)) && a != b && a != c && b != c && p in home
    ensures exists moves :: Play(Opening(users, home), moves).alarmed
  {
    var first := FirstMoves(home[p], user, password, a);
    FirstLogin(users, home, home[p], user, password, a);
    var w1 := Play(Opening(users, home), first);
    FirstAsk(w1, p, a, 1);
    var w2 := Step(w1, Unauthorised(p, 1));
    var serve, again := ServeRefresh(p, 0, b, 10, true), ServeRefresh(p, 0, c, 20, true);
    var rest := [serve] + ([LoseCall(p, 0), Unauthorised(p, 2)] + [again]);
    LossRaisesTheAlarm(w2, p, a, serve, 2, again);
    PlayFirst(Opening(users, home), first, Unauthorised(p, 1), rest);
    assert Play(Opening(users, home), first + ([Unauthorised(p, 1)] + rest)).alarmed;
  }

  lemma PlayThree(w: World, a: seq<Move>, b: seq<Move>, c: seq<Move>)
    ensures Play(w, a + (b + c)) == Play(Play(Play(w, a), b), c)
  {
    PlayConcat(w, a, b + c);
    PlayConcat(Play(w, a), b, c);
  }

  lemma TwoFirstAsks(w: World, p: PageId, q: PageId, t: Token)
    requires Placed(w, p) && Placed(w, q) && p != q && w.home[p] == w.home[q] && w.pages[p] == w.pages[q] == FRESH_PAGE
    requires w.jars[w.home[p]].cookie == Some(t)
    ensures var next := Play(w, [Unauthorised(p, 1), Unauthorised(q, 1)]); Asks(next, p, t) && Asks(next, q, t) && next.server == w.server
  {
    FirstAsk(w, p, t, 1);
    FirstAsk(Step(w, Unauthorised(p, 1)), q, t, 1);
    PlayTwo(w, Unauthorised(p, 1), Unauthorised(q, 1));
  }

  lemma BothAsk(users: map<UserId, User>, home: map<PageId, BrowserId>, p: PageId, q: PageId, user: UserId, password: string, t: Token)
    requires user in users && users[user] == User(true, Some(password)) && p in home && q in home && p != q && home[p] == home[q]
    ensures var w := Play(Play(Opening(users, home), FirstMoves(home[p], user, password, t)), [Unauthorised(p, 1), Unauthorised(q, 1)]);
      Asks(w, p, t) && Asks(w, q, t) && w.server == Server(map[t := NewSession(user, 0)], users, [])
  {
    FirstLogin(users, home, home[p], user, password, t);
    TwoFirstAsks(Play(Opening(users, home), FirstMoves(home[p], user, password, t)), p, q, t);
  }

  /** Two pages of one browser: a login and a 401 for each. */
  lemma TwoPagesRaiseTheAlarm(users: map<UserId, User>, home: map<PageId, BrowserId>, p: PageId, q: PageId,
    user: UserId, password: string, a: Token, b: Token, c: Token)
    requires user in users && users[user] == User(true, Some(password)) && a != b && a != c && b != c
    requires p in home && q in home && p != q && home[p] == home[q]
    ensures exists moves :: Play(Opening(users, home), moves).alarmed
  {
    var first, asks := FirstMoves(home[p], user, password, a), [Unauthorised(p, 1), Unauthorised(q, 1)];
    BothAsk(users, home, p, q, user, password, a);
    var w := Play(Play(Opening(users, home), first), asks);
    var serve, again := ServeRefresh(p, 0, b, 10, true), ServeRefresh(q, 0, c, 20, true);
    RaceRaisesTheAlarm(w, p, q, a, serve, again);
    PlayThree(Opening(users, home), first, asks, [serve, again]);
    assert Play(Opening(users, home), first + (asks + [serve, again])).alarmed;
  }

  /** Two browsers: a login and a 401 in one, then a sign-out everywhere and a login in the other, which the first then ends. */
  lemma SignOutAndInRaisesTheAlarm(users: map<UserId, User>, home: map<PageId, BrowserId>, p: PageId, other: BrowserId,
    user: UserId, password: string, a: Token, b: Token, c: Token)
    requires user in users && users[user] == User(true, Some(password)) && a != b && a != c && b != c
    requires p in home && other in home.Values
    ensures exists moves :: var end := Play(Opening(users, home), moves); end.alarmed && b in end.server.sessions && !Live(end.server, b)
  {
    var first := FirstMoves(home[p], user, password, a);
    FirstLogin(users, home, home[p], user, password, a);
    var w1 := Play(Opening(users, home), first);
    FirstAsk(w1, p, a, 1);
    var w2 := Step(w1, Unauthorised(p, 1));
    var login, serve := ServeLogin(other, user, password, true, b, 10), ServeRefresh(p, 0, c, 20, true);
    var rest := [Elsewhere(LogoutAll(user, 5)), login] + [serve];
    SignOutRaisesTheAlarm(w2, p, a, 5, login, serve);
    PlayFirst(Opening(users, home), first, Unauthorised(p, 1), rest);
    assert Play(Opening(users, home), first + ([Unauthorised(p, 1)] + rest)) == Play(w2, rest);
  }
}
