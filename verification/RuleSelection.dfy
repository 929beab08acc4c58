/**
 Which alert rule an event gets. The service's loop honours rule schedules; the loop of the alert consumer, its
 synchronous twin, does not look at them.
 */
module RuleSelection {
  import opened Prelude

  /** A daily window between two times of day, on some weekdays; absent parts do not restrict. */
  datatype Schedule = Schedule(days: Option<set<int>>, window: Option<(int, int)>)

  /** `created` orders rules by creation; a rule without a camera is global, one without types takes any. */
  datatype Rule = Rule(id: string, camera: Option<string>, created: int, enabled: bool, types: set<string>, schedule: Option<Schedule>)

  datatype Event = Event(camera: string, kind: string, weekday: int, time: int)

  // ── The query ──────────────────────────────────────────────────────────────

  predicate Candidate(r: Rule, e: Event) { r.enabled && (r.camera == Some(e.camera) || r.camera == None) }

  /** Rules of the camera before global ones, then by creation. */
  predicate Before(a: Rule, b: Rule)
  {
    if a.camera.Some? != b.camera.Some? then a.camera.Some? else a.created <= b.created
  }

  /** `answer` is a possible result of the rule query. */
  ghost predicate RuleQuery(rules: seq<Rule>, e: Event, answer: seq<Rule>)
  {
    && multiset(answer) == multiset(Where(rules, (r: Rule) => Candidate(r, e)))
    && forall i, j | 0 <= i < j < |answer| :: Before(answer[i], answer[j])
  }

  predicate TypeMatches(r: Rule, e: Event) { r.types == {} || e.kind in r.types }

  predicate ScheduleMatches(r: Rule, e: Event)
  {
    match r.schedule
    case None => true
    case Some(s) =>
      && (s.days.Some? ==> e.weekday in s.days.value)
      && (s.window.Some? ==> InWindow(s.window.value.0, s.window.value.1, e.time))
  }

  predicate ServiceMatches(r: Rule, e: Event) { TypeMatches(r, e) && ScheduleMatches(r, e) }

  /** The first rule of the list that a predicate accepts. */
  function FirstMatch(answer: seq<Rule>, accepts: Rule -> bool): Option<nat>
  {
    if answer == [] then None
    else if accepts(answer[0]) then Some(0)
    else match FirstMatch(answer[1..], accepts) case Some(i) => Some(i + 1) case None => None
  }

  function ServiceChoice(answer: seq<Rule>, e: Event): Option<nat> { FirstMatch(answer, (r: Rule) => ServiceMatches(r, e)) }

  function ConsumerChoice(answer: seq<Rule>, e: Event): Option<nat> { FirstMatch(answer, (r: Rule) => TypeMatches(r, e)) }

  method FindMatchingRule(answer: seq<Rule>, e: Event) returns (choice: Option<nat>)
    ensures choice == ServiceChoice(answer, e)
  {
    for i := 0 to |answer|
      invariant forall n | 0 <= n < i :: !ServiceMatches(answer[n], e)
    {
      if answer[i].types != {} && e.kind !in answer[i].types {
        continue;
      }
      if !ScheduleMatches(answer[i], e) {
        continue;
      }
      FirstMatchIs(answer, (r: Rule) => ServiceMatches(r, e), Some(i));
      return Some(i);
    }
    FirstMatchIs(answer, (r: Rule) => ServiceMatches(r, e), None);
    return None;
  }

  method MatchForConsumer(answer: seq<Rule>, e: Event) returns (choice: Option<nat>)
    ensures choice == ConsumerChoice(answer, e)
  {
    choice := None;
    for i := 0 to |answer|
      invariant choice == None && forall n | 0 <= n < i :: !TypeMatches(answer[n], e)
    {
      if answer[i].types != {} && e.kind !in answer[i].types {
        continue;
      }
      choice := Some(i);
      break;
    }
    FirstMatchIs(answer, (r: Rule) => TypeMatches(r, e), choice);
  }

  ghost predicate IsFirst(answer: seq<Rule>, accepts: Rule -> bool, choice: Option<nat>)
  {
    match choice
    case Some(i) => i < |answer| && accepts(answer[i]) && forall n | 0 <= n < i :: !accepts(answer[n])
    case None => forall n | 0 <= n < |answer| :: !accepts(answer[n])
  }

  lemma {:induction false} FirstMatchIs(answer: seq<Rule>, accepts: Rule -> bool, choice: Option<nat>)
    ensures FirstMatch(answer, accepts) == choice <==> IsFirst(answer, accepts, choice)
  {
    FirstMatchFinds(answer, accepts);
    if IsFirst(answer, accepts, choice) {
      match (choice, FirstMatch(answer, accepts)) {
        case (Some(i), Some(j)) => assert !(i < j) && !(j < i);
        case _ =>
      }
    }
  }

  lemma {:induction false} FirstMatchFinds(answer: seq<Rule>, accepts: Rule -> bool)
    ensures IsFirst(answer, accepts, FirstMatch(answer, accepts))
  {
    if answer != [] && !accepts(answer[0]) {
      FirstMatchFinds(answer[1..], accepts);
      assert forall n | 0 < n < |answer| :: answer[n] == answer[1..][n - 1];
    }
  }

  // ── What is chosen ─────────────────────────────────────────────────────────

  /** A rule of the table that an event may get, and that comes no later than any other it may get. */
  ghost predicate Earliest(rules: seq<Rule>, e: Event, accepts: Rule -> bool, r: Rule)
  {
    && r in rules && Candidate(r, e) && accepts(r)
    && forall other | other in rules && Candidate(other, e) && accepts(other) :: Before(r, other)
  }

  /** Whatever order ties come in, the first match is an earliest one, and there is one whenever some rule matches. */
  lemma FirstMatchIsEarliest(rules: seq<Rule>, e: Event, answer: seq<Rule>, accepts: Rule -> bool)
    requires RuleQuery(rules, e, answer)
    ensures match FirstMatch(answer, accepts)
      case Some(i) => i < |answer| && Earliest(rules, e, accepts, answer[i])
      case None => forall r | r in rules && Candidate(r, e) :: !accepts(r)
  {
    var wanted := (r: Rule) => Candidate(r, e);
    WhereMembers(rules, wanted);
    FirstMatchFinds(answer, accepts);
    forall r ensures r in answer <==> r in rules && Candidate(r, e) {
      assert r in answer <==> r in multiset(answer);
      assert r in Where(rules, wanted) <==> r in multiset(Where(rules, wanted));
    }
    var choice := FirstMatch(answer, accepts);
    if choice.Some? {
      var i := choice.value;
      assert answer[i] in answer;
      forall other | other in rules && Candidate(other, e) && accepts(other) ensures Before(answer[i], other) {
        assert other in answer;
        var n :| 0 <= n < |answer| && answer[n] == other;
      }
    } else {
      forall r | r in rules && Candidate(r, e) ensures !accepts(r) {
        assert r in answer;
      }
    }
  }

  lemma ServiceChoosesEarliest(rules: seq<Rule>, e: Event, answer: seq<Rule>)
    requires RuleQuery(rules, e, answer)
    ensures match ServiceChoice(answer, e)
      case Some(i) => i < |answer| && Earliest(rules, e, (r: Rule) => ServiceMatches(r, e), answer[i])
      case None => forall r | r in rules && Candidate(r, e) :: !ServiceMatches(r, e)
  {
    FirstMatchIsEarliest(rules, e, answer, (r: Rule) => ServiceMatches(r, e));
  }

  lemma ConsumerChoosesEarliest(rules: seq<Rule>, e: Event, answer: seq<Rule>)
    requires RuleQuery(rules, e, answer)
    ensures match ConsumerChoice(answer, e)
      case Some(i) => i < |answer| && Earliest(rules, e, (r: Rule) => TypeMatches(r, e), answer[i])
      case None => forall r | r in rules && Candidate(r, e) :: !TypeMatches(r, e)
  {
    FirstMatchIsEarliest(rules, e, answer, (r: Rule) => TypeMatches(r, e));
  }

  /**
   The two loops on the same list: the consumer finds a rule whenever the service does, and no later; they agree
   exactly when the consumer's rule is in season, so always when no candidate has a schedule.
   */
  lemma ConsumerAgainstService(answer: seq<Rule>, e: Event)
    ensures var c, s := ConsumerChoice(answer, e), ServiceChoice(answer, e);
      && (c.Some? ==> c.value < |answer|)
      && (s.Some? ==> c.Some? && c.value <= s.value)
      && (c == s <==> (c.Some? ==> ScheduleMatches(answer[c.value], e)))
      && ((forall r | r in answer :: r.schedule.None?) ==> c == s)
  {
    FirstMatchFinds(answer, (r: Rule) => TypeMatches(r, e));
    FirstMatchFinds(answer, (r: Rule) => ServiceMatches(r, e));
    var c := ConsumerChoice(answer, e);
    if c.Some? && ScheduleMatches(answer[c.value], e) {
      FirstMatchIs(answer, (r: Rule) => ServiceMatches(r, e), c);
    }
  }

  /** The same when the two run their own query: the consumer's rule never ranks after the service's. */
  lemma ConsumerNeverRanksAfter(rules: seq<Rule>, e: Event, mine: seq<Rule>, theirs: seq<Rule>)
    requires RuleQuery(rules, e, mine) && RuleQuery(rules, e, theirs)
    ensures var c, s := ConsumerChoice(mine, e), ServiceChoice(theirs, e);
      && (c.Some? ==> c.value < |mine|) && (s.Some? ==> s.value < |theirs|)
      && (s.Some? ==> c.Some? && Before(mine[c.value], theirs[s.value]))
  {
    ConsumerChoosesEarliest(rules, e, mine);
    ServiceChoosesEarliest(rules, e, theirs);
  }

  // ── The choice in plain terms ──────────────────────────────────────────────

  /** What a rule must be to apply to an event, its schedule aside. */
  predicate Applies(r: Rule, e: Event)
  {
    && r.enabled
    && (r.camera.None? || r.camera.value == e.camera)
    && (r.types == {} || e.kind in r.types)
  }

  /** A schedule admits an event on its days and within its window, on the circle of a day; what it does not say it does not restrict. */
  predicate Admits(r: Rule, e: Event, day: int)
    requires day > 0
  {
    match r.schedule
    case None => true
    case Some(Schedule(days, window)) =>
      && (days.None? || e.weekday in days.value)
      && (window.None? || (e.time - window.value.0) % day <= (window.value.1 - window.value.0) % day)
  }

  predicate OnTheClock(r: Rule, e: Event, day: int)
  {
    && 0 <= e.time < day
    && (r.schedule.Some? && r.schedule.value.window.Some? ==>
          0 <= r.schedule.value.window.value.0 < day && 0 <= r.schedule.value.window.value.1 < day)
  }

  lemma ServiceMatchesIff(r: Rule, e: Event, day: int)
    requires OnTheClock(r, e, day)
    ensures Candidate(r, e) && ServiceMatches(r, e) <==> Applies(r, e) && Admits(r, e, day)
    ensures Candidate(r, e) && TypeMatches(r, e) <==> Applies(r, e)
  {
    if r.schedule.Some? && r.schedule.value.window.Some? {
      WindowIsAnArc(r.schedule.value.window.value.0, r.schedule.value.window.value.1, e.time, day);
    }
  }

  /** A rule of one camera goes before a global one; of two of a kind the older goes first. */
  predicate NotAfter(a: Rule, b: Rule)
  {
    (b.camera.Some? ==> a.camera.Some?) && (a.camera.Some? == b.camera.Some? ==> a.created <= b.created)
  }

  /** The service's rule, without its vocabulary: one that applies and admits the event, and none such goes before it. */
  lemma ServiceRuleIs(rules: seq<Rule>, e: Event, answer: seq<Rule>, day: int)
    requires RuleQuery(rules, e, answer) && day > 0 && forall r | r in rules :: OnTheClock(r, e, day)
    ensures match ServiceChoice(answer, e)
      case Some(i) =>
        && i < |answer| && answer[i] in rules && Applies(answer[i], e) && Admits(answer[i], e, day)
        && forall r | r in rules && Applies(r, e) && Admits(r, e, day) :: NotAfter(answer[i], r)
      case None => forall r | r in rules :: !(Applies(r, e) && Admits(r, e, day))
  {
    ServiceChoosesEarliest(rules, e, answer);
    forall r | r in rules ensures Candidate(r, e) && ServiceMatches(r, e) <==> Applies(r, e) && Admits(r, e, day) {
      ServiceMatchesIff(r, e, day);
    }
  }

  /** And the consumer's: the same without the schedule. */
  lemma ConsumerRuleIs(rules: seq<Rule>, e: Event, answer: seq<Rule>)
    requires RuleQuery(rules, e, answer)
    ensures match ConsumerChoice(answer, e)
      case Some(i) =>
        && i < |answer| && answer[i] in rules && Applies(answer[i], e)
        && forall r | r in rules && Applies(r, e) :: NotAfter(answer[i], r)
      case None => forall r | r in rules :: !Applies(r, e)
  {
    ConsumerChoosesEarliest(rules, e, answer);
  }
}
