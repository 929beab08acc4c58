/** Small vocabulary shared by the other modules: optional values and the shape of a database query. */
module Prelude {

  datatype Option<+T> = None | Some(value: T)

  function Min(a: int, b: int): int { if a <= b then a else b }

  function Max(a: int, b: int): int { if a >= b then a else b }

  /** The rows of a table that satisfy a WHERE clause, in table order. */
  function Where<T>(rows: seq<T>, keep: T -> bool): seq<T>
  {
    if rows == [] then []
    else (if keep(rows[0]) then [rows[0]] else []) + Where(rows[1..], keep)
  }

  ghost predicate SortedBy<T>(s: seq<T>, key: T -> int)
  {
    forall i, j | 0 <= i < j < |s| :: key(s[i]) <= key(s[j])
  }

  /** `answer` is a possible result of SELECT ... WHERE keep ORDER BY key: rows that tie may come in any order. */
  ghost predicate Answers<T>(rows: seq<T>, keep: T -> bool, key: T -> int, answer: seq<T>)
  {
    multiset(answer) == multiset(Where(rows, keep)) && SortedBy(answer, key)
  }

  lemma {:induction false} WhereMembers<T>(rows: seq<T>, keep: T -> bool)
    ensures forall x :: x in Where(rows, keep) <==> x in rows && keep(x)
  {
    if rows != [] {
      WhereMembers(rows[1..], keep);
      assert rows == [rows[0]] + rows[1..];
    }
  }

  lemma AnswerMembers<T>(rows: seq<T>, keep: T -> bool, key: T -> int, answer: seq<T>)
    requires Answers(rows, keep, key, answer)
    ensures forall x :: x in answer <==> x in rows && keep(x)
  {
    WhereMembers(rows, keep);
    forall x ensures x in answer <==> x in Where(rows, keep) {
      assert x in answer <==> x in multiset(answer);
      assert x in Where(rows, keep) <==> x in multiset(Where(rows, keep));
    }
  }

  // ── Daily windows ──────────────────────────────────────────────────────────

  /** A window between two times of day; when it ends before it starts it runs over midnight. Both ends belong to it. */
  predicate InWindow(start: int, end: int, time: int)
  {
    if start <= end then start <= time <= end else time >= start || time <= end
  }

  /** On the circle of a day the window is what lies no further after its start than its end does. */
  lemma WindowIsAnArc(start: int, end: int, time: int, day: int)
    requires 0 <= start < day && 0 <= end < day && 0 <= time < day
    ensures InWindow(start, end, time) <==> (time - start) % day <= (end - start) % day
  {
    WrapsOnce(time - start, day);
    WrapsOnce(end - start, day);
  }

  lemma WrapsOnce(d: int, day: int)
    requires -day < d < day
    ensures d % day == if d >= 0 then d else d + day
  {
    if d < 0 {
      assert d + day == (d + day) % day;
      assert d == -1 * day + (d + day);
    }
  }
}
