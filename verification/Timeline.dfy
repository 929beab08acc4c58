/**
 The day timeline of one camera: the sweep that finds the gaps between recorded segments, and the covered seconds.
 Instants are integers; an interval holds the instants from its start up to, not including, its end.
 */
module Timeline {
  import opened Prelude

  /** A row of the segment table; `end` is missing while the segment is still open. */
  datatype Row = Row(file: string, start: int, end: Option<int>)

  datatype Segment = Segment(start: int, end: int)

  datatype Gap = Gap(start: int, end: int)

  datatype Day = Day(start: int, end: int)

  predicate ValidDay(day: Day) { day.start < day.end }

  // ── The sweep ──────────────────────────────────────────────────────────────

  predicate Covers(s: Segment, t: int) { s.start <= t < s.end }

  predicate Covered(segments: seq<Segment>, t: int) { exists i | 0 <= i < |segments| :: Covers(segments[i], t) }

  predicate InGap(gaps: seq<Gap>, t: int) { exists i | 0 <= i < |gaps| :: gaps[i].start <= t < gaps[i].end }

  /** Sorted, non-empty, pairwise disjoint intervals inside the day. */
  ghost predicate WellSpaced(gaps: seq<Gap>, day: Day)
  {
    && (forall i | 0 <= i < |gaps| :: day.start <= gaps[i].start < gaps[i].end <= day.end)
    && (forall i, j | 0 <= i < j < |gaps| :: gaps[i].end <= gaps[j].start)
  }

  /** The rows the timeline query selects: well formed, overlapping the day, in order of their start. */
  ghost predicate Selected(segments: seq<Segment>, day: Day)
  {
    && (forall i | 0 <= i < |segments| :: segments[i].start <= segments[i].end && segments[i].start < day.end && segments[i].end > day.start)
    && (forall i, j | 0 <= i < j < |segments| :: segments[i].start <= segments[j].start)
  }

  function Length(gaps: seq<Gap>): int
  {
    if gaps == [] then 0 else Length(gaps[..|gaps| - 1]) + gaps[|gaps| - 1].end - gaps[|gaps| - 1].start
  }

  /** How many instants of lo..hi no segment covers. */
  function Uncovered(segments: seq<Segment>, lo: int, hi: int): nat
    decreases hi - lo
  {
    if hi <= lo then 0 else Uncovered(segments, lo, hi - 1) + if Covered(segments, hi - 1) then 0 else 1
  }

  lemma LengthAppend(gaps: seq<Gap>, g: Gap)
    ensures Length(gaps + [g]) == Length(gaps) + g.end - g.start
  {
    assert (gaps + [g])[..|gaps|] == gaps;
  }

  /** Over a stretch that is covered everywhere, or nowhere, the count of uncovered instants is what it should be. */
  lemma {:induction false} UncoveredUniform(segments: seq<Segment>, lo: int, mid: int, hi: int, covered: bool)
    requires lo <= mid <= hi && forall t | mid <= t < hi :: Covered(segments, t) == covered
    ensures Uncovered(segments, lo, hi) == Uncovered(segments, lo, mid) + if covered then 0 else hi - mid
    decreases hi - mid
  {
    if mid < hi {
      UncoveredUniform(segments, lo, mid, hi - 1, covered);
    }
  }

  /** What the sweep knows after the first n segments: everything before `cursor` is settled, the rest is untouched by them. */
  ghost predicate Swept(segments: seq<Segment>, n: nat, day: Day, cursor: int, gaps: seq<Gap>)
    requires n <= |segments|
  {
    && day.start <= cursor <= day.end
    && WellSpaced(gaps, day)
    && (gaps != [] ==> gaps[|gaps| - 1].end <= cursor)
    && (forall i | 0 <= i < n :: Min(segments[i].end, day.end) <= cursor)
    && (forall t | day.start <= t < cursor :: InGap(gaps, t) <==> !Covered(segments, t))
    && Length(gaps) == Uncovered(segments, day.start, cursor)
  }

  lemma InGapAppend(gaps: seq<Gap>, g: Gap, t: int)
    ensures InGap(gaps + [g], t) <==> InGap(gaps, t) || g.start <= t < g.end
  {
    var all := gaps + [g];
    assert all[|gaps|] == g;
    assert forall i | 0 <= i < |gaps| :: all[i] == gaps[i];
    if InGap(gaps, t) {
      var i :| 0 <= i < |gaps| && gaps[i].start <= t < gaps[i].end;
      assert all[i].start <= t < all[i].end;
    }
  }

  /** A gap is opened where nothing swept so far reaches and nothing to come begins. */
  lemma SweepGap(segments: seq<Segment>, n: nat, day: Day, cursor: int, gaps: seq<Gap>, next: int)
    requires ValidDay(day) && Selected(segments, day) && n <= |segments| && Swept(segments, n, day, cursor, gaps)
    requires cursor < next <= day.end && forall i | n <= i < |segments| :: next <= segments[i].start
    ensures Swept(segments, n, day, next, gaps + [Gap(cursor, next)])
  {
    forall t | cursor <= t < next ensures !Covered(segments, t) {
      forall i | 0 <= i < |segments| ensures !Covers(segments[i], t) {
        if i < n { assert Min(segments[i].end, day.end) <= cursor; }
      }
    }
    UncoveredUniform(segments, day.start, cursor, next, false);
    LengthAppend(gaps, Gap(cursor, next));
    forall t | day.start <= t < next ensures InGap(gaps + [Gap(cursor, next)], t) <==> !Covered(segments, t) {
      InGapAppend(gaps, Gap(cursor, next), t);
      if t >= cursor {
        assert !Covered(segments, t);
      }
    }
    SpacedAppend(gaps, day, Gap(cursor, next));
  }

  lemma SpacedAppend(gaps: seq<Gap>, day: Day, g: Gap)
    requires WellSpaced(gaps, day) && (gaps != [] ==> gaps[|gaps| - 1].end <= g.start)
    requires day.start <= g.start < g.end <= day.end
    ensures WellSpaced(gaps + [g], day)
  {
    var all := gaps + [g];
    forall i | 0 <= i < |gaps| ensures all[i].end <= g.start {
      assert i < |gaps| - 1 ==> gaps[i].end <= gaps[|gaps| - 1].start;
    }
  }

  lemma SweepSegment(segments: seq<Segment>, n: nat, day: Day, cursor: int, gaps: seq<Gap>)
    requires ValidDay(day) && Selected(segments, day) && n < |segments| && Swept(segments, n, day, cursor, gaps)
    requires Max(segments[n].start, day.start) <= cursor
    ensures Swept(segments, n + 1, day, Max(cursor, Min(segments[n].end, day.end)), gaps)
  {
    var next := Max(cursor, Min(segments[n].end, day.end));
    forall t | cursor <= t < next ensures Covered(segments, t) && !InGap(gaps, t) {
      assert Covers(segments[n], t);
      forall i | 0 <= i < |gaps| ensures gaps[i].end <= cursor {
        assert i < |gaps| - 1 ==> gaps[i].end <= gaps[|gaps| - 1].start;
      }
    }
    UncoveredUniform(segments, day.start, cursor, next, true);
  }

  lemma EmptyDay(day: Day)
    requires ValidDay(day)
    ensures var gaps := [Gap(day.start, day.end)];
      && WellSpaced(gaps, day)
      && (forall t | day.start <= t < day.end :: InGap(gaps, t))
      && Length(gaps) == Uncovered([], day.start, day.end)
  {
    var g := Gap(day.start, day.end);
    UncoveredUniform([], day.start, day.start, day.end, false);
    LengthAppend([], g);
    assert [] + [g] == [g];
    forall t | day.start <= t < day.end ensures InGap([g], t) {
      InGapAppend([], g, t);
    }
  }

  /**
   The gaps of a day are exactly its uncovered instants, as sorted, non-empty, disjoint intervals, and their total
   length is the number of those instants.
   */
  method FindGaps(segments: seq<Segment>, day: Day) returns (gaps: seq<Gap>)
    requires ValidDay(day) && Selected(segments, day)
    ensures WellSpaced(gaps, day)
    ensures forall t | day.start <= t < day.end :: InGap(gaps, t) <==> !Covered(segments, t)
    ensures Length(gaps) == Uncovered(segments, day.start, day.end)
  {
    if segments == [] {
      EmptyDay(day);
      return [Gap(day.start, day.end)];
    }
    gaps := [];
    var cursor := day.start;
    for n := 0 to |segments|
      invariant Swept(segments, n, day, cursor, gaps)
    {
      var start := Max(segments[n].start, day.start);
      ghost var settled := cursor;
      if start > cursor {
        SweepGap(segments, n, day, cursor, gaps, start);
        gaps := gaps + [Gap(cursor, start)];
        settled := start;
      }
      SweepSegment(segments, n, day, settled, gaps);
      cursor := Max(cursor, Min(segments[n].end, day.end));
    }
    if cursor < day.end {
      SweepGap(segments, |segments|, day, cursor, gaps, day.end);
      gaps := gaps + [Gap(cursor, day.end)];
    }
  }

  // ── Conservation of the day ────────────────────────────────────────────────

  function Clipped(s: Segment, day: Day): int { Min(s.end, day.end) - Max(s.start, day.start) }

  function CoveredSeconds(segments: seq<Segment>, day: Day): int
  {
    if segments == [] then 0
    else CoveredSeconds(segments[..|segments| - 1], day) + Clipped(segments[|segments| - 1], day)
  }

  /** How many segments cover an instant. */
  function Depth(segments: seq<Segment>, t: int): nat
  {
    if segments == [] then 0
    else Depth(segments[..|segments| - 1], t) + if Covers(segments[|segments| - 1], t) then 1 else 0
  }

  function TotalDepth(segments: seq<Segment>, lo: int, hi: int): nat
    decreases hi - lo
  {
    if hi <= lo then 0 else TotalDepth(segments, lo, hi - 1) + Depth(segments, hi - 1)
  }

  ghost predicate NoOverlap(segments: seq<Segment>, day: Day)
  {
    forall t, i, j {:trigger Covers(segments[i], t), Covers(segments[j], t)} |
      day.start <= t < day.end && 0 <= i < j < |segments| :: !(Covers(segments[i], t) && Covers(segments[j], t))
  }

  ghost predicate Shallow(segments: seq<Segment>, lo: int, hi: int)
  {
    forall t | lo <= t < hi :: Depth(segments, t) <= 1
  }

  lemma {:induction false} DepthIsCovering(segments: seq<Segment>, t: int)
    ensures Depth(segments, t) >= 1 <==> Covered(segments, t)
    ensures Depth(segments, t) >= 2 <==> exists i, j :: 0 <= i < j < |segments| && Covers(segments[i], t) && Covers(segments[j], t)
  {
    if segments != [] {
      var n := |segments| - 1;
      var before := segments[..n];
      DepthIsCovering(before, t);
      assert forall i | 0 <= i < n :: before[i] == segments[i];
      if Covered(before, t) {
        var i :| 0 <= i < n && Covers(before[i], t);
        assert Covers(segments[i], t);
      }
      if exists i, j :: 0 <= i < j < n && Covers(before[i], t) && Covers(before[j], t) {
        var i, j :| 0 <= i < j < n && Covers(before[i], t) && Covers(before[j], t);
        assert Covers(segments[i], t) && Covers(segments[j], t);
      }
    }
  }

  /** Adding one segment adds its clipped length to the total depth. */
  lemma {:induction false} TotalDepthOfOneMore(segments: seq<Segment>, s: Segment, lo: int, hi: int)
    requires s.start <= s.end && lo <= hi
    ensures TotalDepth(segments + [s], lo, hi) == TotalDepth(segments, lo, hi) + Max(0, Min(s.end, hi) - Max(s.start, lo))
    decreases hi - lo
  {
    if lo < hi {
      TotalDepthOfOneMore(segments, s, lo, hi - 1);
      assert (segments + [s])[..|segments|] == segments;
    }
  }

  lemma {:induction false} CoveredSecondsIsTotalDepth(segments: seq<Segment>, day: Day)
    requires ValidDay(day) && Selected(segments, day)
    ensures CoveredSeconds(segments, day) == TotalDepth(segments, day.start, day.end)
  {
    if segments == [] {
      EmptyHasNoDepth(day.start, day.end);
    } else {
      var n := |segments| - 1;
      CoveredSecondsIsTotalDepth(segments[..n], day);
      TotalDepthOfOneMore(segments[..n], segments[n], day.start, day.end);
      assert segments[..n] + [segments[n]] == segments;
    }
  }

  lemma {:induction false} EmptyHasNoDepth(lo: int, hi: int)
    ensures TotalDepth([], lo, hi) == 0
    decreases hi - lo
  {
    if lo < hi {
      EmptyHasNoDepth(lo, hi - 1);
    }
  }

  lemma {:induction false} DepthAgainstGaps(segments: seq<Segment>, lo: int, hi: int)
    requires lo <= hi
    ensures TotalDepth(segments, lo, hi) + Uncovered(segments, lo, hi) >= hi - lo
    ensures TotalDepth(segments, lo, hi) + Uncovered(segments, lo, hi) == hi - lo <==> Shallow(segments, lo, hi)
    decreases hi - lo
  {
    if lo < hi {
      DepthAgainstGaps(segments, lo, hi - 1);
      DepthIsCovering(segments, hi - 1);
      assert Shallow(segments, lo, hi) <==> Shallow(segments, lo, hi - 1) && Depth(segments, hi - 1) <= 1;
    }
  }

  lemma NoOverlapIsShallow(segments: seq<Segment>, day: Day)
    ensures NoOverlap(segments, day) <==> Shallow(segments, day.start, day.end)
  {
    if NoOverlap(segments, day) {
      forall t | day.start <= t < day.end ensures Depth(segments, t) <= 1 {
        DepthIsCovering(segments, t);
      }
    }
    if Shallow(segments, day.start, day.end) {
      forall t, i, j | day.start <= t < day.end && 0 <= i < j < |segments| ensures !(Covers(segments[i], t) && Covers(segments[j], t)) {
        DepthIsCovering(segments, t);
        assert Depth(segments, t) <= 1;
      }
    }
  }

  /** Covered seconds plus uncovered seconds is at least the day, and exactly the day when no two segments overlap in it. */
  lemma DayIsConserved(segments: seq<Segment>, day: Day)
    requires ValidDay(day) && Selected(segments, day)
    ensures var total := CoveredSeconds(segments, day) + Uncovered(segments, day.start, day.end);
      && total >= day.end - day.start
      && (total == day.end - day.start <==> NoOverlap(segments, day))
  {
    CoveredSecondsIsTotalDepth(segments, day);
    DepthAgainstGaps(segments, day.start, day.end);
    NoOverlapIsShallow(segments, day);
  }

  // ── From the segment table ─────────────────────────────────────────────────

  predicate Overlaps(r: Row, day: Day) { r.start < day.end && r.end.Some? && r.end.value > day.start }

  predicate RowCovers(r: Row, t: int) { r.end.Some? && r.start <= t < r.end.value }

  ghost predicate WellFormed(rows: seq<Row>) { forall r | r in rows && r.end.Some? :: r.start <= r.end.value }

  function Segments(rows: seq<Row>): (segments: seq<Segment>)
    requires forall r | r in rows :: r.end.Some?
    ensures |segments| == |rows| && forall i | 0 <= i < |rows| :: segments[i] == Segment(rows[i].start, rows[i].end.value)
  {
    seq(|rows|, i requires 0 <= i < |rows| => Segment(rows[i].start, rows[i].end.value))
  }

  /** `answer` is a possible result of the timeline query for a day. */
  ghost predicate TimelineQuery(rows: seq<Row>, day: Day, answer: seq<Row>)
  {
    Answers(rows, (r: Row) => Overlaps(r, day), (r: Row) => r.start, answer)
  }

  lemma QuerySelects(rows: seq<Row>, day: Day, answer: seq<Row>)
    requires WellFormed(rows) && TimelineQuery(rows, day, answer)
    ensures forall r :: r in answer <==> r in rows && Overlaps(r, day)
    ensures Selected(Segments(answer), day)
  {
    AnswerMembers(rows, (r: Row) => Overlaps(r, day), (r: Row) => r.start, answer);
    assert forall i | 0 <= i < |answer| :: answer[i] in answer;
    var key := (r: Row) => r.start;
    assert forall i, j | 0 <= i < j < |answer| :: key(answer[i]) <= key(answer[j]);
  }

  /**
   The timeline of a day, whatever is in the table and however the query orders ties: an instant lies in a gap
   exactly when no closed row covers it, and coverage and gaps make up the day unless rows overlap.
   */
  method GetTimeline(rows: seq<Row>, day: Day, answer: seq<Row>) returns (gaps: seq<Gap>, covered: int)
    requires ValidDay(day) && WellFormed(rows) && TimelineQuery(rows, day, answer)
    ensures WellSpaced(gaps, day)
    ensures forall t | day.start <= t < day.end :: InGap(gaps, t) <==> !exists r | r in rows :: RowCovers(r, t)
    ensures forall r | r in answer :: r.end.Some?
    ensures covered == TotalDepth(Segments(answer), day.start, day.end)
    ensures covered + Length(gaps) >= day.end - day.start
    ensures covered + Length(gaps) == day.end - day.start <==>
      forall i, j, t | 0 <= i < j < |answer| && day.start <= t < day.end :: !(RowCovers(answer[i], t) && RowCovers(answer[j], t))
  {
    QuerySelects(rows, day, answer);
    var segments := Segments(answer);
    gaps := FindGaps(segments, day);
    covered := CoveredSeconds(segments, day);
    CoveredSecondsIsTotalDepth(segments, day);
    DayIsConserved(segments, day);
    forall t | day.start <= t < day.end ensures Covered(segments, t) <==> exists r | r in rows :: RowCovers(r, t) {
      if Covered(segments, t) {
        var i :| 0 <= i < |segments| && Covers(segments[i], t);
        assert answer[i] in rows && RowCovers(answer[i], t);
      }
      if r :| r in rows && RowCovers(r, t) {
        assert r in answer;
        var i :| 0 <= i < |answer| && answer[i] == r;
        assert Covers(segments[i], t);
      }
    }
    assert forall i, t | 0 <= i < |answer| :: Covers(segments[i], t) <==> RowCovers(answer[i], t);
  }
}
