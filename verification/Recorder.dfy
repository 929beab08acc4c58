/**
 The recording task: it follows the recorder's log, writes one row per finished segment file, and gives up at the
 tenth stream error. Log lines arrive already classified; file checks and clock readings are inputs.
 */
module Recorder {
  import opened Prelude
  import opened Timeline

  const MAX_ERRORS := 10

  /** Closing a segment: what the two successive existence checks saw, and the clock when the row is written. */
  datatype Closing = Closing(listed: bool, stillThere: bool, at: int)

  /** A line of the log. `file` is missing when the line announces a segment without quoting its name. */
  datatype Line =
    | Quiet
    | Opened(file: Option<string>, previous: Closing, at: int)
    | StreamError
    | Reconnecting
    | CleanExit

  /** The task's variables: the open segment, its start, and the errors seen so far. */
  datatype Recording = Recording(path: Option<string>, start: int, errors: nat, rows: seq<Row>)

  function CloseSegment(r: Recording, c: Closing): Recording
  {
    if r.path.Some? && c.listed && c.stillThere
    then r.(rows := r.rows + [Row(r.path.value, r.start, Some(c.at))])
    else r
  }

  datatype Flow = Continue | Leave | Abort

  function Follow(r: Recording, line: Line): (Recording, Flow)
  {
    match line
    case Quiet => (r, Continue)
    case Reconnecting => (r, Continue)
    case CleanExit => (r, Leave)
    case StreamError => (r.(errors := r.errors + 1), if r.errors + 1 >= MAX_ERRORS then Abort else Continue)
    case Opened(file, previous, at) =>
      var closed := CloseSegment(r, previous);
      (if file.Some? then closed.(path := file, start := at) else closed, Continue)
  }

  /** A whole run: the lines in order until one ends it, then the last segment is closed, unless errors ended it. */
  function Record(r: Recording, lines: seq<Line>, last: Closing): (Recording, bool)
    decreases lines
  {
    if lines == [] then (CloseSegment(r, last), false)
    else
      var (next, flow) := Follow(r, lines[0]);
      match flow
      case Continue => Record(next, lines[1..], last)
      case Leave => (CloseSegment(next, last), false)
      case Abort => (next, true)
  }

  class RecordingWorker {
    var running: set<string>
    var rows: seq<Row>

    constructor ()
      ensures running == {} && rows == []
    {
      running, rows := {}, [];
    }

    method Close(path: Option<string>, start: int, c: Closing)
      modifies this`rows
      ensures rows == CloseSegment(Recording(path, start, 0, old(rows)), c).rows
    {
      if path.Some? && c.listed {
        if !c.stillThere {
          return;
        }
        rows := rows + [Row(path.value, start, Some(c.at))];
      }
    }

    /** `alive`: the camera's registered process still runs; `launched`: the camera is set to record and its process started. */
    method StartRecording(camera: string, alive: bool, launched: bool, now: int, lines: seq<Line>, last: Closing) returns (aborted: bool)
      modifies this
      ensures (camera in old(running) && alive) || !launched ==> running == old(running) && rows == old(rows) && !aborted
      ensures !(camera in old(running) && alive) && launched ==>
        && running == old(running) - {camera}
        && rows == Record(Recording(None, now, 0, old(rows)), lines, last).0.rows
        && aborted == Record(Recording(None, now, 0, old(rows)), lines, last).1
    {
      if (camera in running && alive) || !launched {
        return false;
      }
      running := running + {camera};
      var path: Option<string>, start, errors: nat, i := None, now, 0, 0;
      while i < |lines|
        invariant i <= |lines| && running == old(running) + {camera}
        invariant Record(Recording(path, start, errors, rows), lines[i..], last) == Record(Recording(None, now, 0, old(rows)), lines, last)
      {
        assert lines[i..][1..] == lines[i + 1..];
        match lines[i] {
          case Opened(file, previous, at) =>
            Close(path, start, previous);
            if file.Some? {
              path, start := file, at;
            }
          case StreamError =>
            errors := errors + 1;
            if errors >= MAX_ERRORS {
              running := running - {camera};
              return true;
            }
          case CleanExit => break;
          case _ =>
        }
        i := i + 1;
      }
      running := running - {camera};
      Close(path, start, last);
      return false;
    }
  }

  // ── One row per file ───────────────────────────────────────────────────────

  predicate Named(lines: seq<Line>) { forall line | line in lines && line.Opened? :: line.file.Some? }

  function CountErrors(lines: seq<Line>): nat
  {
    if lines == [] then 0 else CountErrors(lines[1..]) + if lines[0].StreamError? then 1 else 0
  }

  /** The lines up to the first clean exit. */
  function BeforeExit(lines: seq<Line>): seq<Line>
  {
    if lines == [] || lines[0].CleanExit? then [] else [lines[0]] + BeforeExit(lines[1..])
  }

  /** The lines up to the one that brings the errors to `budget`. */
  function WithinBudget(lines: seq<Line>, budget: nat): seq<Line>
  {
    if lines == [] || budget == 0 then []
    else [lines[0]] + WithinBudget(lines[1..], if lines[0].StreamError? then budget - 1 else budget)
  }

  /** The lines the task reads: errors are counted over the whole run, nothing between them resets the count. */
  function Heard(lines: seq<Line>, budget: nat): seq<Line> { WithinBudget(BeforeExit(lines), budget) }

  /** An announced file, with the check that closes whatever was open before it. */
  datatype Opening = Opening(file: string, previous: Closing, at: int)

  function Openings(lines: seq<Line>): seq<Opening>
  {
    if lines == [] then []
    else
      (match lines[0]
       case Opened(Some(file), previous, at) => [Opening(file, previous, at)]
       case _ => [])
      + Openings(lines[1..])
  }

  function RowIf(file: string, start: int, closing: Option<Closing>): seq<Row>
  {
    match closing
    case Some(Closing(true, true, at)) => [Row(file, start, Some(at))]
    case _ => []
  }

  /** One row per opened file that exists when the next opening, or the end of the run, closes it. */
  function RowsOf(openings: seq<Opening>, last: Option<Closing>): seq<Row>
  {
    if openings == [] then []
    else
      RowIf(openings[0].file, openings[0].at, if |openings| > 1 then Some(openings[1].previous) else last)
      + RowsOf(openings[1..], last)
  }

  /** The same with a segment already open. */
  function RowsFrom(r: Recording, openings: seq<Opening>, last: Option<Closing>): seq<Row>
  {
    (if r.path.Some? then RowIf(r.path.value, r.start, if openings != [] then Some(openings[0].previous) else last) else [])
    + RowsOf(openings, last)
  }

  lemma OpeningsHead(line: Line, rest: seq<Line>, budget: nat)
    requires !line.CleanExit? && budget > 0
    ensures var left := if line.StreamError? then budget - 1 else budget;
      && Heard([line] + rest, budget) == [line] + Heard(rest, left)
      && Openings(Heard([line] + rest, budget)) == Openings([line]) + Openings(Heard(rest, left))
  {
    assert ([line] + rest)[1..] == rest;
    var left := if line.StreamError? then budget - 1 else budget;
    assert BeforeExit([line] + rest)[1..] == BeforeExit(rest);
    assert Heard([line] + rest, budget)[1..] == Heard(rest, left);
    assert [line][1..] == [];
  }

  lemma OpenedStep(r: Recording, o: Opening, rest: seq<Opening>, last: Option<Closing>)
    ensures var next := CloseSegment(r, o.previous).(path := Some(o.file), start := o.at);
      r.rows + RowsFrom(r, [o] + rest, last) == next.rows + RowsFrom(next, rest, last)
  {
    assert ([o] + rest)[1..] == rest;
    var next := CloseSegment(r, o.previous).(path := Some(o.file), start := o.at);
    assert RowsOf([o] + rest, last) == RowsFrom(next, rest, last);
  }

  /** Errors end a run exactly when the tenth of the whole run comes before a clean exit. */
  lemma {:induction false} TenthErrorAborts(r: Recording, lines: seq<Line>, last: Closing)
    requires r.errors < MAX_ERRORS
    ensures Record(r, lines, last).1 == (r.errors + CountErrors(BeforeExit(lines)) >= MAX_ERRORS)
    decreases lines
  {
    if lines != [] && !lines[0].CleanExit? {
      assert BeforeExit(lines)[1..] == BeforeExit(lines[1..]);
      var (next, flow) := Follow(r, lines[0]);
      if flow.Continue? {
        TenthErrorAborts(next, lines[1..], last);
      }
    }
  }

  /** The openings a run reads are those of its first line and of the rest. */
  lemma OpeningsUnfold(r: Recording, lines: seq<Line>)
    requires lines != [] && r.errors < MAX_ERRORS && Follow(r, lines[0]).1.Continue?
    ensures var next := Follow(r, lines[0]).0;
      Openings(Heard(lines, MAX_ERRORS - r.errors)) == Openings([lines[0]]) + Openings(Heard(lines[1..], MAX_ERRORS - next.errors))
  {
    assert lines == [lines[0]] + lines[1..];
    OpeningsHead(lines[0], lines[1..], MAX_ERRORS - r.errors);
  }

  lemma AbortHearsNothing(r: Recording, lines: seq<Line>)
    requires lines != [] && r.errors < MAX_ERRORS && Follow(r, lines[0]).1.Abort?
    ensures Openings(Heard(lines, MAX_ERRORS - r.errors)) == []
  {
    assert lines == [lines[0]] + lines[1..];
    OpeningsHead(lines[0], lines[1..], MAX_ERRORS - r.errors);
    assert [lines[0]][1..] == [];
  }

  /** One line that does not end the run moves its openings, if any, from what is to come to what is written or open. */
  lemma LineWritesRows(r: Recording, lines: seq<Line>, closing: Option<Closing>)
    requires Named(lines) && lines != [] && r.errors < MAX_ERRORS && Follow(r, lines[0]).1.Continue?
    ensures var next := Follow(r, lines[0]).0;
      && next.errors < MAX_ERRORS
      && r.rows + RowsFrom(r, Openings(Heard(lines, MAX_ERRORS - r.errors)), closing)
         == next.rows + RowsFrom(next, Openings(Heard(lines[1..], MAX_ERRORS - next.errors)), closing)
  {
    var next := Follow(r, lines[0]).0;
    var rest := Openings(Heard(lines[1..], MAX_ERRORS - next.errors));
    OpeningsUnfold(r, lines);
    assert [lines[0]][1..] == [];
    if lines[0].Opened? {
      var o := Opening(lines[0].file.value, lines[0].previous, lines[0].at);
      assert Openings([lines[0]]) == [o];
      OpenedStep(r, o, rest, closing);
    } else {
      assert Openings([lines[0]]) + rest == rest;
    }
  }

  lemma {:induction false} RecordWritesRows(r: Recording, lines: seq<Line>, last: Closing)
    requires Named(lines) && r.errors < MAX_ERRORS
    ensures var (end, aborted) := Record(r, lines, last);
      end.rows == r.rows + RowsFrom(r, Openings(Heard(lines, MAX_ERRORS - r.errors)), if aborted then None else Some(last))
    decreases lines
  {
    if lines == [] || lines[0].CleanExit? {
      assert Openings(Heard(lines, MAX_ERRORS - r.errors)) == [];
    } else {
      var (next, flow) := Follow(r, lines[0]);
      if flow.Abort? {
        AbortHearsNothing(r, lines);
      } else {
        LineWritesRows(r, lines, if Record(r, lines, last).1 then None else Some(last));
        RecordWritesRows(next, lines[1..], last);
      }
    }
  }

  /**
   With every announced file named, a run writes exactly one row per file that is there when it is closed, in order,
   except the file open when the tenth error ends the run.
   */
  lemma OneRowPerFile(lines: seq<Line>, now: int, rows: seq<Row>, last: Closing)
    requires Named(lines)
    ensures var (end, aborted) := Record(Recording(None, now, 0, rows), lines, last);
      && aborted == (CountErrors(BeforeExit(lines)) >= MAX_ERRORS)
      && end.rows == rows + RowsOf(Openings(Heard(lines, MAX_ERRORS)), if aborted then None else Some(last))
  {
    TenthErrorAborts(Recording(None, now, 0, rows), lines, last);
    RecordWritesRows(Recording(None, now, 0, rows), lines, last);
  }

  // ── Rows in time order ─────────────────────────────────────────────────────

  ghost predicate RowsInOrder(rows: seq<Row>)
  {
    && (forall i | 0 <= i < |rows| :: rows[i].end.Some? && rows[i].start <= rows[i].end.value)
    && (forall i, j | 0 <= i < j < |rows| :: rows[i].end.Some? && rows[i].end.value <= rows[j].start)
  }

  ghost predicate EndBy(rows: seq<Row>, t: int) { forall r | r in rows && r.end.Some? :: r.end.value <= t }

  /** The clock never goes back from one reading of the run to the next. */
  predicate Clocked(since: int, lines: seq<Line>, last: Closing)
    decreases lines
  {
    if lines == [] then since <= last.at
    else if lines[0].Opened? then since <= lines[0].previous.at <= lines[0].at && Clocked(lines[0].at, lines[1..], last)
    else Clocked(since, lines[1..], last)
  }

  lemma CloseKeepsOrder(r: Recording, c: Closing)
    requires RowsInOrder(r.rows) && EndBy(r.rows, r.start) && r.start <= c.at
    ensures RowsInOrder(CloseSegment(r, c).rows) && EndBy(CloseSegment(r, c).rows, c.at)
  {
    forall i | 0 <= i < |r.rows| ensures r.rows[i].end.value <= r.start {
      assert r.rows[i] in r.rows;
    }
  }

  lemma {:induction false} RecordKeepsOrder(r: Recording, lines: seq<Line>, last: Closing)
    requires Named(lines) && Clocked(r.start, lines, last) && RowsInOrder(r.rows) && EndBy(r.rows, r.start)
    ensures var end := Record(r, lines, last).0; RowsInOrder(end.rows) && EndBy(end.rows, last.at)
    decreases lines
  {
    LastReading(r.start, lines, last);
    if lines == [] {
      CloseKeepsOrder(r, last);
    } else {
      var (next, flow) := Follow(r, lines[0]);
      if lines[0].Opened? {
        CloseKeepsOrder(r, lines[0].previous);
      }
      if flow.Continue? {
        RecordKeepsOrder(next, lines[1..], last);
      } else if flow.Leave? {
        CloseKeepsOrder(next, last);
      }
    }
  }

  lemma {:induction false} LastReading(since: int, lines: seq<Line>, last: Closing)
    requires Clocked(since, lines, last)
    ensures since <= last.at
    decreases lines
  {
    if lines != [] {
      LastReading(if lines[0].Opened? then lines[0].at else since, lines[1..], last);
    }
  }

  /** One run on a clock that never goes back leaves rows in time order that never overlap, and end by its last reading. */
  lemma RunWritesRowsInOrder(now: int, rows: seq<Row>, lines: seq<Line>, last: Closing)
    requires RowsInOrder(rows) && EndBy(rows, now) && Named(lines) && Clocked(now, lines, last)
    ensures var end := Record(Recording(None, now, 0, rows), lines, last).0; RowsInOrder(end.rows) && EndBy(end.rows, last.at)
  {
    RecordKeepsOrder(Recording(None, now, 0, rows), lines, last);
  }

  /** A run of the task: the clock when it starts, the log it follows, and the closing of its last segment. */
  datatype Job = Job(now: int, lines: seq<Line>, last: Closing)

  /** What a camera's runs, one after the other, write to the table. */
  function RecordAll(rows: seq<Row>, jobs: seq<Job>): seq<Row>
    decreases jobs
  {
    if jobs == [] then rows
    else RecordAll(Record(Recording(None, jobs[0].now, 0, rows), jobs[0].lines, jobs[0].last).0.rows, jobs[1..])
  }

  /** Every announcement is named, and the clock goes back neither within a run nor from one to the next. */
  predicate Orderly(since: int, jobs: seq<Job>)
    decreases jobs
  {
    jobs != [] ==>
      since <= jobs[0].now && Named(jobs[0].lines) && Clocked(jobs[0].now, jobs[0].lines, jobs[0].last) && Orderly(jobs[0].last.at, jobs[1..])
  }

  /** Run after run the rows stay in time order and never overlap. */
  lemma {:induction false} RunsWriteRowsInOrder(rows: seq<Row>, since: int, jobs: seq<Job>)
    requires RowsInOrder(rows) && EndBy(rows, since) && Orderly(since, jobs)
    ensures RowsInOrder(RecordAll(rows, jobs))
    decreases jobs
  {
    if jobs != [] {
      RunWritesRowsInOrder(jobs[0].now, rows, jobs[0].lines, jobs[0].last);
      RunsWriteRowsInOrder(Record(Recording(None, jobs[0].now, 0, rows), jobs[0].lines, jobs[0].last).0.rows, jobs[0].last.at, jobs[1..]);
    }
  }

  // ── When the order breaks ──────────────────────────────────────────────────

  predicate Writes(r: Recording, c: Closing) { r.path.Some? && c.listed && c.stillThere }

  /**
   No segment is closed again once it has a row of some length, as an announcement without a name makes possible.
   `lasting`: the open segment has such a row.
   */
  predicate ClosedOnce(r: Recording, lasting: bool, lines: seq<Line>, last: Closing)
    decreases lines
  {
    if lines == [] || lines[0].CleanExit? then !(lasting && Writes(r, last))
    else
      var (next, flow) := Follow(r, lines[0]);
      if flow.Abort? then true
      else if lines[0].Opened? then
        var c := lines[0].previous;
        !(lasting && Writes(r, c)) &&
        ClosedOnce(next, lines[0].file.None? && (lasting || (Writes(r, c) && c.at > r.start)), lines[1..], last)
      else ClosedOnce(next, lasting, lines[1..], last)
  }

  lemma {:induction false} RecordExtends(r: Recording, lines: seq<Line>, last: Closing)
    ensures r.rows <= Record(r, lines, last).0.rows
    decreases lines
  {
    if lines != [] && Follow(r, lines[0]).1.Continue? {
      RecordExtends(Follow(r, lines[0]).0, lines[1..], last);
    }
  }

  /** The open segment's row, if it has one, tells whether another would overlap it. */
  ghost predicate Tracked(r: Recording, lasting: bool, since: int)
  {
    && RowsInOrder(r.rows) && EndBy(r.rows, since) && r.start <= since
    && if lasting then r.rows != [] && r.rows[|r.rows| - 1].end.value > r.start else EndBy(r.rows, r.start)
  }

  lemma CloseTracked(r: Recording, lasting: bool, since: int, c: Closing)
    requires Tracked(r, lasting, since) && since <= c.at
    ensures RowsInOrder(CloseSegment(r, c).rows) <==> !(lasting && Writes(r, c))
    ensures !(lasting && Writes(r, c)) ==> Tracked(CloseSegment(r, c), lasting || (Writes(r, c) && c.at > r.start), c.at)
  {
    if Writes(r, c) {
      var rows := CloseSegment(r, c).rows;
      if lasting {
        assert rows[|r.rows| - 1].end.value > rows[|r.rows|].start;
      } else {
        CloseKeepsOrder(r, c);
      }
    }
  }

  lemma OrderOfPrefix(rows: seq<Row>, more: seq<Row>)
    requires rows <= more && !RowsInOrder(rows)
    ensures !RowsInOrder(more)
  {
    if RowsInOrder(more) {
      assert forall i | 0 <= i < |rows| :: rows[i] == more[i];
    }
  }

  lemma OpenedTracked(r: Recording, lasting: bool, since: int, line: Line)
    requires Tracked(r, lasting, since) && line.Opened? && since <= line.previous.at <= line.at
    ensures var c, next := line.previous, Follow(r, line).0;
      if lasting && Writes(r, c) then !RowsInOrder(next.rows)
      else Tracked(next, line.file.None? && (lasting || (Writes(r, c) && c.at > r.start)), line.at)
  {
    CloseTracked(r, lasting, since, line.previous);
  }

  lemma {:induction false} OrderedIffClosedOnce(r: Recording, lasting: bool, since: int, lines: seq<Line>, last: Closing)
    requires Tracked(r, lasting, since) && Clocked(since, lines, last)
    ensures RowsInOrder(Record(r, lines, last).0.rows) <==> ClosedOnce(r, lasting, lines, last)
    decreases lines
  {
    if lines == [] || lines[0].CleanExit? {
      LastReading(since, lines, last);
      CloseTracked(r, lasting, since, last);
    } else {
      var (next, flow) := Follow(r, lines[0]);
      if lines[0].Opened? {
        var c := lines[0].previous;
        OpenedTracked(r, lasting, since, lines[0]);
        if lasting && Writes(r, c) {
          RecordExtends(next, lines[1..], last);
          OrderOfPrefix(next.rows, Record(next, lines[1..], last).0.rows);
        } else {
          var after := lines[0].file.None? && (lasting || (Writes(r, c) && c.at > r.start));
          OrderedIffClosedOnce(next, after, lines[0].at, lines[1..], last);
        }
      } else if flow.Continue? {
        OrderedIffClosedOnce(next, lasting, since, lines[1..], last);
      }
    }
  }

  /** With or without names: the rows of a run are in order exactly when no segment with a lasting row is closed again. */
  lemma RunIsOrderedIff(now: int, rows: seq<Row>, lines: seq<Line>, last: Closing)
    requires RowsInOrder(rows) && EndBy(rows, now) && Clocked(now, lines, last)
    ensures var start := Recording(None, now, 0, rows);
      RowsInOrder(Record(start, lines, last).0.rows) <==> ClosedOnce(start, false, lines, last)
  {
    OrderedIffClosedOnce(Recording(None, now, 0, rows), false, now, lines, last);
  }

  // ── The recorded day adds up ───────────────────────────────────────────────

  lemma {:induction false} WhereKeepsOrder(rows: seq<Row>, keep: Row -> bool)
    requires RowsInOrder(rows)
    ensures RowsInOrder(Where(rows, keep))
  {
    if rows != [] {
      WhereKeepsOrder(rows[1..], keep);
      WhereMembers(rows[1..], keep);
      var rest := Where(rows[1..], keep);
      forall i | 0 <= i < |rest| ensures rows[0].end.value <= rest[i].start {
        assert rest[i] in rest;
      }
    }
  }

  /** In ordered rows a row that covers anything occurs once. */
  lemma {:induction false} OrderedRowsAreOnce(rows: seq<Row>, r: Row)
    requires RowsInOrder(rows) && r.end.Some? && r.start < r.end.value
    ensures multiset(rows)[r] <= 1
  {
    if rows != [] {
      var rest := rows[1..];
      assert rows == [rows[0]] + rest;
      assert multiset(rows)[r] == multiset(rest)[r] + if rows[0] == r then 1 else 0;
      if rows[0] == r {
        FirstRowOnce(rows);
      } else {
        OrderedRowsAreOnce(rest, r);
      }
    }
  }

  lemma FirstRowOnce(rows: seq<Row>)
    requires RowsInOrder(rows) && rows != [] && rows[0].start < rows[0].end.value
    ensures rows[0] !in rows[1..]
  {
    assert forall i | 0 <= i < |rows[1..]| :: rows[1..][i] == rows[i + 1];
  }

  lemma TwiceCountsTwo<T>(s: seq<T>, i: nat, j: nat)
    requires i < j < |s| && s[i] == s[j]
    ensures multiset(s)[s[i]] >= 2
  {
    assert s == s[..j] + s[j..];
    assert s[i] in s[..j] && s[j] in s[j..];
    assert multiset(s) == multiset(s[..j]) + multiset(s[j..]);
  }

  lemma DistinctRowsApart(rows: seq<Row>, x: Row, y: Row, t: int)
    requires RowsInOrder(rows) && x in rows && y in rows && x != y
    ensures !(RowCovers(x, t) && RowCovers(y, t))
  {
    var a :| 0 <= a < |rows| && rows[a] == x;
    var b :| 0 <= b < |rows| && rows[b] == y;
    assert a < b || b < a;
  }

  lemma ReorderedRowsApart(rows: seq<Row>, answer: seq<Row>, i: nat, j: nat, t: int)
    requires RowsInOrder(rows) && multiset(answer) == multiset(rows) && i < j < |answer|
    ensures !(RowCovers(answer[i], t) && RowCovers(answer[j], t))
  {
    if answer[i] != answer[j] {
      assert answer[i] in multiset(rows) && answer[j] in multiset(rows);
      DistinctRowsApart(rows, answer[i], answer[j], t);
    } else if RowCovers(answer[i], t) {
      OrderedRowsAreOnce(rows, answer[i]);
      TwiceCountsTwo(answer, i, j);
    }
  }

  /** No two of the rows a day's query selects overlap. */
  lemma SelectedRowsApart(rows: seq<Row>, day: Day, answer: seq<Row>)
    requires RowsInOrder(rows) && TimelineQuery(rows, day, answer)
    ensures forall i, j, t | 0 <= i < j < |answer| && day.start <= t < day.end :: !(RowCovers(answer[i], t) && RowCovers(answer[j], t))
  {
    WhereKeepsOrder(rows, (r: Row) => Overlaps(r, day));
    forall i, j, t | 0 <= i < j < |answer| ensures !(RowCovers(answer[i], t) && RowCovers(answer[j], t)) {
      ReorderedRowsApart(Where(rows, (r: Row) => Overlaps(r, day)), answer, i, j, t);
    }
  }

  /** For rows in recorded order, on any day and however the query orders ties: covered seconds and gaps add up exactly. */
  lemma RecordedDayAddsUp(rows: seq<Row>, day: Day, answer: seq<Row>)
    requires ValidDay(day) && RowsInOrder(rows) && TimelineQuery(rows, day, answer)
    ensures forall r | r in answer :: r.end.Some?
    ensures CoveredSeconds(Segments(answer), day) + Uncovered(Segments(answer), day.start, day.end) == day.end - day.start
  {
    assert WellFormed(rows);
    QuerySelects(rows, day, answer);
    SelectedRowsApart(rows, day, answer);
    var segments := Segments(answer);
    forall t, i, j | day.start <= t < day.end && 0 <= i < j < |answer|
      ensures !(Covers(segments[i], t) && Covers(segments[j], t))
    {
      assert !(RowCovers(answer[i], t) && RowCovers(answer[j], t));
    }
    DayIsConserved(segments, day);
  }

  /**
   From the recorder to the timeline: of whatever a camera's runs wrote, starting from an empty table, the timeline of any
   day shows gaps that hold exactly the instants no row covers and that, with the covered seconds, make up the day.
   */
  method TimelineOfRuns(since: int, jobs: seq<Job>, day: Day, answer: seq<Row>) returns (gaps: seq<Gap>, covered: int)
    requires Orderly(since, jobs) && ValidDay(day) && TimelineQuery(RecordAll([], jobs), day, answer)
    ensures WellSpaced(gaps, day) && covered + Length(gaps) == day.end - day.start
    ensures forall t | day.start <= t < day.end :: InGap(gaps, t) <==> !exists r | r in RecordAll([], jobs) :: RowCovers(r, t)
  {
    RunsWriteRowsInOrder([], since, jobs);
    assert WellFormed(RecordAll([], jobs));
    SelectedRowsApart(RecordAll([], jobs), day, answer);
    gaps, covered := GetTimeline(RecordAll([], jobs), day, answer);
  }

  /** Naming matters: after an announcement without a file name the same segment is closed twice, and its rows overlap. */
  lemma UnnamedOpeningOverlaps()
    ensures exists lines, last ::
      && Clocked(0, lines, last)
      && !RowsInOrder(Record(Recording(None, 0, 0, []), lines, last).0.rows)
  {
    var first := Opened(Some("a.mp4"), Closing(false, false, 0), 0);
    var unnamed := Opened(None, Closing(true, true, 10), 10);
    var last := Closing(true, true, 20);
    var r1 := Recording(Some("a.mp4"), 0, 0, []);
    var r2 := r1.(rows := [Row("a.mp4", 0, Some(10))]);
    var rows := [Row("a.mp4", 0, Some(10)), Row("a.mp4", 0, Some(20))];
    var lines := [first, unnamed];
    assert lines[1..] == [unnamed] && [unnamed][1..] == [];
    assert CloseSegment(r2, last).rows == rows;
    assert CloseSegment(r1, unnamed.previous).rows == r2.rows;
    assert Follow(r1, unnamed).0 == r2 && Follow(Recording(None, 0, 0, []), first).0 == r1;
    assert Record(r2, [], last).0.rows == rows;
    assert Record(r1, [unnamed], last) == Record(r2, [], last);
    assert Record(Recording(None, 0, 0, []), lines, last) == Record(r1, [unnamed], last);
    assert Clocked(10, [], last) && Clocked(0, [unnamed], last) && Clocked(0, lines, last);
    assert rows[0].end.value > rows[1].start;
    assert !RowsInOrder(rows);
  }
}
