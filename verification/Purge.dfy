/**
 The emergency purge: while the disk is too full, delete the oldest fifty segments that are not on legal hold.
 Disk readings and the fate of each commit are inputs; which of several equally old segments a batch takes is not
 determined.
 */
module Purge {
  import opened Prelude

  const THRESHOLD: real := 85.0
  const BATCH := 50

  /** Rows are told apart by their id: several may name the same file, and a path may be empty. */
  datatype Segment = Segment(id: string, file: string, start: int, held: bool)

  /** How the purge ended. */
  datatype Ending = BelowThreshold | NothingLeft | CommitFailed

  /** What the surroundings answer in one round: the disk usage read before it, and whether its commit goes through. */
  datatype Round = Round(usage: real, commits: bool)

  function UnheldOf(table: set<Segment>): set<Segment> { set s | s in table && !s.held }

  /** A possible answer to the batch query: the fifty oldest unheld segments, or all of them if there are fewer. */
  ghost predicate OldestBatch(table: set<Segment>, batch: seq<Segment>)
  {
    && (forall i, j | 0 <= i < j < |batch| :: batch[i] != batch[j] && batch[i].start <= batch[j].start)
    && (forall s | s in batch :: s in UnheldOf(table))
    && |batch| == Min(BATCH, |UnheldOf(table)|)
    && forall s, r | s in batch && r in UnheldOf(table) && r !in batch :: s.start <= r.start
  }

  lemma {:induction false} OldestExists(pool: set<Segment>)
    requires pool != {}
    ensures exists s :: s in pool && forall r | r in pool :: s.start <= r.start
  {
    var s :| s in pool;
    if pool != {s} {
      OldestExists(pool - {s});
      var o :| o in pool - {s} && forall r | r in pool - {s} :: o.start <= r.start;
      var best := if s.start <= o.start then s else o;
      assert best in pool && forall r | r in pool :: best.start <= r.start;
    }
  }

  lemma SubsetSize(small: set<Segment>, big: set<Segment>)
    requires small <= big
    ensures |big - small| == |big| - |small|
  {
    assert big == small + (big - small);
  }

  method QueryOldest(table: set<Segment>) returns (batch: seq<Segment>)
    ensures OldestBatch(table, batch)
  {
    batch := [];
    var rest := UnheldOf(table);
    while rest != {} && |batch| < BATCH
      invariant rest <= UnheldOf(table) && |batch| <= BATCH && |batch| + |rest| == |UnheldOf(table)|
      invariant forall i, j | 0 <= i < j < |batch| :: batch[i] != batch[j] && batch[i].start <= batch[j].start
      invariant forall s :: s in UnheldOf(table) <==> s in batch || s in rest
      invariant forall s, r | s in batch && r in rest :: s !in rest && s.start <= r.start
      decreases rest
    {
      OldestExists(rest);
      var oldest :| oldest in rest && forall r | r in rest :: oldest.start <= r.start;
      assert forall i | 0 <= i < |batch| :: batch[i] in batch;
      batch, rest := batch + [oldest], rest - {oldest};
    }
  }

  // ── The purge ──────────────────────────────────────────────────────────────

  function Taken(batch: seq<Segment>): set<Segment> { set s | s in batch }

  lemma {:induction false} TakenSize(batch: seq<Segment>)
    requires forall i, j | 0 <= i < j < |batch| :: batch[i] != batch[j]
    ensures |Taken(batch)| == |batch|
  {
    if batch != [] {
      TakenSize(batch[1..]);
      assert Taken(batch) == {batch[0]} + Taken(batch[1..]);
    }
  }

  /** After n committed rounds the oldest 50·n unheld rows are gone, or all of them, and nothing else has changed. */
  ghost predicate OldestGone(before: set<Segment>, table: set<Segment>, n: nat)
  {
    && table <= before
    && (forall s | s in before && s.held :: s in table)
    && |before - table| == Min(BATCH * n, |UnheldOf(before)|)
    && forall g, r | g in before - table && r in UnheldOf(table) :: g.start <= r.start
  }

  lemma BatchSizes(before: set<Segment>, table: set<Segment>, batch: seq<Segment>)
    requires table <= before && OldestBatch(table, batch)
    requires forall s | s in before && s.held :: s in table
    ensures |before - (table - Taken(batch))| == |before - table| + |batch|
    ensures |UnheldOf(table - Taken(batch))| == |UnheldOf(table)| - |batch|
    ensures |UnheldOf(before)| == |before - table| + |UnheldOf(table)|
  {
    var taken := Taken(batch);
    TakenSize(batch);
    assert before - (table - taken) == (before - table) + taken;
    HeldStay(before, table);
    assert UnheldOf(before) == (before - table) + UnheldOf(table);
    assert UnheldOf(table - taken) == UnheldOf(table) - taken;
    SubsetSize(taken, UnheldOf(table));
  }

  lemma BatchGone(before: set<Segment>, table: set<Segment>, n: nat, batch: seq<Segment>)
    requires OldestGone(before, table, n) && OldestBatch(table, batch) && batch != []
    ensures OldestGone(before, table - Taken(batch), n + 1)
    ensures |before - (table - Taken(batch))| == |before - table| + |batch|
    ensures |UnheldOf(table - Taken(batch))| < |UnheldOf(table)|
  {
    BatchSizes(before, table, batch);
    var next := table - Taken(batch);
    forall g, r | g in before - next && r in UnheldOf(next) ensures g.start <= r.start {
      assert r in UnheldOf(table) && r !in batch;
    }
  }

  lemma HeldStay(before: set<Segment>, table: set<Segment>)
    requires table <= before && forall s | s in before && s.held :: s in table
    ensures forall s :: s in UnheldOf(before) <==> s in before - table || s in UnheldOf(table)
  {
  }

  /** Why a purge ends, seen from the table it leaves and the round it stops in. */
  function Verdict(round: Round, table: set<Segment>): Ending
  {
    if round.usage <= THRESHOLD then BelowThreshold
    else if UnheldOf(table) == {} then NothingLeft
    else CommitFailed
  }

  /** The first n rounds all found the disk too full and committed. */
  ghost predicate AllWent(rounds: nat -> Round, n: nat)
  {
    forall k: nat | k < n :: rounds(k).usage > THRESHOLD && rounds(k).commits
  }

  /** There was something to take in each of n rounds. */
  ghost predicate Busy(before: set<Segment>, n: nat) { BATCH * n < |UnheldOf(before)| + BATCH }

  /** What a call leaves and answers: n committed rounds, none of them idle, and why it stopped in the next. */
  ghost predicate Outcome(before: set<Segment>, files: set<string>, rounds: nat -> Round, stuck: set<string>,
    ending: Ending, n: nat, table: set<Segment>, disk: set<string>, rolledBack: seq<Segment>)
  {
    && AllWent(rounds, n) && Busy(before, n)
    && ending == Verdict(rounds(n), table) && (ending == CommitFailed ==> !rounds(n).commits)
    && (rolledBack != [] <==> ending == CommitFailed)
    && Purged(before, files, table, disk, n, rolledBack, stuck)
  }

  lemma OneMoreWent(rounds: nat -> Round, n: nat)
    requires AllWent(rounds, n) && rounds(n).usage > THRESHOLD && rounds(n).commits
    ensures AllWent(rounds, n + 1)
  {
  }

  // ── Files ──────────────────────────────────────────────────────────────────

  /** The files that deleting these rows removes. */
  function Removable(rows: set<Segment>, stuck: set<string>): set<string>
  {
    set s | s in rows && s.file != "" && s.file !in stuck :: s.file
  }

  lemma RemovableUnion(a: set<Segment>, b: set<Segment>, stuck: set<string>)
    ensures Removable(a + b, stuck) == Removable(a, stuck) + Removable(b, stuck)
  {
    forall s | s in a + b && s.file != "" && s.file !in stuck ensures s.file in Removable(a, stuck) + Removable(b, stuck) {
    }
  }

  /**
   What a purge leaves after n committed rounds and, if a commit failed, a batch rolled back: the files of all rows
   deleted, for good or not, are gone unless they are stuck, and no other file is.
   */
  ghost predicate Purged(before: set<Segment>, files: set<string>, table: set<Segment>, disk: set<string>, n: nat,
    rolledBack: seq<Segment>, stuck: set<string>)
  {
    && OldestGone(before, table, n)
    && (rolledBack == [] || OldestBatch(table, rolledBack))
    && disk == files - Removable((before - table) + Taken(rolledBack), stuck)
  }

  lemma BatchFilesGone(before: set<Segment>, table: set<Segment>, batch: seq<Segment>, files: set<string>, disk: set<string>, stuck: set<string>)
    requires table <= before && Taken(batch) <= table
    requires disk == files - Removable((before - table) + Taken([]), stuck)
    ensures disk - Removable(Taken(batch), stuck) == files - Removable((before - table) + Taken(batch), stuck)
    ensures (before - (table - Taken(batch))) + Taken([]) == (before - table) + Taken(batch)
  {
    assert Taken([]) == {};
    assert (before - table) + Taken([]) == before - table;
    RemovableUnion(before - table, Taken(batch), stuck);
  }

  /** One round, whether its commit goes through or not. */
  lemma RoundProgress(before: set<Segment>, files: set<string>, table: set<Segment>, disk: set<string>, n: nat,
    batch: seq<Segment>, disk': set<string>, stuck: set<string>)
    requires Purged(before, files, table, disk, n, [], stuck) && OldestBatch(table, batch) && batch != []
    requires disk' == disk - Removable(Taken(batch), stuck)
    ensures Purged(before, files, table - Taken(batch), disk', n + 1, [], stuck)
    ensures Purged(before, files, table, disk', n, batch, stuck)
    ensures |before - (table - Taken(batch))| == |before - table| + |batch|
    ensures |UnheldOf(table - Taken(batch))| < |UnheldOf(table)|
  {
    BatchGone(before, table, n, batch);
    BatchFilesGone(before, table, batch, files, disk, stuck);
  }

  /** While something unheld is left, every round so far has taken a full batch, and there is something for another. */
  lemma NotIdle(before: set<Segment>, table: set<Segment>, n: nat)
    requires OldestGone(before, table, n) && UnheldOf(table) != {}
    ensures Busy(before, n + 1)
  {
    HeldStay(before, table);
    assert UnheldOf(before) == (before - table) + UnheldOf(table);
    assert |UnheldOf(before)| == |before - table| + |UnheldOf(table)|;
  }

  /** A purge that has committed n rounds and goes on. */
  ghost predicate Underway(before: set<Segment>, files: set<string>, rounds: nat -> Round, stuck: set<string>, n: nat,
    table: set<Segment>, disk: set<string>)
  {
    AllWent(rounds, n) && Busy(before, n) && Purged(before, files, table, disk, n, [], stuck)
  }

  lemma StopsUnderway(before: set<Segment>, files: set<string>, rounds: nat -> Round, stuck: set<string>, n: nat,
    table: set<Segment>, disk: set<string>)
    requires Underway(before, files, rounds, stuck, n, table, disk)
    ensures rounds(n).usage <= THRESHOLD ==> Outcome(before, files, rounds, stuck, BelowThreshold, n, table, disk, [])
    ensures rounds(n).usage > THRESHOLD && UnheldOf(table) == {} ==> Outcome(before, files, rounds, stuck, NothingLeft, n, table, disk, [])
  {
  }

  /** A round on a disk too full: the purge goes on, or ends with the batch rolled back. */
  lemma GoesOn(before: set<Segment>, files: set<string>, rounds: nat -> Round, stuck: set<string>, n: nat,
    table: set<Segment>, disk: set<string>, batch: seq<Segment>, disk': set<string>)
    requires Underway(before, files, rounds, stuck, n, table, disk) && rounds(n).usage > THRESHOLD
    requires OldestBatch(table, batch) && batch != [] && disk' == disk - Removable(Taken(batch), stuck)
    ensures rounds(n).commits ==> Underway(before, files, rounds, stuck, n + 1, table - Taken(batch), disk')
    ensures !rounds(n).commits ==> Outcome(before, files, rounds, stuck, CommitFailed, n, table, disk', batch)
    ensures |before - (table - Taken(batch))| == |before - table| + |batch|
    ensures |UnheldOf(table - Taken(batch))| < |UnheldOf(table)|
  {
    assert batch[0] in UnheldOf(table);
    NotIdle(before, table, n);
    RoundProgress(before, files, table, disk, n, batch, disk', stuck);
    if rounds(n).commits {
      OneMoreWent(rounds, n);
    }
  }

  class PurgeWorker {
    var table: set<Segment>
    var disk: set<string>

    constructor (table: set<Segment>, disk: set<string>)
      ensures this.table == table && this.disk == disk
    {
      this.table, this.disk := table, disk;
    }

    /** The file goes if it is named and can be removed; the row is deleted either way. */
    method DeleteSegment(s: Segment, stuck: set<string>)
      modifies this
      ensures table == old(table) - {s}
      ensures disk == old(disk) - Removable({s}, stuck)
    {
      if s.file != "" && s.file in disk && s.file !in stuck {
        disk := disk - {s.file};
      }
      table := table - {s};
    }

    /** One round's deletions as one transaction: a failed commit brings the rows back, not the files. */
    method DeleteBatch(batch: seq<Segment>, stuck: set<string>, commits: bool)
      requires Taken(batch) <= table
      modifies this
      ensures table == if commits then old(table) - Taken(batch) else old(table)
      ensures disk == old(disk) - Removable(Taken(batch), stuck)
    {
      var saved := table;
      for i := 0 to |batch|
        invariant table == saved - Taken(batch[..i])
        invariant disk == old(disk) - Removable(Taken(batch[..i]), stuck)
      {
        assert batch[..i + 1] == batch[..i] + [batch[i]];
        assert Taken(batch[..i + 1]) == Taken(batch[..i]) + {batch[i]};
        RemovableUnion(Taken(batch[..i]), {batch[i]}, stuck);
        DeleteSegment(batch[i], stuck);
      }
      assert batch[..|batch|] == batch;
      if !commits {
        table := saved;
      }
    }

    /**
     `rounds` answers round by round; `stuck` are the files that cannot be removed. The purge stops after n committed
     rounds: when usage has dropped, nothing unheld is left, or a commit fails, whose batch is rolled back. `deleted`
     also counts that batch.
     */
    method EmergencyPurge(rounds: nat -> Round, stuck: set<string>)
      returns (ending: Ending, n: nat, deleted: nat, rolledBack: seq<Segment>)
      modifies this
      ensures Outcome(old(table), old(disk), rounds, stuck, ending, n, table, disk, rolledBack)
      ensures deleted == |old(table) - table| + |rolledBack|
    {
      ending, n, deleted, rolledBack := BelowThreshold, 0, 0, [];
      while rounds(n).usage > THRESHOLD
        invariant Underway(old(table), old(disk), rounds, stuck, n, table, disk)
        invariant ending == BelowThreshold && rolledBack == [] && deleted == |old(table) - table|
        decreases |UnheldOf(table)|
      {
        var batch := QueryOldest(table);
        if batch == [] {
          StopsUnderway(old(table), old(disk), rounds, stuck, n, table, disk);
          return NothingLeft, n, deleted, [];
        }
        ghost var start, middle := table, disk;
        DeleteBatch(batch, stuck, rounds(n).commits);
        GoesOn(old(table), old(disk), rounds, stuck, n, start, middle, batch, disk);
        deleted := deleted + |batch|;
        if !rounds(n).commits {
          return CommitFailed, n, deleted, batch;
        }
        n := n + 1;
      }
      StopsUnderway(old(table), old(disk), rounds, stuck, n, table, disk);
    }
  }

  // ── Rows without their file ────────────────────────────────────────────────

  /** A row whose file was there and is not any more. */
  predicate Lost(s: Segment, files: set<string>, disk: set<string>) { s.file in files && s.file !in disk }

  /** After a purge a row that is still there has lost its file exactly when a row that was deleted, for good or not, named the same one. */
  lemma FileLostIff(before: set<Segment>, files: set<string>, table: set<Segment>, disk: set<string>, n: nat,
    rolledBack: seq<Segment>, stuck: set<string>, s: Segment)
    requires Purged(before, files, table, disk, n, rolledBack, stuck) && s in table && s.file in files
    ensures Lost(s, files, disk) <==>
      && s.file != "" && s.file !in stuck
      && exists g :: g in before && (g !in table || g in rolledBack) && g.file == s.file
  {
    var taken := (before - table) + Taken(rolledBack);
    if Lost(s, files, disk) {
      var g :| g in taken && g.file == s.file;
    }
    if g :| g in before && (g !in table || g in rolledBack) && g.file == s.file {
      assert g in taken;
    }
  }

  ghost predicate OwnFiles(table: set<Segment>) { forall s, r | s in table && r in table && s.file == r.file :: s == r }

  /** A row with a file of its own loses it only if it was itself deleted and rolled back. */
  lemma OwnFileLostIff(before: set<Segment>, files: set<string>, table: set<Segment>, disk: set<string>, n: nat,
    rolledBack: seq<Segment>, stuck: set<string>, s: Segment)
    requires Purged(before, files, table, disk, n, rolledBack, stuck) && s in table
    requires forall r | r in before && r.file == s.file :: r == s
    ensures Lost(s, files, disk) <==> s in rolledBack && s.file in files && s.file != "" && s.file !in stuck
  {
    if s.file in files {
      FileLostIff(before, files, table, disk, n, rolledBack, stuck, s);
    }
  }

  function LostRows(table: set<Segment>, files: set<string>, disk: set<string>): set<Segment>
  {
    set s | s in table && Lost(s, files, disk)
  }

  /** So when every row has its own file, a failed commit leaves rows without files, its batch and no other, and nothing else does. */
  lemma RolledBackRowsLoseTheirFiles(before: set<Segment>, files: set<string>, table: set<Segment>, disk: set<string>, n: nat,
    rolledBack: seq<Segment>, stuck: set<string>)
    requires Purged(before, files, table, disk, n, rolledBack, stuck)
    requires OwnFiles(before)
    ensures LostRows(table, files, disk) == set s | s in rolledBack && s.file in files && s.file != "" && s.file !in stuck
    ensures |LostRows(table, files, disk)| <= |rolledBack|
  {
    var lost := LostRows(table, files, disk);
    forall s ensures s in lost <==> s in rolledBack && s.file in files && s.file != "" && s.file !in stuck {
      if s in table {
        OwnFileLostIff(before, files, table, disk, n, rolledBack, stuck, s);
      }
    }
    if rolledBack != [] {
      TakenSize(rolledBack);
      SubsetSize(lost, Taken(rolledBack));
    }
  }

  /** Legal hold protects the row, not its file: a held row loses it exactly when an unheld row that was deleted shares it. */
  lemma HeldFileLostIff(before: set<Segment>, files: set<string>, table: set<Segment>, disk: set<string>, n: nat,
    rolledBack: seq<Segment>, stuck: set<string>, h: Segment)
    requires Purged(before, files, table, disk, n, rolledBack, stuck) && h in before && h.held && h.file in files
    ensures h in table
    ensures Lost(h, files, disk) <==>
      && h.file != "" && h.file !in stuck
      && exists g :: g in UnheldOf(before) && (g !in table || g in rolledBack) && g.file == h.file
  {
    FileLostIff(before, files, table, disk, n, rolledBack, stuck, h);
    if g :| g in before && (g !in table || g in rolledBack) && g.file == h.file {
      assert g in UnheldOf(before) by { assert !g.held; }
    }
  }

  /** A disk that stays too full, and commits that all go through. */
  function StillFull(k: nat): Round { Round(100.0, true) }

  /** As many rounds as it takes to delete u rows. */
  function RoundsFor(u: nat): (n: nat)
    ensures u <= BATCH * n < u + BATCH
  {
    (u + BATCH - 1) / BATCH
  }

  /** Such a call goes on to the end: everything unheld goes. */
  lemma PurgedToTheEnd(before: set<Segment>, files: set<string>, stuck: set<string>)
    ensures var unheld := UnheldOf(before);
      Outcome(before, files, StillFull, stuck, NothingLeft, RoundsFor(|unheld|), before - unheld, files - Removable(unheld, stuck), [])
  {
    var unheld := UnheldOf(before);
    assert before - (before - unheld) == unheld && UnheldOf(before - unheld) == {};
    assert unheld + Taken([]) == unheld;
    assert OldestGone(before, before - unheld, RoundsFor(|unheld|));
  }

  /**
   What can be known before the call: whatever the disk and the commits do, a held row whose removable file is there is safe
   if and only if no unheld row names its file.
   */
  lemma HeldFileSafeIff(before: set<Segment>, files: set<string>, stuck: set<string>, h: Segment)
    requires h in before && h.held && h.file in files && h.file != "" && h.file !in stuck
    ensures (forall rounds, ending, n, table, disk, rolledBack |
              Outcome(before, files, rounds, stuck, ending, n, table, disk, rolledBack) :: !Lost(h, files, disk))
      <==> forall g | g in UnheldOf(before) :: g.file != h.file
  {
    if forall g | g in UnheldOf(before) :: g.file != h.file {
      forall rounds, ending, n, table, disk, rolledBack | Outcome(before, files, rounds, stuck, ending, n, table, disk, rolledBack)
        ensures !Lost(h, files, disk)
      {
        HeldFileLostIff(before, files, table, disk, n, rolledBack, stuck, h);
      }
    } else {
      var kept, n := before - UnheldOf(before), RoundsFor(|UnheldOf(before)|);
      var disk := files - Removable(UnheldOf(before), stuck);
      PurgedToTheEnd(before, files, stuck);
      HeldFileLostIff(before, files, kept, disk, n, [], stuck, h);
      assert Outcome(before, files, StillFull, stuck, NothingLeft, n, kept, disk, []) && Lost(h, files, disk);
    }
  }

  /** And that happens: of two rows for one file the one not on hold is purged, and the held one is left without its file. */
  lemma HeldRowCanLoseItsFile()
    ensures exists before: set<Segment>, files, table: set<Segment>, disk, h: Segment ::
      Purged(before, files, table, disk, 1, [], {}) && h in table && h.held && Lost(h, files, disk)
  {
    var g, h := Segment("1", "a.mp4", 0, false), Segment("2", "a.mp4", 0, true);
    assert UnheldOf({g, h}) == {g};
    assert UnheldOf({h}) == {};
    assert {g, h} - {h} == {g} && Taken([]) == {} && {g} + Taken([]) == {g};
    assert g.file in Removable({g}, {});
    assert Removable({g}, {}) == {"a.mp4"};
    assert Purged({g, h}, {"a.mp4"}, {h}, {}, 1, [], {}) && Lost(h, {"a.mp4"}, {});
  }
}
