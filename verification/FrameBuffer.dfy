/**
 The pre-event frame buffer: a bounded queue of sampled frames, here just their timestamps in clock ticks, and the
 look-back that collects the frames before an alert. The sampling guard decides which frames reach it.
 */
module FrameBuffer {
  import opened Prelude

  const SECOND: int := 1_000_000
  const SAMPLE_INTERVAL: int := SECOND / 2

  function Capacity(fps: nat, seconds: nat): nat { if fps * seconds < 1 then 1 else fps * seconds }

  /** The last `n` frames of a sequence. */
  function LastOf(frames: seq<int>, n: nat): seq<int> { if |frames| <= n then frames else frames[|frames| - n..] }

  function Since(frames: seq<int>, from: int): seq<int> { Where(frames, (t: int) => t >= from) }

  class Buffer {
    const maxlen: nat
    var frames: seq<int>
    ghost var appended: seq<int>

    /** The buffer holds the most recent frames, as many as fit. */
    ghost predicate Valid() reads this { maxlen >= 1 && frames == LastOf(appended, maxlen) }

    constructor (fps: nat, seconds: nat)
      ensures Valid() && maxlen == Capacity(fps, seconds) && appended == []
    {
      maxlen := if fps * seconds < 1 then 1 else fps * seconds;
      frames, appended := [], [];
    }

    method Append(timestamp: int)
      requires Valid()
      modifies this
      ensures Valid() && appended == old(appended) + [timestamp]
    {
      if |frames| == maxlen {
        frames := frames[1..];
      }
      frames, appended := frames + [timestamp], appended + [timestamp];
    }

    method GetFramesSince(from: int) returns (found: seq<int>)
      requires Valid()
      ensures found == Since(LastOf(appended, maxlen), from)
    {
      found := Where(frames, (t: int) => t >= from);
    }

    /** The sampling guard over the frames one connection to the camera delivers. */
    method Capture(ticks: seq<int>)
      requires Valid()
      modifies this
      ensures Valid() && appended == old(appended) + Sampled(ticks, 0)
    {
      var last, i := 0, 0;
      while i < |ticks|
        invariant i <= |ticks| && Valid()
        invariant appended + Sampled(ticks[i..], last) == old(appended) + Sampled(ticks, 0)
      {
        assert ticks[i..][1..] == ticks[i + 1..];
        var now := ticks[i];
        i := i + 1;
        if now - last < SAMPLE_INTERVAL {
          continue;
        }
        last := now;
        Append(now);
      }
    }
  }

  // ── Sampling ───────────────────────────────────────────────────────────────

  function Sampled(ticks: seq<int>, last: int): seq<int>
    decreases ticks
  {
    if ticks == [] then []
    else if ticks[0] - last < SAMPLE_INTERVAL then Sampled(ticks[1..], last)
    else [ticks[0]] + Sampled(ticks[1..], ticks[0])
  }

  /** Each frame is at least 1/fps seconds after the one before. */
  ghost predicate Spaced(frames: seq<int>, fps: nat)
  {
    forall i | 0 <= i < |frames| - 1 :: fps * (frames[i + 1] - frames[i]) >= SECOND
  }

  lemma {:induction false} SamplesAreSpaced(ticks: seq<int>, last: int)
    ensures Spaced(Sampled(ticks, last), 2)
    ensures Sampled(ticks, last) != [] ==> Sampled(ticks, last)[0] - last >= SAMPLE_INTERVAL
    decreases ticks
  {
    if ticks != [] {
      if ticks[0] - last < SAMPLE_INTERVAL {
        SamplesAreSpaced(ticks[1..], last);
      } else {
        SamplesAreSpaced(ticks[1..], ticks[0]);
      }
    }
  }

  /** The guard forgets the last sample when the camera is opened again, so across connections spacing is not kept. */
  lemma ReconnectBreaksSpacing(before: int, after: int)
    requires SAMPLE_INTERVAL <= before <= after < before + SAMPLE_INTERVAL
    ensures Sampled([before], 0) + Sampled([after], 0) == [before, after] && !Spaced([before, after], 2)
  {
    assert [before][1..] == [] && [after][1..] == [];
    assert 2 * ([before, after][1] - [before, after][0]) < SECOND;
  }

  /** So the frames of another connection keep the spacing exactly when its first sample is late enough. */
  lemma ConnectionKeepsSpacing(before: seq<int>, ticks: seq<int>)
    requires Spaced(before, 2)
    ensures var more := Sampled(ticks, 0);
      Spaced(before + more, 2) <==> before == [] || more == [] || more[0] - before[|before| - 1] >= SAMPLE_INTERVAL
  {
    var more := Sampled(ticks, 0);
    var all := before + more;
    SamplesAreSpaced(ticks, 0);
    if before != [] && more != [] {
      assert all[|before| - 1] == before[|before| - 1] && all[|before| - 1 + 1] == more[0];
      forall i | 0 <= i < |all| - 1 && i != |before| - 1 ensures 2 * (all[i + 1] - all[i]) >= SECOND {
        if i < |before| {
          assert 2 * (before[i + 1] - before[i]) >= SECOND;
        } else {
          var j := i - |before|;
          assert 2 * (more[j + 1] - more[j]) >= SECOND;
        }
      }
    } else {
      assert all == before || all == more;
    }
  }

  // ── The look-back ──────────────────────────────────────────────────────────

  ghost predicate Ordered(frames: seq<int>) { forall i, j | 0 <= i < j < |frames| :: frames[i] <= frames[j] }

  lemma {:induction false} SinceConcat(a: seq<int>, b: seq<int>, from: int)
    ensures Since(a + b, from) == Since(a, from) + Since(b, from)
  {
    if a == [] {
      assert a + b == b;
    } else {
      assert (a + b)[1..] == a[1..] + b;
      SinceConcat(a[1..], b, from);
    }
  }

  lemma SinceOne(t: int, from: int)
    ensures Since([t], from) == if t >= from then [t] else []
  {
    assert Since([t][1..], from) == [];
  }

  lemma SplitSince(frames: seq<int>, n: nat, from: int)
    requires n < |frames|
    ensures Since(frames, from) == Since(frames[..|frames| - n], from) + Since(LastOf(frames, n), from)
  {
    assert frames == frames[..|frames| - n] + frames[|frames| - n..];
    SinceConcat(frames[..|frames| - n], frames[|frames| - n..], from);
  }

  lemma {:induction false} NoneSince(frames: seq<int>, from: int)
    requires forall i | 0 <= i < |frames| :: frames[i] < from
    ensures Since(frames, from) == []
  {
    if frames != [] {
      NoneSince(frames[1..], from);
    }
  }

  /** A look-back misses nothing exactly when the newest frame already pushed out is older than its start. */
  lemma LookBackComplete(frames: seq<int>, n: nat, from: int)
    requires Ordered(frames)
    ensures Since(LastOf(frames, n), from) == Since(frames, from) <==> |frames| <= n || frames[|frames| - n - 1] < from
  {
    if |frames| > n {
      var out := frames[..|frames| - n];
      SplitSince(frames, n, from);
      if out[|out| - 1] < from {
        NoneSince(out, from);
      } else {
        assert out == out[..|out| - 1] + [out[|out| - 1]];
        SinceConcat(out[..|out| - 1], [out[|out| - 1]], from);
        SinceOne(out[|out| - 1], from);
      }
    }
  }

  /** k frames back is at least k/fps seconds back. */
  lemma {:induction false} SpacedBack(frames: seq<int>, fps: nat, i: nat, j: nat)
    requires Spaced(frames, fps) && i <= j < |frames|
    ensures fps * (frames[j] - frames[i]) >= (j - i) * SECOND
    decreases j - i
  {
    if i < j {
      SpacedBack(frames, fps, i, j - 1);
      assert fps * (frames[j] - frames[j - 1]) >= SECOND;
      assert fps * (frames[j] - frames[i]) == fps * (frames[j] - frames[j - 1]) + fps * (frames[j - 1] - frames[i]);
    }
  }

  /** The frame at least fps·seconds places back is at least that many seconds old. */
  lemma PushedOutIsOld(frames: seq<int>, fps: nat, seconds: nat, i: nat)
    requires Spaced(frames, fps) && fps >= 1 && i + fps * seconds < |frames|
    ensures frames[i] <= frames[|frames| - 1] - seconds * SECOND
    ensures i + fps * seconds + 1 < |frames| ==> frames[i] < frames[|frames| - 1] - seconds * SECOND
  {
    var newest, n := frames[|frames| - 1], |frames| - 1 - i;
    SpacedBack(frames, fps, i, |frames| - 1);
    assert n * SECOND >= fps * seconds * SECOND;
    assert fps * (newest - frames[i]) >= fps * (seconds * SECOND) by {
      assert fps * seconds * SECOND == fps * (seconds * SECOND);
    }
    if newest - frames[i] < seconds * SECOND {
      MultiplyLess(fps, newest - frames[i], seconds * SECOND);
    }
    if n > fps * seconds {
      assert n * SECOND >= (fps * seconds + 1) * SECOND;
      assert fps * (newest - frames[i]) > fps * (seconds * SECOND);
      assert newest - frames[i] != seconds * SECOND;
    }
  }

  lemma MultiplyLess(k: nat, a: int, b: int)
    requires k >= 1 && a < b
    ensures k * a < k * b
  {
  }

  /** If everything pushed out is older than `from`, save perhaps the newest of it, which may be just as old, the look-back finds the rest. */
  lemma LookBackSplit(frames: seq<int>, n: nat, from: int)
    requires n < |frames|
    requires forall i | 0 <= i < |frames| - n :: frames[i] <= from && (i < |frames| - n - 1 ==> frames[i] < from)
    ensures Since(LastOf(frames, n), from + 1) == Since(frames, from + 1)
    ensures var kept := LastOf(frames, n);
      Since(frames, from) == Since(kept, from) || Since(frames, from) == [from] + Since(kept, from)
  {
    var out := frames[..|frames| - n];
    var older, last := out[..|out| - 1], out[|out| - 1];
    SplitSince(frames, n, from);
    SplitSince(frames, n, from + 1);
    NoneSince(out, from + 1);
    assert out == older + [last];
    SinceConcat(older, [last], from);
    NoneSince(older, from);
    SinceOne(last, from);
  }

  /**
   With frames at least 1/fps apart, a buffer of fps·seconds frames keeps every frame younger than `seconds`: the
   look-back from the newest frame finds all frames in range, save possibly one that is exactly that old.
   */
  lemma LookBackFindsAll(frames: seq<int>, fps: nat, seconds: nat)
    requires fps >= 1 && seconds >= 1 && frames != [] && Spaced(frames, fps)
    ensures var from := frames[|frames| - 1] - seconds * SECOND;
      var kept := LastOf(frames, Capacity(fps, seconds));
      && Since(kept, from + 1) == Since(frames, from + 1)
      && (Since(frames, from) == Since(kept, from) || Since(frames, from) == [from] + Since(kept, from))
  {
    var from, n: nat := frames[|frames| - 1] - seconds * SECOND, Capacity(fps, seconds);
    assert fps * seconds >= 1 by { MultiplyLess(fps, 0, seconds); }
    if |frames| > n {
      forall i | 0 <= i < |frames| - n ensures frames[i] <= from && (i < |frames| - n - 1 ==> frames[i] < from) {
        PushedOutIsOld(frames, fps, seconds, i);
      }
      LookBackSplit(frames, n, from);
    }
  }

  lemma LastIsKept(frames: seq<int>, n: nat)
    requires frames != [] && n >= 1
    ensures LastOf(frames, n) != [] && LastOf(frames, n)[|LastOf(frames, n)| - 1] == frames[|frames| - 1]
  {
  }

  /** Everything sampled since `from` is found, save possibly one frame exactly that old. */
  ghost predicate FindsAllSince(samples: seq<int>, from: int, found: seq<int>)
  {
    found == Since(samples, from) || Since(samples, from) == [from] + found
  }

  lemma SamplesAreFound(ticks: seq<int>)
    requires Sampled(ticks, 0) != []
    ensures var samples := Sampled(ticks, 0);
      var from := samples[|samples| - 1] - 30 * SECOND;
      FindsAllSince(samples, from, Since(LastOf(samples, Capacity(2, 30)), from))
  {
    SamplesAreSpaced(ticks, 0);
    LookBackFindsAll(Sampled(ticks, 0), 2, 30);
  }

  // ── Over reconnects ────────────────────────────────────────────────────────

  /** The frames sampled over a succession of connections, each of which starts the guard afresh. */
  function AllSampled(connections: seq<seq<int>>): seq<int>
    decreases connections
  {
    if connections == [] then [] else Sampled(connections[0], 0) + AllSampled(connections[1..])
  }

  /** Ticks that never go back, the first not before `since`. */
  predicate Onward(since: int, ticks: seq<int>)
    decreases ticks
  {
    ticks != [] ==> since <= ticks[0] && Onward(ticks[0], ticks[1..])
  }

  function LastTick(since: int, ticks: seq<int>): int { if ticks == [] then since else ticks[|ticks| - 1] }

  predicate AllOnward(since: int, connections: seq<seq<int>>)
    decreases connections
  {
    connections != [] ==> Onward(since, connections[0]) && AllOnward(LastTick(since, connections[0]), connections[1..])
  }

  lemma {:induction false} OnwardIsOrdered(since: int, ticks: seq<int>)
    requires Onward(since, ticks)
    ensures Ordered(ticks) && (forall i | 0 <= i < |ticks| :: since <= ticks[i]) && since <= LastTick(since, ticks)
    decreases ticks
  {
    if ticks != [] {
      OnwardIsOrdered(ticks[0], ticks[1..]);
    }
  }

  /** What the guard lets through is as onward as what it sees, and does not run past it. */
  lemma {:induction false} SampledOnward(since: int, ticks: seq<int>, last: int)
    requires Onward(since, ticks)
    ensures Onward(since, Sampled(ticks, last)) && LastTick(since, Sampled(ticks, last)) <= LastTick(since, ticks)
    decreases ticks
  {
    if ticks != [] {
      var rest := ticks[1..];
      if ticks[0] - last < SAMPLE_INTERVAL {
        SampledOnward(ticks[0], rest, last);
        OnwardEarlier(since, ticks[0], Sampled(rest, last));
      } else {
        SampledOnward(ticks[0], rest, ticks[0]);
        assert ([ticks[0]] + Sampled(rest, ticks[0]))[1..] == Sampled(rest, ticks[0]);
      }
    }
  }

  lemma OnwardEarlier(since: int, later: int, ticks: seq<int>)
    requires Onward(later, ticks) && since <= later
    ensures Onward(since, ticks) && LastTick(since, ticks) <= LastTick(later, ticks)
  {
  }

  lemma {:induction false} OnwardConcat(since: int, a: seq<int>, b: seq<int>)
    requires Onward(since, a) && Onward(LastTick(since, a), b)
    ensures Onward(since, a + b)
    decreases a
  {
    if a == [] {
      assert a + b == b;
    } else {
      assert (a + b)[1..] == a[1..] + b;
      OnwardConcat(a[0], a[1..], b);
    }
  }

  lemma {:induction false} AllSampledOnward(since: int, connections: seq<seq<int>>)
    requires AllOnward(since, connections)
    ensures Onward(since, AllSampled(connections))
    decreases connections
  {
    if connections != [] {
      var a, b := Sampled(connections[0], 0), AllSampled(connections[1..]);
      SampledOnward(since, connections[0], 0);
      AllSampledOnward(LastTick(since, connections[0]), connections[1..]);
      OnwardEarlier(LastTick(since, a), LastTick(since, connections[0]), b);
      OnwardConcat(since, a, b);
    }
  }

  const WORKER_FRAMES: nat := Capacity(2, 30)

  /** When the worker's look-back misses nothing: everything fits, or what was pushed out last is old enough. */
  predicate NothingMissed(samples: seq<int>, from: int)
  {
    |samples| <= WORKER_FRAMES || samples[|samples| - WORKER_FRAMES - 1] < from
  }

  lemma OneConnection(ticks: seq<int>)
    ensures AllSampled([ticks]) == Sampled(ticks, 0)
  {
    assert [ticks][1..] == [];
  }

  function Newest(samples: seq<int>): int
    requires samples != []
  {
    samples[|samples| - 1]
  }

  lemma WorkerLookBack(since: int, connections: seq<seq<int>>)
    requires AllOnward(since, connections) && AllSampled(connections) != []
    ensures var samples := AllSampled(connections);
      var from := Newest(samples) - 30 * SECOND;
      var found := Since(LastOf(samples, WORKER_FRAMES), from);
      && (found == Since(samples, from) <==> NothingMissed(samples, from))
      && (|connections| == 1 ==> FindsAllSince(samples, from, found))
  {
    var samples := AllSampled(connections);
    AllSampledOnward(since, connections);
    OnwardIsOrdered(since, samples);
    LookBackComplete(samples, WORKER_FRAMES, Newest(samples) - 30 * SECOND);
    if |connections| == 1 {
      OneConnection(connections[0]);
      assert connections == [connections[0]];
      SamplesAreFound(connections[0]);
    }
  }

  /** The worker's one buffer, filled over a succession of connections. */
  method CaptureAll(connections: seq<seq<int>>) returns (buffer: Buffer)
    ensures fresh(buffer) && buffer.Valid() && buffer.maxlen == WORKER_FRAMES && buffer.appended == AllSampled(connections)
  {
    buffer := new Buffer(2, 30);
    for i := 0 to |connections|
      invariant buffer.Valid() && fresh(buffer) && buffer.maxlen == WORKER_FRAMES
      invariant buffer.appended + AllSampled(connections[i..]) == AllSampled(connections)
    {
      assert connections[i..][1..] == connections[i + 1..];
      buffer.Capture(connections[i]);
    }
  }

  /**
   The buffer and the guard together, over the worker's reconnects, on a clock that never goes back: the look-back from the
   newest frame is complete if and only if the newest frame pushed out is older than thirty seconds. Within one connection
   it misses at most one frame, exactly thirty seconds old.
   */
  method LookBack(since: int, connections: seq<seq<int>>) returns (found: seq<int>)
    requires AllOnward(since, connections) && AllSampled(connections) != []
    ensures var samples := AllSampled(connections);
      var from := Newest(samples) - 30 * SECOND;
      && (found == Since(samples, from) <==> NothingMissed(samples, from))
      && (|connections| == 1 ==> FindsAllSince(samples, from, found))
  {
    WorkerLookBack(since, connections);
    LastIsKept(AllSampled(connections), WORKER_FRAMES);
    var buffer := CaptureAll(connections);
    var from := buffer.frames[|buffer.frames| - 1] - 30 * SECOND;
    assert from == Newest(AllSampled(connections)) - 30 * SECOND;
    found := buffer.GetFramesSince(from);
  }

  // ── A frame that is missed ─────────────────────────────────────────────────

  /** Ticks half a second apart, from half a second on. */
  function Steady(n: nat): seq<int> { seq(n, i requires 0 <= i < n => (i + 1) * SAMPLE_INTERVAL) }

  lemma {:induction false} SteadySampled(k: nat, n: nat)
    requires k <= n
    ensures Sampled(Steady(n)[k..], k * SAMPLE_INTERVAL) == Steady(n)[k..]
    decreases n - k
  {
    if k < n {
      assert Steady(n)[k..][0] == (k + 1) * SAMPLE_INTERVAL && Steady(n)[k..][1..] == Steady(n)[k + 1..];
      SteadySampled(k + 1, n);
    }
  }

  lemma {:induction false} SteadyOnward(k: nat, n: nat)
    requires k <= n
    ensures Onward(k * SAMPLE_INTERVAL, Steady(n)[k..])
    decreases n - k
  {
    if k < n {
      assert Steady(n)[k..][0] == (k + 1) * SAMPLE_INTERVAL && Steady(n)[k..][1..] == Steady(n)[k + 1..];
      SteadyOnward(k + 1, n);
    }
  }

  lemma OneOnward(since: int, ticks: seq<int>)
    requires Onward(since, ticks)
    ensures AllOnward(since, [ticks])
  {
    assert [ticks][1..] == [] && AllOnward(LastTick(since, ticks), []);
  }

  /** A reconnect right after a full buffer: its first frame pushes out one that is still in range. */
  lemma ReconnectLosesAFrame()
    ensures var connections := [Steady(WORKER_FRAMES), [30 * SECOND + 1]];
      var samples := AllSampled(connections);
      && AllOnward(0, connections) && samples != []
      && !NothingMissed(samples, Newest(samples) - 30 * SECOND)
  {
    var n := WORKER_FRAMES;
    var first, second := Steady(n), [30 * SECOND + 1];
    assert first[0..] == first;
    SteadySampled(0, n);
    SteadyOnward(0, n);
    assert second[1..] == [] && Sampled(second, 0) == second;
    assert [first, second][1..] == [second];
    OneConnection(second);
    assert AllSampled([first, second]) == first + second;
    assert LastTick(0, first) == n * SAMPLE_INTERVAL;
    OneOnward(LastTick(0, first), second);
  }

  // ── Nothing is skipped without reason ──────────────────────────────────────

  /** A sample at or before the tick that is less than half a second older. */
  ghost predicate SampledShortlyBefore(samples: seq<int>, tick: int)
  {
    exists j :: 0 <= j < |samples| && samples[j] <= tick < samples[j] + SAMPLE_INTERVAL
  }

  /** Every tick of a connection is sampled, or follows a sample, or the start of the guard, by less than half a second. */
  lemma {:induction false} SamplingIsDense(ticks: seq<int>, last: int, i: nat)
    requires Onward(last, ticks) && i < |ticks|
    ensures ticks[i] < last + SAMPLE_INTERVAL || SampledShortlyBefore(Sampled(ticks, last), ticks[i])
    decreases ticks
  {
    var rest, samples := ticks[1..], Sampled(ticks, last);
    OnwardIsOrdered(last, ticks);
    if ticks[0] - last < SAMPLE_INTERVAL {
      if i > 0 {
        OnwardEarlier(last, ticks[0], rest);
        SamplingIsDense(rest, last, i - 1);
      }
    } else {
      assert samples == [ticks[0]] + Sampled(rest, ticks[0]) && samples[0] == ticks[0];
      if i > 0 && ticks[i] >= ticks[0] + SAMPLE_INTERVAL {
        SamplingIsDense(rest, ticks[0], i - 1);
        var later := Sampled(rest, ticks[0]);
        var j :| 0 <= j < |later| && later[j] <= rest[i - 1] < later[j] + SAMPLE_INTERVAL;
        assert samples[j + 1] == later[j];
      }
    }
  }

  /** Nor is anything sampled that was not delivered. */
  lemma {:induction false} SamplesAreTicks(ticks: seq<int>, last: int)
    ensures forall t | t in Sampled(ticks, last) :: t in ticks
    decreases ticks
  {
    if ticks != [] {
      SamplesAreTicks(ticks[1..], if ticks[0] - last < SAMPLE_INTERVAL then last else ticks[0]);
    }
  }
}
