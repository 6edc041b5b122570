/** The scoped profiler: what the difference of two snapshots says about the calls made between them. */
module Profiler {
  import opened Wrappers
  import opened Words
  import opened CounterMachine
  import opened CounterInvariant
  import opened CounterSteps
  import opened CounterTheorems
  import opened CounterLedger

  function SaturatingSub(x: u64, y: u64): u64 {
    if x < y then 0 else x - y
  }

  // Profiler::stop: differences, except for the two peaks, which are those of the later snapshot.
  function Stop(baseline: Counters, now: Counters): Counters {
    Counters(
      SaturatingSub(now.allocs, baseline.allocs), SaturatingSub(now.total, baseline.total), now.peak,
      SaturatingSub(now.current, baseline.current), SaturatingSub(now.live, baseline.live), now.peakLive)
  }

  // The calls made so far stay, with their growth, and what they have added only grows.
  ghost predicate CallsStay(a: seq<Call>, b: seq<Call>) {
    |a| <= |b| && forall k :: 0 <= k < |a| ==>
      b[k].growth == a[k].growth && a[k].counted <= b[k].counted && a[k].grown <= b[k].grown
  }

  lemma StepCalls(s: State, t: Tid, pc: PC)
    requires ThreadOk(s.blocks, s.calls, t, pc) && Sane(s, pc)
    ensures CallsStay(s.calls, Step(s, t, pc).calls)
  {
    OwesMore(s, t, pc);
    hide Wrap, Max, ThreadOk;
  }

  lemma NextCalls(s: State, l: Label)
    requires Inv(s)
    ensures CallsStay(s.calls, Next(s, l).calls)
  {
    ThreadIs(s, l.t);
    if At(s, l.t) != Idle {
      StepCalls(s, l.t, At(s, l.t));
    }
    hide Step, Inv, ThreadOk, Exact;
  }

  lemma {:induction false} RunCalls(before: seq<Label>, during: seq<Label>)
    ensures CallsStay(After(before).calls, After(before + during).calls)
    decreases |during|
  {
    if during == [] {
      assert before + during == before;
    } else {
      var n := |during| - 1;
      hide *;
      RunCalls(before, during[..n]);
      LastOf(before, during);
      AfterLast(before + during[..n], during[n]);
      InvAfter(before + during[..n]);
      NextCalls(After(before + during[..n]), during[n]);
      StayTwice(After(before).calls, After(before + during[..n]).calls, After(before + during).calls);
    }
  }

  lemma StayTwice(a: seq<Call>, b: seq<Call>, c: seq<Call>)
    requires CallsStay(a, b) && CallsStay(b, c)
    ensures CallsStay(a, c)
  {
  }

  lemma {:induction false} SumStays(a: seq<Call>, b: seq<Call>)
    requires CallsStay(a, b)
    ensures Sum(a, Counted) <= Sum(b, Counted) && Sum(a, Grown) <= Sum(b, Grown)
    ensures Sum(a, Counted) >= 0 && Sum(a, Grown) >= 0
    decreases |b|
  {
    if b != [] {
      var n := |b| - 1;
      SumStays(if |a| == |b| then a[..n] else a, b[..n]);
    }
  }

  /**
   Between any two moments, calls in progress or not, the profiler reports exactly the additions that calls have made to
   alloc_count and total_bytes between them, short of 2^64. What calls have added to current_bytes and live_count, less
   what they have subtracted, is reported exactly if and only if it is not negative, and as 0 if it is negative.
   */
  lemma StopIsDifference(before: seq<Label>, during: seq<Label>)
    requires !After(before).wrapped && !After(before + during).wrapped
    requires Sum(After(before + during).calls, Counted) < TWO_64 && Sum(After(before + during).calls, Grown) < TWO_64
    ensures var s, s' := After(before), After(before + during);
            var stats := Stop(s.c, s'.c);
            && stats.allocs == Sum(s'.calls, Counted) - Sum(s.calls, Counted)
            && stats.total == Sum(s'.calls, Grown) - Sum(s.calls, Grown)
            && (stats.current == Sum(s'.blocks, Bytes) - Sum(s.blocks, Bytes) <==>
                Sum(s'.blocks, Bytes) >= Sum(s.blocks, Bytes))
            && (stats.live == Sum(s'.blocks, Alive) - Sum(s.blocks, Alive) <==>
                Sum(s'.blocks, Alive) >= Sum(s.blocks, Alive))
            && (Sum(s'.blocks, Bytes) < Sum(s.blocks, Bytes) ==> stats.current == 0)
            && (Sum(s'.blocks, Alive) < Sum(s.blocks, Alive) ==> stats.live == 0)
  {
    RunOk(before);
    RunOk(before + during);
    RunCalls(before, during);
    SumStays(After(before).calls, After(before + during).calls);
    InvIs(After(before));
    InvIs(After(before + during));
    hide Sum, Run, Inv, CallsStay, ThreadsOk, BlocksOk, CallsOk;
  }

  lemma BooksLast(labels: seq<Label>, l: Label)
    ensures Books(labels).count <= Books(labels + [l]).count && Books(labels).total <= Books(labels + [l]).total
  {
    assert (labels + [l])[..|labels|] == labels;
    hide Accepted, After;
  }

  lemma {:induction false} BooksGrow(before: seq<Label>, during: seq<Label>)
    ensures Books(before).count <= Books(before + during).count && Books(before).total <= Books(before + during).total
    decreases |during|
  {
    if during == [] {
      assert before + during == before;
    } else {
      var n := |during| - 1;
      hide *;
      BooksGrow(before, during[..n]);
      LastOf(before, during);
      BooksLast(before + during[..n], during[n]);
    }
  }

  // The counters have stayed below 2^64.
  ghost predicate Fits64(s: State) {
    !s.wrapped && |s.calls| < TWO_64 && Sum(s.calls, GrowthOf) < TWO_64
  }

  /**
   Between two moments without calls in progress, the profiler reports exactly the tracked allocations and reallocations
   that the ledger has entered between them, and their bytes. Live bytes and blocks are reported as differences that
   saturate: the difference is exact if and only if there are no fewer than at the start, and 0 if there are fewer.
   */
  lemma StopIsDelta(before: seq<Label>, during: seq<Label>)
    requires Quiescent(After(before)) && Quiescent(After(before + during))
    requires NoneMixed(After(before)) && NoneMixed(After(before + during))
    requires Fits64(After(before)) && Fits64(After(before + during))
    ensures var s, s', book, book' := After(before), After(before + during), Books(before), Books(before + during);
            var stats := Stop(s.c, s'.c);
            && stats.allocs == book'.count - book.count && stats.total == book'.total - book.total
            && (stats.current == Sum(s'.blocks, LiveSize) - Sum(s.blocks, LiveSize) <==>
                Sum(s'.blocks, LiveSize) >= Sum(s.blocks, LiveSize))
            && (stats.live == Sum(s'.blocks, LiveOne) - Sum(s.blocks, LiveOne) <==>
                Sum(s'.blocks, LiveOne) >= Sum(s.blocks, LiveOne))
            && (Sum(s'.blocks, LiveSize) < Sum(s.blocks, LiveSize) ==> stats.current == 0)
            && (Sum(s'.blocks, LiveOne) < Sum(s.blocks, LiveOne) ==> stats.live == 0)
  {
    var s, s' := After(before), After(before + during);
    ExactAtRest(before);
    ExactAtRest(before + during);
    BooksGrow(before, during);
    BooksMatch(before);
    BooksMatch(before + during);
    hide Sum, Run, Quiescent, NoneMixed, Books, LotsMatch;
  }

  // The highest level from the end of before on.
  function HighSince(before: seq<Label>, during: seq<Label>, g: Gauge): nat {
    if during == [] then Level(After(before), g)
    else Larger(HighSince(before, during[..|during| - 1], g), Level(After(before + during), g))
  }

  lemma HighWaterLast(labels: seq<Label>, g: Gauge)
    requires labels != []
    ensures HighWater(labels, g) == Larger(HighWater(labels[..|labels| - 1], g), Level(After(labels), g))
  {
    hide After, Level, Larger;
  }

  lemma HighSinceLast(before: seq<Label>, during: seq<Label>, g: Gauge)
    requires during != []
    ensures HighSince(before, during, g) ==
            Larger(HighSince(before, during[..|during| - 1], g), Level(After(before + during), g))
  {
    hide After, Level, Larger;
  }

  lemma LargerTwice(x: nat, y: nat, z: nat)
    ensures Larger(Larger(x, y), z) == Larger(x, Larger(y, z))
  {
  }

  lemma {:induction false} HighSplits(before: seq<Label>, during: seq<Label>, g: Gauge)
    requires !After(before).wrapped
    ensures HighWater(before + during, g) == Larger(HighWater(before, g), HighSince(before, during, g))
    decreases |during|
  {
    if during == [] {
      assert before + during == before;
      hide Run, GreatestIs, Level, Quiescent;
      PeakIsHighWater(before, g);
    } else {
      var n := |during| - 1;
      var labels, last := before + during, Level(After(before + during), g);
      assert labels[..|labels| - 1] == before + during[..n];
      hide *;
      HighWaterLast(labels, g);
      HighSinceLast(before, during, g);
      HighSplits(before, during[..n], g);
      LargerTwice(HighWater(before, g), HighSince(before, during[..n], g), last);
    }
  }

  /**
   The peaks reported are high-water marks of the whole run, not of the profiled part. The documentation promises
   the mark of the profiling window; the value is that mark if and only if the peak at the start was no higher than
   it.
   */
  lemma StopPeakIsWindowed(before: seq<Label>, during: seq<Label>)
    requires Quiescent(After(before)) && Quiescent(After(before + during)) && !After(before + during).wrapped
    requires !After(before).wrapped
    ensures var baseline, stats := After(before).c, Stop(After(before).c, After(before + during).c);
            && (stats.peak == HighSince(before, during, BytesGauge) <==>
                baseline.peak <= HighSince(before, during, BytesGauge))
            && (stats.peakLive == HighSince(before, during, LiveGauge) <==>
                baseline.peakLive <= HighSince(before, during, LiveGauge))
  {
    hide Run, HighWater, HighSince;
    HighSplits(before, during, BytesGauge);
    HighSplits(before, during, LiveGauge);
    PeakIsHighWater(before, BytesGauge);
    PeakIsHighWater(before, LiveGauge);
    PeakIsHighWater(before + during, BytesGauge);
    PeakIsHighWater(before + during, LiveGauge);
  }

  // No call is in progress, and nothing has wrapped.
  ghost predicate AtRest(labels: seq<Label>) {
    Quiescent(After(labels)) && !After(labels).wrapped
  }

  function StopPeak(before: seq<Label>, during: seq<Label>, g: Gauge): u64 {
    var stats := Stop(After(before).c, After(before + during).c);
    if g.BytesGauge? then stats.peak else stats.peakLive
  }

  lemma StopPeakIs(before: seq<Label>, during: seq<Label>, g: Gauge)
    requires AtRest(before) && AtRest(before + during)
    ensures StopPeak(before, during, g) == HighSince(before, during, g) <==>
            Peak(After(before), g) <= HighSince(before, during, g)
  {
    StopPeakIsWindowed(before, during);
    hide Run, HighSince, Quiescent;
  }

  lemma {:induction false} HighFromStart(before: seq<Label>, during: seq<Label>, g: Gauge)
    ensures Level(After(before), g) <= HighSince(before, during, g)
  {
    if during != [] {
      HighFromStart(before, during[..|during| - 1], g);
      hide After, Level;
    }
  }

  lemma StopAtOnce(before: seq<Label>, g: Gauge)
    ensures HighSince(before, [], g) == Level(After(before), g) && before + [] == before
  {
  }

  /**
   The documented window mark can be relied on exactly when, at the start, the level is the peak: then every stop
   reports the high-water mark of its window; and otherwise some stop does not.
   */
  lemma PeakIsWindowedExactlyWhen(before: seq<Label>, g: Gauge)
    requires AtRest(before)
    ensures (forall during :: AtRest(before + during) ==>
               StopPeak(before, during, g) == HighSince(before, during, g)) <==>
            Peak(After(before), g) == Level(After(before), g)
  {
    PeakIsHighWater(before, g);
    var peak, level := Peak(After(before), g), Level(After(before), g);
    assert level <= peak;
    StopAtOnce(before, g);
    hide *;
    if peak == level {
      forall during | AtRest(before + during) ensures StopPeak(before, during, g) == HighSince(before, during, g) {
        StopPeakIs(before, during, g);
        HighFromStart(before, during, g);
      }
    } else {
      StopPeakIs(before, [], g);
      assert AtRest(before + []) && StopPeak(before, [], g) != HighSince(before, [], g);
    }
  }

  // One thread allocates a block of some size and frees it, alone: the labels, and the states between them.

  function AloneLabel(n: nat, size: u64): Label {
    Label(0, if n == 0 then Alloc(size, true) else if n == 7 then Dealloc(0, true) else Go)
  }

  function Alone(n: nat, size: u64): seq<Label> {
    if n == 0 then [] else Alone(n - 1, size) + [AloneLabel(n - 1, size)]
  }

  function AloneState(n: nat, size: u64): State {
    var one, b, y := if n > 5 then 1 else 0, if n > 3 then size else 0, if n > 6 then None else Some(0);
    if n == 0 then Init()
    else if n == 8 then
      State(Counters(1, size, size, size, 1, 1), map[0 := FreeCurrent(0, size)],
            [Block(size, false, true, false, Some(0), size, 1)], [Call(0, size, 1, size)], false)
    else if n == 9 then
      State(Counters(1, size, size, 0, 1, 1), map[0 := FreeLive(0)],
            [Block(size, false, true, false, Some(0), 0, 1)], [Call(0, size, 1, size)], false)
    else if n > 9 then
      State(Counters(1, size, size, 0, 0, 1), map[0 := Idle],
            [Block(size, false, true, false, None, 0, 0)], [Call(0, size, 1, size)], false)
    else
      var pc :=
        if n == 1 then AllocCount(0, 0, size) else if n == 2 then AllocTotal(0, 0, size)
        else if n == 3 then AllocCurrent(0, size) else if n == 4 then AllocPeak(0, size)
        else if n == 5 then AllocLive(0) else if n == 6 then AllocPeakLive(0, 1) else Idle;
      var c := Counters(if n > 1 then 1 else 0, if n > 2 then size else 0, if n > 4 then size else 0, b, one,
                        if n > 6 then 1 else 0);
      State(c, map[0 := pc], [Block(size, true, true, false, y, b, one)],
            [Call(0, size, if n > 1 then 1 else 0, if n > 2 then size else 0)], false)
  }

  lemma AloneStep(n: nat, size: u64)
    requires n < 10
    ensures Next(AloneState(n, size), AloneLabel(n, size)) == AloneState(n + 1, size)
  {
    hide Wrap, Growth;
    assert Wrap(size) == size && Wrap(1) == 1 && Wrap(0) == 0;
    var s := AloneState(n, size);
    assert n > 0 ==> s.pcs[0 := At(AloneState(n + 1, size), 0)] == AloneState(n + 1, size).pcs;
  }

  lemma {:induction false} AloneRun(n: nat, size: u64)
    requires n <= 10
    ensures After(Alone(n, size)) == AloneState(n, size)
  {
    if n > 0 {
      AloneRun(n - 1, size);
      AloneStep(n - 1, size);
      assert Alone(n, size)[..|Alone(n, size)| - 1] == Alone(n - 1, size);
      hide Next, AloneLabel;
    }
  }

  /** An example: a block allocated and freed before the profiler starts still sets the peak it reports. */
  lemma PeakIsNotWindowed(size: u64)
    requires size > 0
    ensures var before := Alone(10, size);
            && Quiescent(After(before)) && !After(before).wrapped && NoneMixed(After(before))
            && Stop(After(before).c, After(before + []).c).peak == size && HighSince(before, [], BytesGauge) == 0
  {
    AloneRun(10, size);
    hide Run;
    assert Alone(10, size) + [] == Alone(10, size);
  }
}
