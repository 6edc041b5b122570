/** What the allocation counters mean, in every interleaving. */
module CounterTheorems {
  import opened Wrappers
  import opened Words
  import opened CounterMachine
  import opened CounterInvariant
  import opened CounterSteps

  function After(labels: seq<Label>): State {
    Run(Init(), labels)
  }

  lemma LastOf<T>(xs: seq<T>, ys: seq<T>)
    requires ys != []
    ensures xs + ys == xs + ys[..|ys| - 1] + [ys[|ys| - 1]]
  {
  }

  lemma AfterLast(labels: seq<Label>, l: Label)
    ensures After(labels + [l]) == Next(After(labels), l)
  {
    assert (labels + [l])[..|labels|] == labels;
    hide Next;
  }

  // Underflow.

  // The next step of the label's thread subtracts more than the counter holds.
  ghost predicate Underflows(s: State, l: Label) {
    var pc := At(s, l.t);
    l.act.Go? && match pc
      case FreeCurrent(_, size) => s.c.current < size
      case Shrink(_, delta) => s.c.current < delta
      case FreeLive(_) => s.c.live < 1
      case _ => false
  }

  lemma NotNegative(s: State, b: nat)
    requires Inv(s) && b < |s.blocks| && !s.blocks[b].mixed
    ensures Bytes(s.blocks[b]) >= 0 && Alive(s.blocks[b]) >= 0
  {
    assert BlockOk(s, b);
    var user := s.blocks[b].user;
    if user.Some? {
      assert ThreadOk(s.blocks, s.calls, user.value, At(s, user.value));
    }
    hide Exact;
  }

  lemma NoUnderflowNow(s: State, l: Label)
    requires Inv(s) && NoneMixed(s) && !s.wrapped
    ensures !Underflows(s, l)
  {
    ThreadIs(s, l.t);
    hide Inv;
    forall b: nat | b < |s.blocks| ensures Bytes(s.blocks[b]) >= 0 && Alive(s.blocks[b]) >= 0 {
      NotNegative(s, b);
    }
    if At(s, l.t) != Idle {
      SumAtLeast(s.blocks, Bytes, At(s, l.t).b);
      SumAtLeast(s.blocks, Alive, At(s, l.t).b);
    }
    hide Sum;
  }

  // The next step of the label's thread adds beyond 64 bits.
  ghost predicate Overflows(s: State, l: Label) {
    var pc := At(s, l.t);
    l.act.Go? && match pc
      case AllocCurrent(_, size) => s.c.current + size >= TWO_64
      case ResizeCurrent(_, delta) => s.c.current + delta >= TWO_64
      case AllocLive(_) => s.c.live + 1 >= TWO_64
      case _ => false
  }

  ghost predicate NoneOverflow(labels: seq<Label>) {
    forall n :: 0 <= n < |labels| ==> !Overflows(After(labels[..n]), labels[n])
  }

  lemma StepInRange(s: State, t: Tid)
    requires Sane(s, At(s, t)) && !s.wrapped && !Underflows(s, Label(t, Go)) && !Overflows(s, Label(t, Go))
    ensures !Step(s, t, At(s, t)).wrapped
  {
    hide Max;
  }

  lemma NextInRange(s: State, l: Label)
    requires Inv(s) && !s.wrapped && !Underflows(s, l) && !Overflows(s, l)
    ensures !Next(s, l).wrapped
  {
    ThreadIs(s, l.t);
    if At(s, l.t) != Idle && l.act.Go? {
      StepInRange(s, l.t);
    }
    hide Step, Inv, Exact, ThreadOk;
  }

  // A step changes neither which blocks are live nor how they are treated.
  ghost predicate SameKinds(a: seq<Block>, b: seq<Block>) {
    |a| == |b| && forall k :: 0 <= k < |a| ==>
      b[k].live == a[k].live && b[k].tracked == a[k].tracked && b[k].mixed == a[k].mixed
  }

  lemma StepKinds(s: State, t: Tid, pc: PC)
    requires Sane(s, pc)
    ensures SameKinds(s.blocks, Step(s, t, pc).blocks)
  {
    StepMoves(s, t, pc);
    hide Step, Wrap, Max;
  }

  // A mixed block stays mixed.
  lemma MixedStays(s: State, l: Label)
    requires NoneMixed(Next(s, l))
    ensures NoneMixed(s)
  {
    var s', pc := Next(s, l), At(s, l.t);
    if pc != Idle {
      if l.act.Go? && Sane(s, pc) {
        StepKinds(s, l.t, pc);
      }
      hide Step;
    }
    forall b | 0 <= b < |s.blocks| ensures !s.blocks[b].mixed {
      assert !s'.blocks[b].mixed;
    }
  }

  lemma {:induction false} StaysInRange(labels: seq<Label>)
    requires NoneMixed(After(labels)) && NoneOverflow(labels)
    ensures !After(labels).wrapped
  {
    if labels != [] {
      var n := |labels| - 1;
      var before := labels[..n];
      assert NoneOverflow(before) by {
        forall k | 0 <= k < n ensures !Overflows(After(before[..k]), before[k]) {
          assert before[..k] == labels[..k];
        }
      }
      assert After(labels) == Next(After(before), labels[n]);
      assert !Overflows(After(before), labels[n]);
      RunOk(before);
      hide *;
      MixedStays(After(before), labels[n]);
      StaysInRange(before);
      NoUnderflowNow(After(before), labels[n]);
      NextInRange(After(before), labels[n]);
    }
  }

  lemma {:induction false} MixedStaysAll(labels: seq<Label>, n: nat)
    requires n <= |labels| && NoneMixed(After(labels))
    ensures NoneMixed(After(labels[..n]))
    decreases |labels|
  {
    if n < |labels| {
      var m := |labels| - 1;
      MixedStays(After(labels[..m]), labels[m]);
      hide NoneMixed, Next;
      MixedStaysAll(labels[..m], n);
      assert labels[..m][..n] == labels[..n];
    } else {
      assert labels[..n] == labels;
    }
  }

  lemma OverflowPrefix(labels: seq<Label>, n: nat)
    requires n <= |labels| && NoneOverflow(labels)
    ensures NoneOverflow(labels[..n])
  {
    forall k | 0 <= k < n ensures !Overflows(After(labels[..n][..k]), labels[..n][k]) {
      assert labels[..n][..k] == labels[..k];
    }
  }

  /**
   No subtraction underflows: in every interleaving in which every block's calls have been all tracked or all skipped,
   and no addition has overflowed, no counter has ever wrapped, and no thread's next step, at any moment of the run,
   subtracts more than the counter holds.
   */
  lemma NoUnderflow(labels: seq<Label>, n: nat, l: Label)
    requires NoneMixed(After(labels)) && NoneOverflow(labels) && n <= |labels|
    ensures !After(labels[..n]).wrapped && !Underflows(After(labels[..n]), l)
  {
    hide *;
    MixedStaysAll(labels, n);
    OverflowPrefix(labels, n);
    StaysInRange(labels[..n]);
    InvAfter(labels[..n]);
    NoUnderflowNow(After(labels[..n]), l);
  }

  lemma InvAfter(labels: seq<Label>)
    ensures Inv(After(labels))
  {
    RunOk(labels);
    hide Inv, Run;
  }

  // At rest.

  // Sizes and number of the live blocks whose allocation was tracked; calls that count as allocations; their growth.

  function LiveSize(x: Block): int { if x.live && x.tracked then x.size else 0 }

  function LiveOne(x: Block): int { if x.live && x.tracked then 1 else 0 }

  function One(y: Call): int { 1 }

  function GrowthOf(y: Call): int { y.growth }

  lemma {:induction false} SumSame<T>(xs: seq<T>, f: T -> int, g: T -> int)
    requires forall i :: 0 <= i < |xs| ==> f(xs[i]) == g(xs[i])
    ensures Sum(xs, f) == Sum(xs, g)
  {
    if xs != [] {
      SumSame(xs[..|xs| - 1], f, g);
    }
  }

  lemma {:induction false} SumOne(calls: seq<Call>)
    ensures Sum(calls, One) == |calls|
  {
    if calls != [] {
      SumOne(calls[..|calls| - 1]);
    }
  }

  lemma RestingBlocks(s: State)
    requires Inv(s) && Quiescent(s) && NoneMixed(s)
    ensures forall b :: 0 <= b < |s.blocks| ==> Settled(s.blocks[b])
  {
    forall b: nat | b < |s.blocks| ensures Settled(s.blocks[b]) {
      assert BlockOk(s, b);
    }
  }

  lemma RestingCalls(s: State)
    requires Inv(s) && Quiescent(s)
    ensures forall k :: 0 <= k < |s.calls| ==> s.calls[k].counted == 1 && s.calls[k].grown == s.calls[k].growth
  {
    forall k: nat | k < |s.calls| ensures s.calls[k].counted == 1 && s.calls[k].grown == s.calls[k].growth {
      assert CallOk(s, k);
      assert CallOf(Idle) == None;
    }
  }

  /**
   When no call is in progress, alloc_count is the number of tracked allocations and reallocations and total_bytes
   the sum of their growth, modulo 2^64; and if no block's calls were mixed, current_bytes is the total size of the
   live tracked blocks and live_count their number, exactly unless a counter has wrapped, which takes an overflow.
   */
  lemma ExactAtRest(labels: seq<Label>)
    requires Quiescent(After(labels))
    ensures var s := After(labels);
            && s.c.allocs == Wrap(|s.calls|) && s.c.total == Wrap(Sum(s.calls, GrowthOf))
            && (NoneMixed(s) ==>
                  && s.c.current == Wrap(Sum(s.blocks, LiveSize)) && s.c.live == Wrap(Sum(s.blocks, LiveOne))
                  && (NoneOverflow(labels) ==> !s.wrapped)
                  && (!s.wrapped ==> s.c.current == Sum(s.blocks, LiveSize) && s.c.live == Sum(s.blocks, LiveOne)))
  {
    var s := After(labels);
    if NoneMixed(s) && NoneOverflow(labels) {
      StaysInRange(labels);
    }
    hide NoneOverflow;
    RunOk(labels);
    hide Run;
    InvIs(s);
    RestingCalls(s);
    SumOne(s.calls);
    SumSame(s.calls, Counted, One);
    SumSame(s.calls, Grown, GrowthOf);
    if NoneMixed(s) {
      RestingBlocks(s);
      SumSame(s.blocks, Bytes, LiveSize);
      SumSame(s.blocks, Alive, LiveOne);
    }
    hide Inv, Sum, Wrap;
  }

  // Peaks.

  // A gauge is current_bytes with peak_bytes, or live_count with peak_live_count.
  datatype Gauge = BytesGauge | LiveGauge

  function Level(s: State, g: Gauge): u64 {
    if g.BytesGauge? then s.c.current else s.c.live
  }

  function Peak(s: State, g: Gauge): u64 {
    if g.BytesGauge? then s.c.peak else s.c.peakLive
  }

  // The level a thread has reached but has not yet compared with the peak.
  function Pending(pc: PC, g: Gauge): Option<u64> {
    if g.BytesGauge? then
      if pc.AllocPeak? || pc.ResizePeak? then Some(pc.seen) else None
    else if pc.AllocPeakLive? then Some(pc.seen)
    else None
  }

  function Larger(x: nat, y: nat): nat {
    if x < y then y else x
  }

  /** The highest level there has been at any moment of a run. */
  function HighWater(labels: seq<Label>, g: Gauge): nat {
    if labels == [] then 0 else Larger(HighWater(labels[..|labels| - 1], g), Level(After(labels), g))
  }

  // The greatest of the peak and all pending levels is high.
  ghost predicate GreatestIs(s: State, g: Gauge, high: nat) {
    && Peak(s, g) <= high
    && (forall t :: t in s.pcs && Pending(s.pcs[t], g).Some? ==> Pending(s.pcs[t], g).value <= high)
    && (Peak(s, g) == high || exists t :: t in s.pcs && Pending(s.pcs[t], g) == Some(high))
  }

  // What a step of thread t does to a gauge.
  ghost predicate GaugeMoves(s: State, s': State, t: Tid, g: Gauge) {
    var before, after := Pending(At(s, t), g), Pending(At(s', t), g);
    && (forall u :: u != t ==> At(s', u) == At(s, u))
    && (Peak(s', g) == if before.Some? then Max(Peak(s, g), before.value) else Peak(s, g))
    && (if after.Some? then before.None? && after.value == Level(s', g) else Level(s', g) <= Level(s, g))
  }

  ghost predicate Waits(s: State, s': State, t: Tid, g: Gauge) {
    && (forall u :: At(s', u) == At(s, u)) && Peak(s', g) == Peak(s, g) && Level(s', g) == Level(s, g)
  }

  lemma StepGauge(s: State, t: Tid, g: Gauge)
    requires Sane(s, At(s, t)) && !Step(s, t, At(s, t)).wrapped
    ensures GaugeMoves(s, Step(s, t, At(s, t)), t, g)
  {
    hide Wrap;
    WrapSmall(s.c.current);
    WrapSmall(s.c.live);
  }

  // A change that does not leave the range goes the way it should.
  lemma WrapSmall(x: u64)
    ensures forall d: int {:trigger Wrap(x + d)} :: Wrap(x + d) == x + d && d <= 0 ==> Wrap(x + d) <= x
  {
  }

  lemma NextGauge(s: State, l: Label, g: Gauge)
    requires !Next(s, l).wrapped
    ensures Waits(s, Next(s, l), l.t, g) || GaugeMoves(s, Next(s, l), l.t, g)
  {
    var pc := At(s, l.t);
    if pc != Idle && l.act.Go? && Sane(s, pc) {
      StepGauge(s, l.t, g);
    }
    hide Step, Wrap;
  }

  lemma GaugeKeeps(s: State, s': State, t: Tid, g: Gauge, high: nat)
    requires GreatestIs(s, g, high) && Level(s, g) <= high && GaugeMoves(s, s', t, g)
    ensures GreatestIs(s', g, Larger(high, Level(s', g)))
  {
    hide Level, Peak;
    var high' := Larger(high, Level(s', g));
    forall u | u in s'.pcs && Pending(s'.pcs[u], g).Some? ensures Pending(s'.pcs[u], g).value <= high' {
      assert At(s', u) == s'.pcs[u];
      if u != t {
        assert At(s, u) == s'.pcs[u];
      }
    }
    if Peak(s', g) != high' && high' == high {
      var u :| u in s.pcs && Pending(s.pcs[u], g) == Some(high);
      assert At(s', u) == At(s, u) || u == t;
    }
  }

  lemma NextWrapped(s: State, l: Label)
    requires s.wrapped
    ensures Next(s, l).wrapped
  {
    hide Wrap, Max;
  }

  lemma GaugeWaits(s: State, s': State, t: Tid, g: Gauge, high: nat)
    requires GreatestIs(s, g, high) && Level(s, g) <= high && Waits(s, s', t, g)
    ensures GreatestIs(s', g, Larger(high, Level(s', g)))
  {
    hide Level, Peak;
    forall u | u in s'.pcs && Pending(s'.pcs[u], g).Some? ensures Pending(s'.pcs[u], g).value <= high {
      assert At(s', u) == At(s, u);
    }
    if Peak(s', g) != high {
      var u :| u in s.pcs && Pending(s.pcs[u], g) == Some(high);
      assert At(s', u) == At(s, u);
    }
  }

  /**
   Peaks are exact: in every interleaving in which nothing has wrapped, the greatest of the peak and of all levels that
   threads have reached but not yet compared with it is the highest level there has ever been; so when no call is in
   progress, the peak is that level.
   */
  lemma {:induction false} PeakIsHighWater(labels: seq<Label>, g: Gauge)
    requires !After(labels).wrapped
    ensures GreatestIs(After(labels), g, HighWater(labels, g)) && Level(After(labels), g) <= HighWater(labels, g)
    ensures Quiescent(After(labels)) ==> Peak(After(labels), g) == HighWater(labels, g)
    decreases |labels|
  {
    if labels != [] {
      var n := |labels| - 1;
      var s, s' := After(labels[..n]), After(labels);
      assert s' == Next(s, labels[n]);
      var high := HighWater(labels[..n], g);
      assert HighWater(labels, g) == Larger(high, Level(s', g));
      hide Next, GaugeMoves, Waits, GreatestIs, Level, Peak, Run, HighWater;
      if s.wrapped {
        NextWrapped(s, labels[n]);
      }
      PeakIsHighWater(labels[..n], g);
      NextGauge(s, labels[n], g);
      if Waits(s, s', labels[n].t, g) {
        GaugeWaits(s, s', labels[n].t, g, high);
      } else {
        GaugeKeeps(s, s', labels[n].t, g, high);
      }
    }
    RestingPeak(After(labels), g, HighWater(labels, g));
  }

  lemma RestingPeak(s: State, g: Gauge, high: nat)
    ensures GreatestIs(s, g, high) && Quiescent(s) ==> Peak(s, g) == high
  {
    hide Level, Peak;
  }
}
