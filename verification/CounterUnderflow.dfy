/**
 When subtractions underflow after all: a block whose allocation was skipped by the guard and whose release is tracked.
 This module says exactly when calls that are all tracked can get there.
 */
module CounterUnderflow {
  import opened Wrappers
  import opened Words
  import opened CounterMachine
  import opened CounterInvariant
  import opened CounterSteps
  import opened CounterTheorems

  /** An example: a block whose allocation was skipped and whose release was tracked. */
  lemma MixedUnderflows(size: u64)
    requires size > 0
    ensures var labels := [Label(0, Alloc(size, false)), Label(0, Dealloc(0, true))];
            && !After(labels).wrapped && !NoneMixed(After(labels)) && Underflows(After(labels), Label(0, Go))
            && After(labels + [Label(0, Go)]).c.current == TWO_64 - size
  {
    var a, b, g := Label(0, Alloc(size, false)), Label(0, Dealloc(0, true)), Label(0, Go);
    assert [a, b, g][..2] == [a, b] && [a, b][..1] == [a] && [a][..0] == [];
    assert [a, b] + [g] == [a, b, g];
    var s1 := Next(Init(), a);
    assert Run(Init(), []) == Init();
    assert After([a]) == s1;
    assert s1.blocks == [Block(size, true, false, false, None, 0, 0)] && s1.pcs == map[];
    var s2 := Next(s1, b);
    assert After([a, b]) == s2;
    assert s2.blocks[0].mixed;
    assert At(s2, 0) == FreeCurrent(0, size);
    assert After([a, b, g]) == Next(s2, g);
    ModUnique(-(size as int), TWO_64, -1, TWO_64 - size);
  }


  // No call is in progress, nothing has wrapped, and no block's calls were mixed.
  ghost predicate Resting(labels: seq<Label>) {
    Quiescent(After(labels)) && !After(labels).wrapped && NoneMixed(After(labels))
  }

  // Every call begun is tracked.
  ghost predicate Tracking(labels: seq<Label>) {
    forall k :: 0 <= k < |labels| ==> labels[k].act.Go? || labels[k].act.tracked
  }

  // No addition overflows in what comes after.
  ghost predicate NoneOverflowSince(before: seq<Label>, more: seq<Label>) {
    forall n :: 0 <= n < |more| ==> !Overflows(After(before + more[..n]), more[n])
  }

  ghost predicate UnderflowsAfter(before: seq<Label>, more: seq<Label>, l: Label) {
    Tracking(more) && NoneOverflowSince(before, more) && Underflows(After(before + more), l)
  }

  // A live block whose allocation was skipped.
  ghost predicate LiveSkipped(s: State, b: nat) {
    b < |s.blocks| && s.blocks[b].live && !s.blocks[b].tracked
  }

  // Without such a block.

  ghost predicate AllLiveTracked(s: State) {
    forall b: nat :: !LiveSkipped(s, b)
  }

  lemma TrackingKeeps(s: State, l: Label)
    requires AllLiveTracked(s) && NoneMixed(s) && (l.act.Go? || l.act.tracked)
    ensures AllLiveTracked(Next(s, l)) && NoneMixed(Next(s, l))
  {
    var pc := At(s, l.t);
    if pc != Idle {
      if l.act.Go? && Sane(s, pc) {
        StepKinds(s, l.t, pc);
      }
      hide Step;
    } else {
      assert l.act.Dealloc? && Usable(s, l.act.b) ==> !LiveSkipped(s, l.act.b);
      assert l.act.Realloc? && Usable(s, l.act.b) ==> !LiveSkipped(s, l.act.b);
    }
    forall b: nat ensures !LiveSkipped(Next(s, l), b) {
      assert !LiveSkipped(s, b);
    }
  }

  lemma After1(before: seq<Label>, more: seq<Label>)
    requires more != []
    ensures var n := |more| - 1; After(before + more) == Next(After(before + more[..n]), more[n])
  {
    assert (before + more)[..|before| + |more| - 1] == before + more[..|more| - 1];
    hide Next;
  }

  lemma SincePrefix(before: seq<Label>, more: seq<Label>)
    requires more != [] && NoneOverflowSince(before, more) && Tracking(more)
    ensures var n := |more| - 1;
            && NoneOverflowSince(before, more[..n]) && Tracking(more[..n])
            && !Overflows(After(before + more[..n]), more[n]) && (more[n].act.Go? || more[n].act.tracked)
  {
    var n := |more| - 1;
    forall k | 0 <= k < n ensures !Overflows(After(before + more[..n][..k]), more[..n][k]) {
      assert more[..n][..k] == more[..k];
    }
  }

  lemma {:induction false} NeverUnderflows(before: seq<Label>, more: seq<Label>)
    requires Resting(before) && AllLiveTracked(After(before)) && Tracking(more) && NoneOverflowSince(before, more)
    ensures var s := After(before + more); AllLiveTracked(s) && NoneMixed(s) && !s.wrapped
    decreases |more|
  {
    if more == [] {
      assert before + more == before;
    } else {
      hide *;
      var n := |more| - 1;
      SincePrefix(before, more);
      NeverUnderflows(before, more[..n]);
      After1(before, more);
      var s := After(before + more[..n]);
      TrackingKeeps(s, more[n]);
      InvAfter(before + more[..n]);
      NoUnderflowNow(s, more[n]);
      NextInRange(s, more[n]);
    }
  }

  // With such a block: release every tracked block, and then that one.

  lemma {:induction false} SumZero<T>(xs: seq<T>, f: T -> int)
    requires forall i :: 0 <= i < |xs| ==> f(xs[i]) == 0
    ensures Sum(xs, f) == 0
  {
    if xs != [] {
      SumZero(xs[..|xs| - 1], f);
    }
  }

  function Release(b: nat): seq<Label> {
    [Label(0, Dealloc(b, true)), Label(0, Go), Label(0, Go)]
  }

  lemma ThreeSteps(before: seq<Label>, l: seq<Label>)
    requires |l| == 3
    ensures var s1 := Next(After(before), l[0]);
            var s2 := Next(s1, l[1]);
            && After(before + l[..0]) == After(before) && After(before + l[..1]) == s1 && After(before + l[..2]) == s2
            && After(before + l) == Next(s2, l[2])
  {
    assert before + l[..0] == before && l[..1][..0] == l[..0] && l[..2][..1] == l[..1];
    hide Next;
    After1(before, l[..1]);
    After1(before, l[..2]);
    After1(before, l);
  }

  // Block b is released by thread 0, alone.
  lemma ReleaseSteps(s: State, b: nat)
    requires Inv(s) && Quiescent(s) && NoneMixed(s) && b < |s.blocks| && s.blocks[b].live && s.blocks[b].tracked
    ensures var s1 := Next(s, Label(0, Dealloc(b, true)));
            var s2 := Next(s1, Label(0, Go));
            var s3 := Next(s2, Label(0, Go));
            && At(s, 0) == Idle && At(s1, 0) == FreeCurrent(b, s.blocks[b].size) && At(s2, 0) == FreeLive(b)
            && Quiescent(s3) && NoneMixed(s1) && NoneMixed(s2) && NoneMixed(s3)
            && |s3.blocks| == |s.blocks| && !s3.blocks[b].live
            && (forall k :: 0 <= k < |s.blocks| && k != b ==> s3.blocks[k] == s.blocks[k])
            && s1.wrapped == s.wrapped
  {
    assert BlockOk(s, b);
    hide Inv, Wrap;
  }

  lemma ReleaseOne(before: seq<Label>, b: nat)
    requires Resting(before)
    requires b < |After(before).blocks| && After(before).blocks[b].live && After(before).blocks[b].tracked
    ensures Resting(before + Release(b)) && NoneOverflowSince(before, Release(b))
    ensures var x, y := After(before).blocks, After(before + Release(b)).blocks;
            && |y| == |x| && !y[b].live && (forall k :: 0 <= k < |x| && k != b ==> y[k] == x[k])
  {
    var l := Release(b);
    var s := After(before);
    var s1 := Next(s, l[0]);
    var s2 := Next(s1, l[1]);
    ThreeSteps(before, l);
    InvAfter(before);
    hide Run, Next, Inv, Quiescent, NoneMixed;
    ReleaseSteps(s, b);
    NextOk(s, l[0]);
    NextOk(s1, l[1]);
    NoUnderflowNow(s1, l[1]);
    NextInRange(s1, l[1]);
    NoUnderflowNow(s2, l[2]);
    NextInRange(s2, l[2]);
  }

  lemma Slices<T>(before: seq<T>, a: seq<T>, b: seq<T>, n: nat)
    requires n < |a + b|
    ensures n < |a| ==> (a + b)[..n] == a[..n] && (a + b)[n] == a[n]
    ensures n >= |a| ==> before + (a + b)[..n] == before + a + b[..n - |a|] && (a + b)[n] == b[n - |a|]
  {
  }

  lemma SinceTwice(before: seq<Label>, a: seq<Label>, b: seq<Label>)
    requires NoneOverflowSince(before, a) && NoneOverflowSince(before + a, b) && Tracking(a) && Tracking(b)
    ensures NoneOverflowSince(before, a + b) && Tracking(a + b) && before + (a + b) == before + a + b
  {
    var c := a + b;
    hide Overflows, After, Tracking;
    forall n: nat | n < |c| ensures !Overflows(After(before + c[..n]), c[n]) {
      Slices(before, a, b, n);
    }
    TrackingTwice(a, b);
    assert before + c == before + a + b by {
      hide NoneOverflowSince;
    }
  }

  lemma TrackingTwice(a: seq<Label>, b: seq<Label>)
    requires Tracking(a) && Tracking(b)
    ensures Tracking(a + b)
  {
  }

  ghost predicate NoLiveTracked(s: State) {
    forall b: nat :: b < |s.blocks| ==> !(s.blocks[b].live && s.blocks[b].tracked)
  }

  lemma LiveOneNotNegative(blocks: seq<Block>)
    ensures Sum(blocks, LiveOne) >= 0
  {
    SumNotNegative(blocks, LiveOne);
  }

  lemma OneLess(x: seq<Block>, y: seq<Block>, b: nat)
    requires b < |x| == |y| && x[b].live && x[b].tracked && !y[b].live
    requires forall k :: 0 <= k < |x| && k != b ==> y[k] == x[k]
    ensures Sum(y, LiveOne) == Sum(x, LiveOne) - 1
  {
    assert y == x[b := y[b]];
    SumPut(x, LiveOne, b, y[b]);
  }

  lemma {:induction false} ReleaseAll(before: seq<Label>, b0: nat) returns (more: seq<Label>)
    requires Resting(before) && LiveSkipped(After(before), b0)
    ensures Resting(before + more) && LiveSkipped(After(before + more), b0) && NoLiveTracked(After(before + more))
    ensures Tracking(more) && NoneOverflowSince(before, more)
    decreases Sum(After(before).blocks, LiveOne)
  {
    var s := After(before);
    LiveOneNotNegative(s.blocks);
    if b: nat :| b < |s.blocks| && s.blocks[b].live && s.blocks[b].tracked {
      hide Resting, Run, NoneOverflowSince;
      ReleaseOne(before, b);
      var x, y := s.blocks, After(before + Release(b)).blocks;
      OneLess(x, y, b);
      LiveOneNotNegative(y);
      var rest := ReleaseAll(before + Release(b), b0);
      SinceTwice(before, Release(b), rest);
      more := Release(b) + rest;
    } else {
      more := [];
      assert before + more == before;
    }
  }

  lemma EmptyCounters(labels: seq<Label>)
    requires Resting(labels) && NoLiveTracked(After(labels))
    ensures After(labels).c.current == 0 && After(labels).c.live == 0
  {
    ExactAtRest(labels);
    SumZero(After(labels).blocks, LiveSize);
    SumZero(After(labels).blocks, LiveOne);
    hide Run, Quiescent, NoneMixed, NoneOverflow, Sum;
  }

  // The release of a skipped block from empty counters.
  lemma LastRelease(s: State, b: nat)
    requires Inv(s) && Quiescent(s) && LiveSkipped(s, b) && s.c.current == 0 && s.c.live == 0
    ensures var s1 := Next(s, Label(0, Dealloc(b, true)));
            var s2 := Next(s1, Label(0, Go));
            && At(s, 0) == Idle && At(s1, 0) == FreeCurrent(b, s.blocks[b].size)
            && (s.blocks[b].size > 0 ==> Underflows(s1, Label(0, Go)))
            && (s.blocks[b].size == 0 ==> Underflows(s2, Label(0, Go)))
  {
    assert BlockOk(s, b);
    hide Inv, Wrap;
    assert Wrap(0) == 0;
  }

  lemma TwoSteps(before: seq<Label>, a: Label, b: Label)
    ensures After(before + [a]) == Next(After(before), a)
    ensures After(before + [a, b]) == Next(Next(After(before), a), b)
    ensures [a, b][..1] == [a] && [a, b][..0] == [] && [a][..0] == [] && before + [] == before
  {
    assert [a, b][..1] == [a];
    assert before + [a][..0] == before;
    hide Next;
    After1(before, [a]);
    After1(before, [a, b]);
  }

  lemma SkippedUnderflows(before: seq<Label>, b: nat) returns (more: seq<Label>, l: Label)
    requires Resting(before) && LiveSkipped(After(before), b)
    ensures UnderflowsAfter(before, more, l)
  {
    var first := ReleaseAll(before, b);
    var rest, go, free := before + first, Label(0, Go), Label(0, Dealloc(b, true));
    EmptyCounters(rest);
    InvAfter(rest);
    TwoSteps(rest, free, go);
    hide Run, Next, Inv, Quiescent, NoneMixed, NoLiveTracked, After;
    LastRelease(After(rest), b);
    l := go;
    var last := if After(rest).blocks[b].size > 0 then [free] else [free, go];
    assert NoneOverflowSince(rest, last) && Tracking(last);
    hide NoneOverflowSince, Tracking;
    SinceTwice(before, first, last);
    more := first + last;
  }

  /**
   From a state at rest whose blocks are unmixed, some continuation of tracked calls, in which no addition overflows,
   underflows if and only if there is a live block whose allocation was skipped.
   */
  lemma UnderflowsExactlyWhen(before: seq<Label>)
    requires Resting(before)
    ensures (exists more, l :: UnderflowsAfter(before, more, l)) <==> exists b :: LiveSkipped(After(before), b)
  {
    if b :| LiveSkipped(After(before), b) {
      hide *;
      var more, l := SkippedUnderflows(before, b);
    } else if more, l :| UnderflowsAfter(before, more, l) {
      assert AllLiveTracked(After(before));
      NeverUnderflows(before, more);
      InvAfter(before + more);
      hide Run, Inv, AllLiveTracked, NoneMixed;
      NoUnderflowNow(After(before + more), l);
      assert false;
    }
  }
}
