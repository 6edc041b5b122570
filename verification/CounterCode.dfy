/**
 The program's own code for the counters: record_alloc, record_dealloc and record_realloc, and the allocator's entry
 points with their reentrancy guard, as methods over the six counter fields. Before every atomic operation the other
 threads may take any number of steps. Each atomic operation is one step of the counter machine.
 */
module CounterCode {
  import opened Words
  import opened CounterMachine
  import opened CounterInvariant
  import opened CounterSteps
  import opened CounterTheorems

  // A call of the allocator: what is asked for, on which block of which size, and whether the system allocator could
  // serve it.
  datatype Op =
    | AllocOp(size: u64, served: bool)
    | DeallocOp(b: nat, layout: u64)
    | ReallocOp(b: nat, layout: u64, size: u64, served: bool)

  // A call, with the calls that its own tracking path makes, and whether the thread's local storage is torn down during
  // it.
  datatype Hook = Hook(op: Op, inner: seq<Hook>, teardown: bool)

  // A call that the system allocator could not serve is not recorded.
  predicate Served(op: Op) {
    op.DeallocOp? || op.served
  }

  function ActOf(op: Op, tracked: bool): Act {
    match op
    case AllocOp(size, _) => Alloc(size, tracked)
    case DeallocOp(b, _) => Dealloc(b, tracked)
    case ReallocOp(b, _, size, _) => Realloc(b, size, tracked)
  }

  // What a call begins: itself, tracked if the guard grants it, and then what its tracking path begins.
  function Acts(h: Hook, granted: bool): seq<Act> {
    if !Served(h.op) then [] else [ActOf(h.op, granted)] + if granted then Skipped(h.inner) else []
  }

  function Skipped(hooks: seq<Hook>): seq<Act> {
    if hooks == [] then [] else Skipped(hooks[..|hooks| - 1]) + Acts(hooks[|hooks| - 1], false)
  }

  class ModAlloc {
    var allocCount: u64
    var totalBytes: u64
    var peakBytes: u64
    var currentBytes: u64
    var liveCount: u64
    var peakLiveCount: u64
    // The threads whose IN_ALLOC flag is set, and those whose local storage is no longer available.
    var inAlloc: set<Tid>
    var tlsGone: set<Tid>
    ghost var run: seq<Label>
    ghost var m: State

    function Memory(): Counters
      reads this
    {
      Counters(allocCount, totalBytes, peakBytes, currentBytes, liveCount, peakLiveCount)
    }

    ghost predicate Valid()
      reads this
    {
      m == After(run) && m.c == Memory()
    }

    // Steps have been taken; thread t has begun these calls since, and its flag, where it can be read, is as it was.
    twostate predicate Went(t: Tid, begun: seq<Act>)
      reads this
    {
      && Valid() && old(run) <= run && Begun(run, t) == Begun(old(run), t) + begun
      && (t in old(tlsGone) ==> t in tlsGone)
      && (t !in tlsGone ==> (t in inAlloc <==> t in old(inAlloc)))
    }

    // Meanwhile the thread itself has done nothing to its local storage.
    twostate predicate Kept(t: Tid)
      reads this
    {
      (t in tlsGone <==> t in old(tlsGone)) && (t in inAlloc <==> t in old(inAlloc))
    }

    constructor ()
      ensures Valid() && run == [] && inAlloc == {} && tlsGone == {}
    {
      allocCount, totalBytes, peakBytes, currentBytes, liveCount, peakLiveCount := 0, 0, 0, 0, 0, 0;
      inAlloc, tlsGone, run, m := {}, {}, [], Init();
    }

    /** The other threads take these steps, whichever they are, and leave these counters, flags and local storage. */
    method Others(ghost t: Tid, ghost more: seq<Label>, c: Counters, flags: set<Tid>, gone: set<Tid>)
      requires Valid() && c == Run(m, more).c && forall k :: 0 <= k < |more| ==> more[k].t != t
      requires (t in flags <==> t in inAlloc) && (t in gone <==> t in tlsGone)
      modifies this
      ensures Went(t, []) && Kept(t) && At(m, t) == old(At(m, t)) && run == old(run) + more
      ensures forall k :: |old(run)| <= k < |run| ==> run[k].t != t
    {
      hide Run, Begun;
      OthersFit(run, more, t);
      allocCount, totalBytes, peakBytes := c.allocs, c.total, c.peak;
      currentBytes, liveCount, peakLiveCount := c.current, c.live, c.peakLive;
      inAlloc, tlsGone := flags, gone;
      run, m := run + more, Run(m, more);
    }

    /**
     The other threads run: any number of steps of any of them, in any order; the flag is thread-local. Callers know the
     contract only, which is that of Others for every choice of steps; the body chooses none.
     */
    method Interfere(ghost t: Tid)
      requires Valid()
      modifies this
      ensures Went(t, []) && Kept(t) && At(m, t) == old(At(m, t))
      ensures forall k :: |old(run)| <= k < |run| ==> run[k].t != t
    {
      assert Run(m, []) == m;
      Others(t, [], Memory(), inAlloc, tlsGone);
    }

    /** Thread t has just done its atomic operation on the counters: the machine takes the same step. */
    ghost method Tick(t: Tid, pc: PC)
      requires m == After(run) && Goes(run, t, Memory(), pc)
      modifies `m, `run
      ensures Valid() && old(run) <= run && At(m, t) == pc && Begun(run, t) == Begun(old(run), t)
    {
      hide Next, Run, Begun, Start, Step;
      RunOnce(run, Label(t, Go), t);
      run, m := run + [Label(t, Go)], Next(m, Label(t, Go));
    }

    /** Thread t begins a call. */
    ghost method Begin(t: Tid, act: Act)
      requires Valid() && At(m, t) == Idle && !act.Go?
      modifies `m, `run
      ensures Valid() && old(run) <= run && m == Next(old(m), Label(t, act))
      ensures Begun(run, t) == Begun(old(run), t) + [act]
    {
      hide Next, Run, Begun, Start, Step;
      StartCounters(m, t, act);
      RunOnce(run, Label(t, act), t);
      run, m := run + [Label(t, act)], Next(m, Label(t, act));
    }

    // The atomic operations.

    method AddAllocCount(ghost t: Tid)
      requires Valid() && (At(m, t).AllocCount? || At(m, t).ResizeCount?)
      modifies this
      ensures Went(t, []) && Kept(t) && At(m, t) == Onward(old(At(m, t)), 0)
    {
      hide At, After, Begun, Onward, Amount, Wrap, Max, Goes;
      Interfere(t);
      CountGoes(run, t);
      allocCount := Wrap(allocCount + 1);
      Tick(t, Onward(At(m, t), 0));
    }

    method AddTotalBytes(ghost t: Tid, size: u64)
      requires Valid() && (At(m, t).AllocTotal? || At(m, t).ResizeTotal?) && Amount(At(m, t)) == size
      modifies this
      ensures Went(t, []) && Kept(t) && At(m, t) == Onward(old(At(m, t)), 0)
    {
      hide At, After, Begun, Onward, Amount, Wrap, Max, Goes;
      Interfere(t);
      TotalGoes(run, t);
      totalBytes := Wrap(totalBytes + size);
      Tick(t, Onward(At(m, t), 0));
    }

    // Returns the value found.
    method AddCurrentBytes(ghost t: Tid, size: u64) returns (found: u64)
      requires Valid() && (At(m, t).AllocCurrent? || At(m, t).ResizeCurrent?) && Amount(At(m, t)) == size
      modifies this
      ensures Went(t, []) && Kept(t) && At(m, t) == Onward(old(At(m, t)), Wrap(found + size))
    {
      hide At, After, Begun, Onward, Amount, Wrap, Max, Goes;
      Interfere(t);
      CurrentGoes(run, t);
      found := currentBytes;
      currentBytes := Wrap(currentBytes + size);
      Tick(t, Onward(At(m, t), currentBytes));
    }

    method SubCurrentBytes(ghost t: Tid, size: u64)
      requires Valid() && (At(m, t).FreeCurrent? || At(m, t).Shrink?) && Amount(At(m, t)) == size
      modifies this
      ensures Went(t, []) && Kept(t) && At(m, t) == Onward(old(At(m, t)), 0)
    {
      hide At, After, Begun, Onward, Amount, Wrap, Max, Goes;
      Interfere(t);
      SubGoes(run, t);
      currentBytes := Wrap(currentBytes + -(size as int));
      Tick(t, Onward(At(m, t), 0));
    }

    method RaisePeakBytes(ghost t: Tid, seen: u64)
      requires Valid() && (At(m, t).AllocPeak? || At(m, t).ResizePeak?) && At(m, t).seen == seen
      modifies this
      ensures Went(t, []) && Kept(t) && At(m, t) == Onward(old(At(m, t)), 0)
    {
      hide At, After, Begun, Onward, Amount, Wrap, Max, Goes;
      Interfere(t);
      PeakGoes(run, t);
      peakBytes := Max(peakBytes, seen);
      Tick(t, Onward(At(m, t), 0));
    }

    method AddLiveCount(ghost t: Tid) returns (found: u64)
      requires Valid() && At(m, t).AllocLive?
      modifies this
      ensures Went(t, []) && Kept(t) && At(m, t) == Onward(old(At(m, t)), Wrap(found + 1))
    {
      hide At, After, Begun, Onward, Amount, Wrap, Max, Goes;
      Interfere(t);
      LiveGoes(run, t);
      found := liveCount;
      liveCount := Wrap(liveCount + 1);
      Tick(t, Onward(At(m, t), liveCount));
    }

    method SubLiveCount(ghost t: Tid)
      requires Valid() && At(m, t).FreeLive?
      modifies this
      ensures Went(t, []) && Kept(t) && At(m, t) == Idle
    {
      hide At, After, Begun, Onward, Amount, Wrap, Max, Goes;
      Interfere(t);
      LiveGoes(run, t);
      liveCount := Wrap(liveCount - 1);
      Tick(t, Idle);
    }

    method RaisePeakLiveCount(ghost t: Tid, seen: u64)
      requires Valid() && At(m, t).AllocPeakLive? && At(m, t).seen == seen
      modifies this
      ensures Went(t, []) && Kept(t) && At(m, t) == Idle
    {
      hide At, After, Begun, Onward, Amount, Wrap, Max, Goes;
      Interfere(t);
      LiveGoes(run, t);
      peakLiveCount := Max(peakLiveCount, seen);
      Tick(t, Idle);
    }

    // The reentrancy guard.

    method Enter(t: Tid) returns (granted: bool)
      modifies `inAlloc
      ensures granted <==> t !in tlsGone && t !in old(inAlloc)
      ensures inAlloc == if granted then old(inAlloc) + {t} else old(inAlloc)
    {
      granted := false;
      if t !in tlsGone {
        if t !in inAlloc {
          inAlloc := inAlloc + {t};
          granted := true;
        }
      }
    }

    method Drop(t: Tid)
      modifies `inAlloc
      ensures inAlloc == if t !in tlsGone then old(inAlloc) - {t} else old(inAlloc)
    {
      if t !in tlsGone {
        inAlloc := inAlloc - {t};
      }
    }

    // The three recorders.

    method RecordAlloc(ghost t: Tid, ghost k: nat, ghost b: nat, size: u64)
      requires Valid() && At(m, t) == AllocCount(k, b, size)
      modifies this
      ensures Went(t, []) && Kept(t) && At(m, t) == Idle
    {
      hide Run, Begun;
      AddAllocCount(t);
      AddTotalBytes(t, size);
      var found := AddCurrentBytes(t, size);
      RaisePeakBytes(t, Wrap(found + size));
      var live := AddLiveCount(t);
      RaisePeakLiveCount(t, Wrap(live as int + 1));
    }

    method RecordDealloc(ghost t: Tid, ghost b: nat, size: u64)
      requires Valid() && At(m, t) == FreeCurrent(b, size)
      modifies this
      ensures Went(t, []) && Kept(t) && At(m, t) == Idle
    {
      hide Run, Begun;
      SubCurrentBytes(t, size);
      SubLiveCount(t);
    }

    method RecordRealloc(ghost t: Tid, ghost k: nat, ghost b: nat, oldSize: u64, newSize: u64)
      requires Valid() && At(m, t) == ResizeCount(k, b, oldSize, newSize)
      modifies this
      ensures Went(t, []) && Kept(t) && At(m, t) == Idle
    {
      hide Run, Begun;
      AddAllocCount(t);
      if newSize > oldSize {
        var delta: u64 := newSize - oldSize;
        AddTotalBytes(t, delta);
        var found := AddCurrentBytes(t, delta);
        RaisePeakBytes(t, Wrap(found + delta));
      } else if newSize < oldSize {
        var delta: u64 := oldSize - newSize;
        SubCurrentBytes(t, delta);
      }
    }

    // Record one call that the guard has granted.
    method Track(ghost t: Tid, op: Op)
      requires Valid() && At(m, t) == Idle && Served(op) && Permitted(m, op)
      modifies this
      ensures Went(t, [ActOf(op, true)]) && Kept(t) && At(m, t) == Idle
    {
      BeginTracked(m, t, op);
      hide Run, Begun, Next;
      Begin(t, ActOf(op, true));
      match op
      case AllocOp(size, _) => RecordAlloc(t, At(m, t).k, At(m, t).b, size);
      case DeallocOp(b, layout) => RecordDealloc(t, b, layout);
      case ReallocOp(b, layout, size, _) => RecordRealloc(t, At(m, t).k, b, layout, size);
    }

    /**
     One call of the allocator on a thread, with every call its tracking path makes, and with the other threads'
     steps in between. The call is tracked exactly if the thread-local flag is available and clear; the inner calls
     never are; and the flag, as long as it can be read, ends as it was, so that an inner call, denied, does not clear
     it for the outer one. The thread's local storage may go away at any of the calls.
     */
    method Call(t: Tid, h: Hook)
      requires Valid() && At(m, t) == Idle
      requires t !in tlsGone && t !in inAlloc && Served(h.op) ==> Permitted(m, h.op)
      modifies this
      ensures Went(t, Acts(h, t !in old(tlsGone) && t !in old(inAlloc))) && At(m, t) == Idle
      decreases h
    {
      hide Run, Begun, Next;
      if !Served(h.op) {
        return;
      }
      var granted := Enter(t);
      if !granted {
        BeginSkipped(m, t, h.op);
        Begin(t, ActOf(h.op, false));
        return;
      }
      Track(t, h.op);
      if h.teardown {
        tlsGone := tlsGone + {t};
      }
      for i := 0 to |h.inner|
        invariant Valid() && old(run) <= run && At(m, t) == Idle && (t in inAlloc || t in tlsGone)
        invariant Begun(run, t) == Begun(old(run), t) + ([ActOf(h.op, true)] + Skipped(h.inner[..i]))
      {
        Call(t, h.inner[i]);
        assert h.inner[..i + 1][..i] == h.inner[..i];
      }
      assert h.inner[..|h.inner|] == h.inner;
      Drop(t);
    }
  }

  // What the allocator's contract demands: the block may be used, and has the size its layout says.
  ghost predicate Permitted(m: State, op: Op) {
    op.AllocOp? || (Usable(m, op.b) && m.blocks[op.b].size == op.layout)
  }

  lemma BeginTracked(m: State, t: Tid, op: Op)
    requires At(m, t) == Idle && Permitted(m, op)
    ensures At(Next(m, Label(t, ActOf(op, true))), t) ==
            match op
            case AllocOp(size, _) => AllocCount(|m.calls|, |m.blocks|, size)
            case DeallocOp(b, layout) => FreeCurrent(b, layout)
            case ReallocOp(b, layout, size, _) => ResizeCount(|m.calls|, b, layout, size)
  {
  }

  lemma BeginSkipped(m: State, t: Tid, op: Op)
    requires At(m, t) == Idle
    ensures At(Next(m, Label(t, ActOf(op, false))), t) == Idle
  {
  }

  predicate Tracked(act: Act) {
    !act.Go? && act.tracked
  }

  function TrackedOnly(acts: seq<Act>): seq<Act> {
    if acts == [] then []
    else TrackedOnly(acts[..|acts| - 1]) + if Tracked(acts[|acts| - 1]) then [acts[|acts| - 1]] else []
  }

  lemma {:induction false} NoneTracked(hooks: seq<Hook>)
    ensures TrackedOnly(Skipped(hooks)) == []
  {
    if hooks != [] {
      var n := |hooks| - 1;
      NoneTracked(hooks[..n]);
      var skipped, last := Skipped(hooks[..n]), Acts(hooks[n], false);
      TrackedTogether(skipped, last);
      assert last == [] || last == [ActOf(hooks[n].op, false)];
      assert last != [] ==> last[..0] == [];
    }
  }

  lemma {:induction false} TrackedTogether(a: seq<Act>, b: seq<Act>)
    ensures TrackedOnly(a + b) == TrackedOnly(a) + TrackedOnly(b)
    decreases |b|
  {
    if b == [] {
      assert a + b == a;
    } else {
      var n := |b| - 1;
      TrackedTogether(a, b[..n]);
      assert (a + b)[..|a| + n] == a + b[..n];
    }
  }

  // A call that the guard grants is tracked exactly if it was served, and then come its inner calls, skipped.
  lemma GrantedIs(size: u64, b: nat, layout: u64, inner: seq<Hook>, teardown: bool)
    ensures Acts(Hook(AllocOp(size, true), inner, teardown), true) == [Alloc(size, true)] + Skipped(inner)
    ensures Acts(Hook(ReallocOp(b, layout, size, true), inner, teardown), true) ==
            [Realloc(b, size, true)] + Skipped(inner)
    ensures Acts(Hook(DeallocOp(b, layout), inner, teardown), true) == [Dealloc(b, true)] + Skipped(inner)
    ensures Acts(Hook(AllocOp(size, false), inner, teardown), true) == []
    ensures Acts(Hook(ReallocOp(b, layout, size, false), inner, teardown), true) == []
  {
  }

  // A call that the guard denies is skipped itself, if it was served, and its inner calls are not made.
  lemma DeniedIs(size: u64, b: nat, layout: u64, inner: seq<Hook>, teardown: bool)
    ensures Acts(Hook(AllocOp(size, true), inner, teardown), false) == [Alloc(size, false)]
    ensures Acts(Hook(ReallocOp(b, layout, size, true), inner, teardown), false) == [Realloc(b, size, false)]
    ensures Acts(Hook(DeallocOp(b, layout), inner, teardown), false) == [Dealloc(b, false)]
    ensures Acts(Hook(AllocOp(size, false), inner, teardown), false) == []
    ensures Acts(Hook(ReallocOp(b, layout, size, false), inner, teardown), false) == []
  {
  }

  // The inner calls are skipped one after the other.
  lemma SkippedIs(hooks: seq<Hook>, h: Hook)
    ensures Skipped([]) == [] && Skipped(hooks + [h]) == Skipped(hooks) + Acts(h, false)
  {
    assert (hooks + [h])[..|hooks|] == hooks;
  }

  lemma OnlyFirst(act: Act, inner: seq<Hook>)
    ensures TrackedOnly([act] + Skipped(inner)) == if Tracked(act) then [act] else []
  {
    NoneTracked(inner);
    TrackedTogether([act], Skipped(inner));
    assert [act][..0] == [];
  }

  /**
   For every finite tree of nested calls, exactly the outermost call updates the counters, if the system allocator has
   served it: a null pointer is not recorded, and a release always is. Nothing is recorded if the guard denies the call.
   */
  lemma ExactlyOutermost(size: u64, b: nat, layout: u64, inner: seq<Hook>, teardown: bool, h: Hook)
    ensures TrackedOnly(Acts(Hook(AllocOp(size, true), inner, teardown), true)) == [Alloc(size, true)]
    ensures TrackedOnly(Acts(Hook(ReallocOp(b, layout, size, true), inner, teardown), true)) == [Realloc(b, size, true)]
    ensures TrackedOnly(Acts(Hook(DeallocOp(b, layout), inner, teardown), true)) == [Dealloc(b, true)]
    ensures TrackedOnly(Acts(Hook(AllocOp(size, false), inner, teardown), true)) == []
    ensures TrackedOnly(Acts(Hook(ReallocOp(b, layout, size, false), inner, teardown), true)) == []
    ensures TrackedOnly(Acts(h, false)) == []
  {
    GrantedIs(size, b, layout, inner, teardown);
    OnlyFirst(Alloc(size, true), inner);
    OnlyFirst(Realloc(b, size, true), inner);
    OnlyFirst(Dealloc(b, true), inner);
    OnlyFirst(ActOf(h.op, false), []);
    assert [ActOf(h.op, false)] + Skipped([]) == [ActOf(h.op, false)];
    hide Skipped;
  }

  // Whatever the other threads do, thread t is where it was, and has begun nothing more.
  lemma {:induction false} OthersFit(run: seq<Label>, more: seq<Label>, t: Tid)
    requires forall k :: 0 <= k < |more| ==> more[k].t != t
    ensures var s, s' := After(run), After(run + more);
            s' == Run(s, more) && At(s', t) == At(s, t) && Begun(run + more, t) == Begun(run, t)
    decreases |more|
  {
    if more == [] {
      assert run + more == run;
    } else {
      hide *;
      var n := |more| - 1;
      OthersFit(run, more[..n], t);
      LastOf(run, more);
      RunLast(After(run), more);
      RunOnce(run + more[..n], more[n], t);
      StaysAt(After(run + more[..n]), more[n], t);
    }
  }

  lemma RunLast(s: State, labels: seq<Label>)
    requires labels != []
    ensures Run(s, labels) == Next(Run(s, labels[..|labels| - 1]), labels[|labels| - 1])
  {
    hide Next;
  }

  lemma StaysAt(s: State, l: Label, t: Tid)
    requires l.t != t
    ensures At(Next(s, l), t) == At(s, t)
  {
    hide Wrap, Max;
  }

  // The calls a thread has begun.
  ghost function Begun(run: seq<Label>, t: Tid): seq<Act> {
    if run == [] then []
    else
      var n := |run| - 1;
      Begun(run[..n], t) + if run[n].t == t && !run[n].act.Go? then [run[n].act] else []
  }

  // What the step in progress adds or subtracts.
  function Amount(pc: PC): u64 {
    match pc
    case AllocTotal(_, _, size) => size
    case AllocCurrent(_, size) => size
    case FreeCurrent(_, size) => size
    case ResizeTotal(_, _, delta) => delta
    case ResizeCurrent(_, delta) => delta
    case Shrink(_, delta) => delta
    case _ => 0
  }

  // The program counter after a step in which the thread saw this value.
  function Onward(pc: PC, seen: u64): PC {
    match pc
    case AllocCount(k, b, size) => AllocTotal(k, b, size)
    case AllocTotal(_, b, size) => AllocCurrent(b, size)
    case AllocCurrent(b, _) => AllocPeak(b, seen)
    case AllocPeak(b, _) => AllocLive(b)
    case AllocLive(b) => AllocPeakLive(b, seen)
    case FreeCurrent(b, _) => FreeLive(b)
    case ResizeCount(k, b, before, after) =>
      if after > before then ResizeTotal(k, b, after - before)
      else if after < before then Shrink(b, before - after)
      else Idle
    case ResizeTotal(_, b, delta) => ResizeCurrent(b, delta)
    case ResizeCurrent(b, _) => ResizePeak(b, seen)
    case _ => Idle
  }

  lemma GoIs(run: seq<Label>, t: Tid)
    requires At(After(run), t) != Idle
    ensures var s := After(run); Sane(s, At(s, t)) && Next(s, Label(t, Go)) == Step(s, t, At(s, t))
  {
    RunOk(run);
    ThreadIs(After(run), t);
    hide Run, Inv, Step;
  }

  // What the next step of a thread does to the counters, and where the thread goes on.
  ghost predicate Goes(run: seq<Label>, t: Tid, c: Counters, pc: PC) {
    var s' := Next(After(run), Label(t, Go));
    s'.c == c && At(s', t) == pc
  }

  lemma StepGoes(run: seq<Label>, t: Tid)
    requires At(After(run), t) != Idle
    ensures var s, pc := After(run), At(After(run), t);
            Sane(s, pc) && Goes(run, t, Step(s, t, pc).c, At(Step(s, t, pc), t))
  {
    GoIs(run, t);
    hide Run, Step, Next;
  }

  lemma CountGoes(run: seq<Label>, t: Tid)
    requires At(After(run), t).AllocCount? || At(After(run), t).ResizeCount?
    ensures var c, pc := After(run).c, At(After(run), t); Goes(run, t, c.(allocs := Wrap(c.allocs + 1)), Onward(pc, 0))
  {
    StepGoes(run, t);
    hide After, Goes, Wrap, Max, AddLive, AddCurrent, AddTotal, RaisePeak, RaisePeakLive;
  }

  lemma StepTotal(s: State, t: Tid, pc: PC)
    requires Sane(s, pc) && (pc.AllocTotal? || pc.ResizeTotal?)
    ensures var s' := Step(s, t, pc);
            s'.c == s.c.(total := Wrap(s.c.total + Amount(pc))) && At(s', t) == Onward(pc, 0)
  {
    hide Wrap, Max;
  }

  lemma TotalGoes(run: seq<Label>, t: Tid)
    requires At(After(run), t).AllocTotal? || At(After(run), t).ResizeTotal?
    ensures var c, pc := After(run).c, At(After(run), t);
            Goes(run, t, c.(total := Wrap(c.total + Amount(pc))), Onward(pc, 0))
  {
    hide After, Goes, Wrap, Step, At, Onward, Amount;
    StepGoes(run, t);
    StepTotal(After(run), t, At(After(run), t));
  }

  lemma StepCurrent(s: State, t: Tid, pc: PC)
    requires Sane(s, pc) && (pc.AllocCurrent? || pc.ResizeCurrent?)
    ensures var s', seen := Step(s, t, pc), Wrap(s.c.current + Amount(pc));
            s'.c == s.c.(current := seen) && At(s', t) == Onward(pc, seen)
  {
    hide Wrap, Max;
  }

  lemma CurrentGoes(run: seq<Label>, t: Tid)
    requires At(After(run), t).AllocCurrent? || At(After(run), t).ResizeCurrent?
    ensures var c, pc := After(run).c, At(After(run), t);
            var seen := Wrap(c.current + Amount(pc)); Goes(run, t, c.(current := seen), Onward(pc, seen))
  {
    hide After, Goes, Wrap, Step, At, Onward, Amount;
    StepGoes(run, t);
    StepCurrent(After(run), t, At(After(run), t));
  }

  lemma SubGoes(run: seq<Label>, t: Tid)
    requires At(After(run), t).FreeCurrent? || At(After(run), t).Shrink?
    ensures var c, pc := After(run).c, At(After(run), t);
            Goes(run, t, c.(current := Wrap(c.current + -(Amount(pc) as int))), Onward(pc, 0))
  {
    StepGoes(run, t);
    hide After, Goes, Wrap, Max, AddLive, Count, AddTotal, RaisePeak, RaisePeakLive;
  }

  lemma PeakGoes(run: seq<Label>, t: Tid)
    requires At(After(run), t).AllocPeak? || At(After(run), t).ResizePeak?
    ensures var c, pc := After(run).c, At(After(run), t);
            Goes(run, t, c.(peak := Max(c.peak, pc.seen)), Onward(pc, 0))
  {
    StepGoes(run, t);
    hide After, Goes, Wrap, Max, AddLive, AddCurrent, Count, AddTotal, RaisePeakLive;
  }

  lemma LiveGoes(run: seq<Label>, t: Tid)
    requires At(After(run), t).AllocLive? || At(After(run), t).FreeLive? || At(After(run), t).AllocPeakLive?
    ensures var c, pc := After(run).c, At(After(run), t);
            && (pc.AllocLive? ==> Goes(run, t, c.(live := Wrap(c.live + 1)), Onward(pc, Wrap(c.live + 1))))
            && (pc.FreeLive? ==> Goes(run, t, c.(live := Wrap(c.live - 1)), Idle))
            && (pc.AllocPeakLive? ==> Goes(run, t, c.(peakLive := Max(c.peakLive, pc.seen)), Idle))
  {
    StepGoes(run, t);
    hide After, Goes, Wrap, Max, AddCurrent, Count, AddTotal, RaisePeak;
  }

  lemma RunOnce(run: seq<Label>, l: Label, t: Tid)
    ensures After(run + [l]) == Next(After(run), l)
    ensures Begun(run + [l], t) == Begun(run, t) + if l.t == t && !l.act.Go? then [l.act] else []
  {
    assert (run + [l])[..|run|] == run;
  }

  // Beginning a call touches no counter.
  lemma StartCounters(s: State, t: Tid, act: Act)
    requires At(s, t) == Idle
    ensures Next(s, Label(t, act)).c == s.c
  {
  }
}
