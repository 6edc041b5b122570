/** Every step of the counter machine preserves its invariant. */
module CounterSteps {
  import opened Wrappers
  import opened Words
  import opened CounterMachine
  import opened CounterInvariant

  // A step of thread t, in the middle of a call on block b: the new block and program counter, and the call's entry.
  ghost predicate Moves(s: State, s': State, t: Tid, pc: PC, x: Block, next: PC, y: Call) {
    && pc != Idle && pc.b < |s.blocks|
    && s'.pcs == s.pcs[t := next] && s'.blocks == s.blocks[pc.b := x]
    && (if CallOf(pc).Some? then pc.k < |s.calls| && s'.calls == s.calls[pc.k := y] else s'.calls == s.calls)
  }

  // The new block and program counter fit each other.
  ghost predicate Fits(t: Tid, b: nat, x: Block, next: PC) {
    if next == Idle then x.user == None && (!x.mixed ==> Settled(x))
    else x.user == Some(t) && next.b == b && (!x.mixed ==> x.tracked && Work(next, x))
  }

  // The call's entry is finished, or still the thread's to finish.
  ghost predicate Continues(t: Tid, pc: PC, next: PC, y: Call) {
    if CallOf(pc).None? then CallOf(next).None?
    else
      && y.owner == t
      && (if CallOf(next).None? then y.counted == 1 && y.grown == y.growth
          else CallOf(next) == CallOf(pc) && Owes(next, t, y))
  }

  lemma MovesThreads(s: State, s': State, t: Tid, pc: PC, x: Block, next: PC, y: Call)
    requires ThreadsOk(s) && At(s, t) == pc && Moves(s, s', t, pc, x, next, y)
    requires Fits(t, pc.b, x, next) && Continues(t, pc, next, y)
    ensures ThreadsOk(s')
  {
    assert t in s.pcs;
    assert ThreadOk(s.blocks, s.calls, t, pc);
    forall u | u in s'.pcs ensures ThreadOk(s'.blocks, s'.calls, u, s'.pcs[u]) {
      if u != t {
        assert ThreadOk(s.blocks, s.calls, u, s.pcs[u]);
      }
    }
  }

  lemma MovesBlocks(s: State, s': State, t: Tid, pc: PC, x: Block, next: PC, y: Call)
    requires BlocksOk(s) && At(s, t) == pc && Moves(s, s', t, pc, x, next, y) && Fits(t, pc.b, x, next)
    ensures BlocksOk(s')
  {
    forall b: nat | b < |s'.blocks| ensures BlockOk(s', b) {
      assert BlockOk(s, b);
    }
  }

  lemma MovesCalls(s: State, s': State, t: Tid, pc: PC, x: Block, next: PC, y: Call)
    requires CallsOk(s) && At(s, t) == pc && Moves(s, s', t, pc, x, next, y) && Continues(t, pc, next, y)
    ensures CallsOk(s')
  {
    forall k: nat | k < |s'.calls| ensures CallOk(s', k) {
      assert CallOk(s, k);
    }
  }

  lemma MovesOk(s: State, s': State, t: Tid, pc: PC, x: Block, next: PC, y: Call)
    requires Inv(s) && At(s, t) == pc && Moves(s, s', t, pc, x, next, y)
    requires Fits(t, pc.b, x, next) && Continues(t, pc, next, y) && Exact(s')
    ensures Inv(s')
  {
    hide *;
    InvIs(s);
    MovesThreads(s, s', t, pc, x, next, y);
    MovesBlocks(s, s', t, pc, x, next, y);
    MovesCalls(s, s', t, pc, x, next, y);
    InvHolds(s');
  }

  lemma InvIs(s: State)
    requires Inv(s)
    ensures Exact(s) && ThreadsOk(s) && BlocksOk(s) && CallsOk(s)
  {
  }

  lemma InvHolds(s: State)
    requires Exact(s) && ThreadsOk(s) && BlocksOk(s) && CallsOk(s)
    ensures Inv(s)
  {
  }

  lemma ThreadIs(s: State, t: Tid)
    requires Inv(s)
    ensures Exact(s) && ThreadOk(s.blocks, s.calls, t, At(s, t))
    ensures At(s, t) != Idle ==> Sane(s, At(s, t))
  {
    hide Exact, BlocksOk, CallsOk, Work;
  }

  // What a step makes of the block and of the call's entry.

  function NewBlock(pc: PC, x: Block): Block {
    match pc
    case AllocCurrent(_, size) => x.(bytes := x.bytes + size)
    case AllocLive(_) => x.(alive := x.alive + 1)
    case AllocPeakLive(_, _) => x.(user := None)
    case FreeCurrent(_, size) => x.(bytes := x.bytes - size)
    case FreeLive(_) => x.(alive := x.alive - 1, user := None)
    case ResizeCount(_, _, before, after) => if before == after then x.(user := None) else x
    case ResizeCurrent(_, delta) => x.(bytes := x.bytes + delta)
    case ResizePeak(_, _) => x.(user := None)
    case Shrink(_, delta) => x.(bytes := x.bytes - delta, user := None)
    case _ => x
  }

  function NewCall(pc: PC, y: Call): Call {
    match pc
    case AllocCount(_, _, _) => y.(counted := 1)
    case AllocTotal(_, _, size) => y.(grown := size)
    case ResizeCount(_, _, _, _) => y.(counted := 1)
    case ResizeTotal(_, _, delta) => y.(grown := delta)
    case _ => y
  }

  function Worked(s: State, pc: PC): Block
    requires Sane(s, pc)
  {
    NewBlock(pc, s.blocks[pc.b])
  }

  function Entry(s: State, t: Tid, pc: PC): Call
    requires Sane(s, pc)
  {
    if CallOf(pc).Some? then NewCall(pc, s.calls[pc.k]) else Call(t, 0, 0, 0)
  }

  lemma AllocMoves(s: State, t: Tid, pc: PC)
    requires Sane(s, pc)
    requires pc.AllocCount? || pc.AllocTotal? || pc.AllocCurrent? || pc.AllocPeak? || pc.AllocLive? || pc.AllocPeakLive?
    ensures var s' := Step(s, t, pc); Moves(s, s', t, pc, Worked(s, pc), At(s', t), Entry(s, t, pc))
  {
    hide Wrap, Max;
    assert s.blocks[pc.b := s.blocks[pc.b]] == s.blocks;
  }

  lemma OtherMoves(s: State, t: Tid, pc: PC)
    requires Sane(s, pc)
    requires pc.FreeCurrent? || pc.FreeLive? || pc.ResizeCount? || pc.ResizeTotal? || pc.ResizeCurrent? ||
             pc.ResizePeak? || pc.Shrink?
    ensures var s' := Step(s, t, pc); Moves(s, s', t, pc, Worked(s, pc), At(s', t), Entry(s, t, pc))
  {
    hide Wrap, Max;
    assert s.blocks[pc.b := s.blocks[pc.b]] == s.blocks;
  }

  lemma StepMoves(s: State, t: Tid, pc: PC)
    requires Sane(s, pc)
    ensures var s' := Step(s, t, pc); Moves(s, s', t, pc, Worked(s, pc), At(s', t), Entry(s, t, pc))
  {
    hide Step, Moves, Worked, Entry, At;
    match pc
    case AllocCount(_, _, _) => AllocMoves(s, t, pc);
    case AllocTotal(_, _, _) => AllocMoves(s, t, pc);
    case AllocCurrent(_, _) => AllocMoves(s, t, pc);
    case AllocPeak(_, _) => AllocMoves(s, t, pc);
    case AllocLive(_) => AllocMoves(s, t, pc);
    case AllocPeakLive(_, _) => AllocMoves(s, t, pc);
    case _ => OtherMoves(s, t, pc);
  }

  lemma StepFits(s: State, t: Tid, pc: PC)
    requires Sane(s, pc) && ThreadOk(s.blocks, s.calls, t, pc)
    ensures Fits(t, pc.b, Worked(s, pc), At(Step(s, t, pc), t))
  {
    hide Wrap, Max, Owes;
  }

  lemma StepContinues(s: State, t: Tid, pc: PC)
    requires Sane(s, pc) && ThreadOk(s.blocks, s.calls, t, pc)
    ensures Continues(t, pc, At(Step(s, t, pc), t), Entry(s, t, pc))
  {
    hide Wrap, Max, Work;
  }

  lemma ReturnExact(s: State, t: Tid, b: nat)
    requires Exact(s) && b < |s.blocks|
    ensures Exact(Return(s, t, b))
  {
    PutExact(s, b, s.blocks[b].(user := None));
  }

  lemma OwesMore(s: State, t: Tid, pc: PC)
    requires ThreadOk(s.blocks, s.calls, t, pc)
    ensures pc.AllocCount? || pc.ResizeCount? ==> s.calls[pc.k].counted == 0
    ensures pc.AllocTotal? || pc.ResizeTotal? ==> s.calls[pc.k].grown == 0
  {
    hide Work;
  }

  lemma StepExact(s: State, t: Tid, pc: PC)
    requires Sane(s, pc) && ThreadOk(s.blocks, s.calls, t, pc) && Exact(s)
    ensures Exact(Step(s, t, pc))
  {
    var b := pc.b;
    OwesMore(s, t, pc);
    hide Exact, Wrap, Max, ThreadOk, Growth, Goto, Return;
    hide Count, AddTotal, AddCurrent, AddLive, RaisePeak, RaisePeakLive;
    match pc
    case AllocCount(k, _, size) =>
      CountExact(s, k);
      GotoExact(Count(s, k), t, AllocTotal(k, b, size));
    case AllocTotal(k, _, size) =>
      AddTotalExact(s, k, size);
      GotoExact(AddTotal(s, k, size), t, AllocCurrent(b, size));
    case AllocCurrent(_, size) =>
      AddCurrentExact(s, b, size);
      GotoExact(AddCurrent(s, b, size), t, AllocPeak(b, Wrap(s.c.current + size)));
    case AllocPeak(_, seen) =>
      RaiseExact(s, seen);
      GotoExact(RaisePeak(s, seen), t, AllocLive(b));
    case AllocLive(_) =>
      AddLiveExact(s, b, 1);
      GotoExact(AddLive(s, b, 1), t, AllocPeakLive(b, Wrap(s.c.live + 1)));
    case FreeCurrent(_, size) =>
      AddCurrentExact(s, b, -(size as int));
      GotoExact(AddCurrent(s, b, -(size as int)), t, FreeLive(b));
    case ResizeTotal(k, _, delta) =>
      AddTotalExact(s, k, delta);
      GotoExact(AddTotal(s, k, delta), t, ResizeCurrent(b, delta));
    case ResizeCurrent(_, delta) =>
      AddCurrentExact(s, b, delta);
      GotoExact(AddCurrent(s, b, delta), t, ResizePeak(b, Wrap(s.c.current + delta)));
    case _ =>
      LastExact(s, t, pc);
  }

  // Steps that may end a call.
  lemma LastExact(s: State, t: Tid, pc: PC)
    requires Sane(s, pc) && ThreadOk(s.blocks, s.calls, t, pc) && Exact(s)
    requires pc.AllocPeakLive? || pc.FreeLive? || pc.ResizeCount? || pc.ResizePeak? || pc.Shrink?
    ensures Exact(Step(s, t, pc))
  {
    OwesMore(s, t, pc);
    hide *;
    match pc
    case AllocPeakLive(_, _) => RaiseLast(s, t, pc);
    case ResizePeak(_, _) => RaiseLast(s, t, pc);
    case FreeLive(_) => SubLast(s, t, pc);
    case Shrink(_, _) => SubLast(s, t, pc);
    case ResizeCount(_, _, _, _) => CountLast(s, t, pc);
  }

  lemma RaiseLast(s: State, t: Tid, pc: PC)
    requires (pc.AllocPeakLive? || pc.ResizePeak?) && Sane(s, pc) && Exact(s)
    ensures Exact(Step(s, t, pc))
  {
    RaiseExact(s, pc.seen);
    hide Exact, RaisePeak, RaisePeakLive, Return;
    if pc.ResizePeak? {
      ReturnExact(RaisePeak(s, pc.seen), t, pc.b);
    } else {
      ReturnExact(RaisePeakLive(s, pc.seen), t, pc.b);
    }
  }

  lemma SubLast(s: State, t: Tid, pc: PC)
    requires (pc.FreeLive? || pc.Shrink?) && Sane(s, pc) && Exact(s)
    ensures Exact(Step(s, t, pc))
  {
    hide Exact, AddLive, AddCurrent, Return;
    if pc.Shrink? {
      AddCurrentExact(s, pc.b, -(pc.delta as int));
      ReturnExact(AddCurrent(s, pc.b, -(pc.delta as int)), t, pc.b);
    } else {
      AddLiveExact(s, pc.b, -1);
      ReturnExact(AddLive(s, pc.b, -1), t, pc.b);
    }
  }

  lemma CountLast(s: State, t: Tid, pc: PC)
    requires pc.ResizeCount? && Sane(s, pc) && Exact(s) && s.calls[pc.k].counted == 0
    ensures Exact(Step(s, t, pc))
  {
    hide Exact, Count, Return, Goto;
    CountExact(s, pc.k);
    ReturnExact(Count(s, pc.k), t, pc.b);
    if pc.after > pc.before {
      GotoExact(Count(s, pc.k), t, ResizeTotal(pc.k, pc.b, pc.after - pc.before));
    } else if pc.after < pc.before {
      GotoExact(Count(s, pc.k), t, Shrink(pc.b, pc.before - pc.after));
    }
  }

  lemma StepOk(s: State, t: Tid, pc: PC)
    requires Inv(s) && At(s, t) == pc && Sane(s, pc)
    ensures Inv(Step(s, t, pc))
  {
    hide *;
    ThreadIs(s, t);
    StepMoves(s, t, pc);
    StepFits(s, t, pc);
    StepContinues(s, t, pc);
    StepExact(s, t, pc);
    MovesOk(s, Step(s, t, pc), t, pc, Worked(s, pc), At(Step(s, t, pc), t), Entry(s, t, pc));
  }

  // Beginning a call.

  // Thread t begins a call: block b is new or was usable; the call's entry is new.
  ghost predicate Opens(s: State, s': State, t: Tid, b: nat, x: Block, next: PC, y: Call) {
    && s'.pcs == (if next == Idle then s.pcs else s.pcs[t := next])
    && (if b < |s.blocks| then s.blocks[b].user == None && s'.blocks == s.blocks[b := x]
        else b == |s.blocks| && s'.blocks == s.blocks + [x])
    && (if CallOf(next).Some? then CallOf(next) == Some(|s.calls|) && s'.calls == s.calls + [y] && Owes(next, t, y)
        else s'.calls == s.calls)
  }

  lemma OpensThreads(s: State, s': State, t: Tid, b: nat, x: Block, next: PC, y: Call)
    requires ThreadsOk(s) && At(s, t) == Idle && Opens(s, s', t, b, x, next, y) && Fits(t, b, x, next)
    ensures ThreadsOk(s')
  {
    forall u | u in s'.pcs ensures ThreadOk(s'.blocks, s'.calls, u, s'.pcs[u]) {
      if u != t || next == Idle {
        assert ThreadOk(s.blocks, s.calls, u, s.pcs[u]);
        hide Work, Owes;
      }
    }
  }

  lemma OpensBlocks(s: State, s': State, t: Tid, b: nat, x: Block, next: PC, y: Call)
    requires BlocksOk(s) && At(s, t) == Idle && Opens(s, s', t, b, x, next, y) && Fits(t, b, x, next)
    ensures BlocksOk(s')
  {
    forall i: nat | i < |s'.blocks| ensures BlockOk(s', i) {
      if i < |s.blocks| {
        assert BlockOk(s, i);
      }
    }
  }

  lemma OpensCalls(s: State, s': State, t: Tid, b: nat, x: Block, next: PC, y: Call)
    requires CallsOk(s) && At(s, t) == Idle && Opens(s, s', t, b, x, next, y)
    ensures CallsOk(s')
  {
    forall k: nat | k < |s'.calls| ensures CallOk(s', k) {
      if k < |s.calls| {
        assert CallOk(s, k);
      }
    }
  }

  lemma OpensOk(s: State, s': State, t: Tid, b: nat, x: Block, next: PC, y: Call)
    requires Inv(s) && At(s, t) == Idle && Opens(s, s', t, b, x, next, y) && Fits(t, b, x, next) && Exact(s')
    ensures Inv(s')
  {
    hide *;
    InvIs(s);
    OpensThreads(s, s', t, b, x, next, y);
    OpensBlocks(s, s', t, b, x, next, y);
    OpensCalls(s, s', t, b, x, next, y);
    InvHolds(s');
  }

  lemma AllocOk(s: State, t: Tid, size: u64, tracked: bool)
    requires Inv(s) && At(s, t) == Idle
    ensures Inv(Start(s, t, Alloc(size, tracked)))
  {
    var b, k := |s.blocks|, |s.calls|;
    var x, y := Block(size, true, tracked, false, User(t, tracked), 0, 0), Call(t, size, 0, 0);
    InvIs(s);
    hide Inv, Exact, BlockOk;
    NewBlockExact(s, x);
    var s1, s' := s.(blocks := s.blocks + [x]), Start(s, t, Alloc(size, tracked));
    NewCallExact(s1, y);
    SameExact(if tracked then s1.(calls := s.calls + [y]) else s1, s');
    OpensOk(s, s', t, b, x, if tracked then AllocCount(k, b, size) else Idle, y);
  }

  lemma UsableSettled(s: State, b: nat)
    requires Inv(s) && Usable(s, b)
    ensures Exact(s) && (!s.blocks[b].mixed ==> Settled(s.blocks[b]))
  {
    assert BlockOk(s, b);
  }

  lemma DeallocOk(s: State, t: Tid, b: nat, tracked: bool)
    requires Inv(s) && At(s, t) == Idle && Usable(s, b)
    ensures Inv(Start(s, t, Dealloc(b, tracked)))
  {
    UsableSettled(s, b);
    var x := s.blocks[b];
    var x' := x.(live := false, mixed := x.mixed || tracked != x.tracked, user := User(t, tracked));
    hide Inv, Exact;
    PutExact(s, b, x');
    var s' := Start(s, t, Dealloc(b, tracked));
    SameExact(Put(s, b, x'), s');
    OpensOk(s, s', t, b, x', if tracked then FreeCurrent(b, x.size) else Idle, Call(t, 0, 0, 0));
  }

  lemma ReallocOk(s: State, t: Tid, b: nat, size: u64, tracked: bool)
    requires Inv(s) && At(s, t) == Idle && Usable(s, b)
    ensures Inv(Start(s, t, Realloc(b, size, tracked)))
  {
    UsableSettled(s, b);
    var x, k := s.blocks[b], |s.calls|;
    var x' := x.(size := size, mixed := x.mixed || tracked != x.tracked, user := User(t, tracked));
    var y := Call(t, Growth(x.size, size), 0, 0);
    hide Inv, Exact;
    PutExact(s, b, x');
    var s1, s' := Put(s, b, x'), Start(s, t, Realloc(b, size, tracked));
    NewCallExact(s1, y);
    SameExact(if tracked then s1.(calls := s.calls + [y]) else s1, s');
    OpensOk(s, s', t, b, x', if tracked then ResizeCount(k, b, x.size, size) else Idle, y);
  }

  /** Every step of every thread preserves the invariant. */
  lemma NextOk(s: State, l: Label)
    requires Inv(s)
    ensures Inv(Next(s, l))
  {
    var t, pc := l.t, At(s, l.t);
    if pc != Idle {
      if l.act.Go? && Sane(s, pc) {
        StepOk(s, t, pc);
      }
    } else if l.act.Alloc? {
      AllocOk(s, t, l.act.size, l.act.tracked);
    } else if l.act.Dealloc? && Usable(s, l.act.b) {
      DeallocOk(s, t, l.act.b, l.act.tracked);
    } else if l.act.Realloc? && Usable(s, l.act.b) {
      ReallocOk(s, t, l.act.b, l.act.size, l.act.tracked);
    }
    hide Inv, Step;
  }

  lemma {:induction false} RunOk(labels: seq<Label>)
    ensures Inv(Run(Init(), labels))
    decreases |labels|
  {
    if labels != [] {
      RunOk(labels[..|labels| - 1]);
      hide Inv, Next;
      NextOk(Run(Init(), labels[..|labels| - 1]), labels[|labels| - 1]);
    }
  }
}
