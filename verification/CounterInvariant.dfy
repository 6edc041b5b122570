/** The inductive invariant of the counter machine: what the counters hold is the sum of what the calls have added. */
module CounterInvariant {
  import opened Wrappers
  import opened Words
  import opened CounterMachine

  ghost function Sum<T>(xs: seq<T>, f: T -> int): int {
    if xs == [] then 0 else Sum(xs[..|xs| - 1], f) + f(xs[|xs| - 1])
  }

  function Bytes(x: Block): int { x.bytes }

  function Alive(x: Block): int { x.alive }

  function Counted(x: Call): int { x.counted }

  function Grown(x: Call): int { x.grown }

  lemma {:induction false} SumPut<T>(xs: seq<T>, f: T -> int, k: nat, x: T)
    requires k < |xs|
    ensures Sum(xs[k := x], f) == Sum(xs, f) - f(xs[k]) + f(x)
    decreases |xs|
  {
    var n := |xs| - 1;
    var put := xs[k := x];
    if k < n {
      SumPut(xs[..n], f, k, x);
      assert put[..n] == xs[..n][k := x];
    } else {
      assert put[..n] == xs[..n];
    }
  }

  lemma SumAppend<T>(xs: seq<T>, f: T -> int, x: T)
    ensures Sum(xs + [x], f) == Sum(xs, f) + f(x)
  {
    assert (xs + [x])[..|xs|] == xs;
  }

  lemma {:induction false} SumAtLeast<T>(xs: seq<T>, f: T -> int, k: nat)
    requires k < |xs| && forall i :: 0 <= i < |xs| ==> f(xs[i]) >= 0
    ensures Sum(xs, f) >= f(xs[k])
    decreases |xs|
  {
    var n := |xs| - 1;
    if k < n {
      SumAtLeast(xs[..n], f, k);
    } else {
      SumNotNegative(xs[..n], f);
    }
  }

  lemma {:induction false} SumNotNegative<T>(xs: seq<T>, f: T -> int)
    requires forall i :: 0 <= i < |xs| ==> f(xs[i]) >= 0
    ensures Sum(xs, f) >= 0
  {
    if xs != [] {
      SumNotNegative(xs[..|xs| - 1], f);
    }
  }

  // The counters are the sums of what has been added, modulo 2^64, and exactly as long as nothing has wrapped.
  ghost predicate Exact(s: State) {
    && s.c.allocs == Wrap(Sum(s.calls, Counted)) && s.c.total == Wrap(Sum(s.calls, Grown))
    && s.c.current == Wrap(Sum(s.blocks, Bytes)) && s.c.live == Wrap(Sum(s.blocks, Alive))
    && (!s.wrapped ==> s.c.current == Sum(s.blocks, Bytes) && s.c.live == Sum(s.blocks, Alive))
  }

  // What the calls on a block have added when the thread using it is at this program counter.
  ghost predicate Work(pc: PC, x: Block) {
    match pc
    case Idle => true
    case AllocCount(_, _, size) => x.bytes == 0 && x.alive == 0 && x.live && x.size == size
    case AllocTotal(_, _, size) => x.bytes == 0 && x.alive == 0 && x.live && x.size == size
    case AllocCurrent(_, size) => x.bytes == 0 && x.alive == 0 && x.live && x.size == size
    case AllocPeak(_, _) => x.bytes == x.size && x.alive == 0 && x.live
    case AllocLive(_) => x.bytes == x.size && x.alive == 0 && x.live
    case AllocPeakLive(_, _) => x.bytes == x.size && x.alive == 1 && x.live
    case FreeCurrent(_, size) => x.bytes == size && x.alive == 1 && !x.live
    case FreeLive(_) => x.bytes == 0 && x.alive == 1 && !x.live
    case ResizeCount(_, _, before, after) => x.bytes == before && x.size == after && x.alive == 1 && x.live
    case ResizeTotal(_, _, delta) => x.bytes + delta == x.size && x.bytes >= 0 && x.alive == 1 && x.live
    case ResizeCurrent(_, delta) => x.bytes + delta == x.size && x.bytes >= 0 && x.alive == 1 && x.live
    case ResizePeak(_, _) => x.bytes == x.size && x.alive == 1 && x.live
    case Shrink(_, delta) => x.bytes - delta == x.size && x.alive == 1 && x.live
  }

  // What the calls on a block have added when none is in progress.
  ghost predicate Settled(x: Block) {
    if x.live && x.tracked then x.bytes == x.size && x.alive == 1 else x.bytes == 0 && x.alive == 0
  }

  // The call that a thread still has to count, or to add to the total.
  function CallOf(pc: PC): Option<nat> {
    if pc.AllocCount? || pc.AllocTotal? || pc.ResizeCount? || pc.ResizeTotal? then Some(pc.k) else None
  }

  ghost predicate Owes(pc: PC, t: Tid, y: Call) {
    match pc
    case AllocCount(_, _, size) => y == Call(t, size, 0, 0)
    case AllocTotal(_, _, size) => y == Call(t, size, 1, 0)
    case ResizeCount(_, _, before, after) => y == Call(t, Growth(before, after), 0, 0)
    case ResizeTotal(_, _, delta) => y == Call(t, delta, 1, 0)
    case _ => true
  }

  ghost predicate ThreadOk(blocks: seq<Block>, calls: seq<Call>, t: Tid, pc: PC) {
    pc != Idle ==>
      && pc.b < |blocks| && blocks[pc.b].user == Some(t)
      && (!blocks[pc.b].mixed ==> blocks[pc.b].tracked && Work(pc, blocks[pc.b]))
      && (CallOf(pc).Some? ==> pc.k < |calls| && Owes(pc, t, calls[pc.k]))
  }

  ghost predicate ThreadsOk(s: State) {
    forall t :: t in s.pcs ==> ThreadOk(s.blocks, s.calls, t, s.pcs[t])
  }

  ghost predicate BlockOk(s: State, b: nat)
    requires b < |s.blocks|
  {
    match s.blocks[b].user
    case None => !s.blocks[b].mixed ==> Settled(s.blocks[b])
    case Some(t) => At(s, t) != Idle && At(s, t).b == b
  }

  ghost predicate BlocksOk(s: State) {
    forall b: nat :: b < |s.blocks| ==> BlockOk(s, b)
  }

  ghost predicate CallOk(s: State, k: nat)
    requires k < |s.calls|
  {
    var y := s.calls[k];
    (y.counted == 1 && y.grown == y.growth) || CallOf(At(s, y.owner)) == Some(k)
  }

  ghost predicate CallsOk(s: State) {
    forall k: nat :: k < |s.calls| ==> CallOk(s, k)
  }

  /** The invariant. */
  ghost predicate Inv(s: State) {
    Exact(s) && ThreadsOk(s) && BlocksOk(s) && CallsOk(s)
  }

  // Sums.

  lemma PutExact(s: State, b: nat, x: Block)
    requires Exact(s) && b < |s.blocks| && x.bytes == s.blocks[b].bytes && x.alive == s.blocks[b].alive
    ensures Exact(Put(s, b, x))
  {
    SumPut(s.blocks, Bytes, b, x);
    SumPut(s.blocks, Alive, b, x);
  }

  lemma WrapPlus(x: int, c: u64, d: int)
    requires c == Wrap(x)
    ensures Wrap(x + d) == Wrap(c + d)
  {
    var q, r := (c + d) / TWO_64, (c + d) % TWO_64;
    ModUnique(x + d, TWO_64, x / TWO_64 + q, r);
  }

  lemma AddCurrentExact(s: State, b: nat, d: int)
    requires Exact(s) && b < |s.blocks|
    ensures Exact(AddCurrent(s, b, d)) && |AddCurrent(s, b, d).blocks| == |s.blocks|
  {
    var x := s.blocks[b].(bytes := s.blocks[b].bytes + d);
    SumPut(s.blocks, Bytes, b, x);
    SumPut(s.blocks, Alive, b, x);
    WrapPlus(Sum(s.blocks, Bytes), s.c.current, d);
    hide Wrap;
  }

  lemma AddLiveExact(s: State, b: nat, d: int)
    requires Exact(s) && b < |s.blocks|
    ensures Exact(AddLive(s, b, d)) && |AddLive(s, b, d).blocks| == |s.blocks|
  {
    var x := s.blocks[b].(alive := s.blocks[b].alive + d);
    SumPut(s.blocks, Bytes, b, x);
    SumPut(s.blocks, Alive, b, x);
    WrapPlus(Sum(s.blocks, Alive), s.c.live, d);
    hide Wrap;
  }

  lemma CountExact(s: State, k: nat)
    requires Exact(s) && k < |s.calls| && s.calls[k].counted == 0
    ensures Exact(Count(s, k)) && Count(s, k).blocks == s.blocks
  {
    var y := s.calls[k].(counted := 1);
    SumPut(s.calls, Counted, k, y);
    SumPut(s.calls, Grown, k, y);
    WrapPlus(Sum(s.calls, Counted), s.c.allocs, 1);
    hide Wrap;
  }

  lemma AddTotalExact(s: State, k: nat, d: u64)
    requires Exact(s) && k < |s.calls| && s.calls[k].grown == 0
    ensures Exact(AddTotal(s, k, d)) && AddTotal(s, k, d).blocks == s.blocks
  {
    var y := s.calls[k].(grown := d);
    SumPut(s.calls, Counted, k, y);
    SumPut(s.calls, Grown, k, y);
    WrapPlus(Sum(s.calls, Grown), s.c.total, d);
    hide Wrap;
  }

  lemma NewBlockExact(s: State, x: Block)
    requires Exact(s) && x.bytes == 0 && x.alive == 0
    ensures Exact(s.(blocks := s.blocks + [x]))
  {
    SumAppend(s.blocks, Bytes, x);
    SumAppend(s.blocks, Alive, x);
  }

  lemma NewCallExact(s: State, y: Call)
    requires Exact(s) && y.counted == 0 && y.grown == 0
    ensures Exact(s.(calls := s.calls + [y]))
  {
    SumAppend(s.calls, Counted, y);
    SumAppend(s.calls, Grown, y);
  }

  // Program counters are no part of the sums.
  lemma SameExact(s: State, s': State)
    requires Exact(s)
    requires s'.blocks == s.blocks && s'.calls == s.calls && s'.wrapped == s.wrapped
    requires s'.c.allocs == s.c.allocs && s'.c.total == s.c.total
    requires s'.c.current == s.c.current && s'.c.live == s.c.live
    ensures Exact(s')
  {
  }

  lemma RaiseExact(s: State, seen: u64)
    requires Exact(s)
    ensures Exact(RaisePeak(s, seen)) && Exact(RaisePeakLive(s, seen))
    ensures RaisePeak(s, seen).blocks == RaisePeakLive(s, seen).blocks == s.blocks
  {
    hide Sum, Wrap, Max;
  }

  lemma GotoExact(s: State, t: Tid, pc: PC)
    requires Exact(s)
    ensures Exact(Goto(s, t, pc))
  {
    hide Sum, Wrap;
  }
}
