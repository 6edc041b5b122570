/**
 The six allocation counters as a step machine. One step is one atomic operation of one thread; any number of
 threads interleave their steps in any order.

 Besides the counters and the threads' program counters, the state has a history that no step reads: the blocks of
 memory handed out, with what the calls on each have added to current_bytes and live_count so far; the calls that
 count as allocations; and whether an addition to or subtraction from current_bytes or live_count has ever left the
 range of 64 bits.

 A block is used by one thread at a time, and is freed or resized only after the call that produced it has returned.
 A call is tracked, or skipped when the reentrancy guard denies it; a block whose calls were not all treated alike
 is mixed.
 */
module CounterMachine {
  import opened Wrappers
  import opened Words

  type Tid = nat

  datatype Counters = Counters(allocs: u64, total: u64, peak: u64, current: u64, live: u64, peakLive: u64)

  datatype Block =
    Block(size: u64, live: bool, tracked: bool, mixed: bool, user: Option<Tid>, bytes: int, alive: int)

  // A tracked call that allocates or reallocates: by how much it grows the block, and what it has added so far.
  datatype Call = Call(owner: Tid, growth: u64, counted: nat, grown: nat)

  datatype PC =
    | Idle
      // record_alloc.
    | AllocCount(k: nat, b: nat, size: u64)
    | AllocTotal(k: nat, b: nat, size: u64)
    | AllocCurrent(b: nat, size: u64)
    | AllocPeak(b: nat, seen: u64)
    | AllocLive(b: nat)
    | AllocPeakLive(b: nat, seen: u64)
      // record_dealloc.
    | FreeCurrent(b: nat, size: u64)
    | FreeLive(b: nat)
      // record_realloc.
    | ResizeCount(k: nat, b: nat, before: u64, after: u64)
    | ResizeTotal(k: nat, b: nat, delta: u64)
    | ResizeCurrent(b: nat, delta: u64)
    | ResizePeak(b: nat, seen: u64)
    | Shrink(b: nat, delta: u64)

  datatype State = State(c: Counters, pcs: map<Tid, PC>, blocks: seq<Block>, calls: seq<Call>, wrapped: bool)

  /** What a thread does next: begin a call, tracked or skipped, or take its next step. */
  datatype Act =
    | Alloc(size: u64, tracked: bool)
    | Dealloc(b: nat, tracked: bool)
    | Realloc(b: nat, size: u64, tracked: bool)
    | Go

  datatype Label = Label(t: Tid, act: Act)

  const ZERO := Counters(0, 0, 0, 0, 0, 0)

  function Init(): State {
    State(ZERO, map[], [], [], false)
  }

  function At(s: State, t: Tid): PC {
    if t in s.pcs then s.pcs[t] else Idle
  }

  function Goto(s: State, t: Tid, pc: PC): State {
    s.(pcs := s.pcs[t := pc])
  }

  function Put(s: State, b: nat, x: Block): State
    requires b < |s.blocks|
  {
    s.(blocks := s.blocks[b := x])
  }

  function Max(x: u64, y: u64): u64 {
    if x < y then y else x
  }

  // A block may be freed or resized by anyone when no call on it is in progress.
  predicate Usable(s: State, b: nat) {
    b < |s.blocks| && s.blocks[b].live && s.blocks[b].user.None?
  }

  function User(t: Tid, tracked: bool): Option<Tid> {
    if tracked then Some(t) else None
  }

  function Growth(before: u64, after: u64): u64 {
    if after > before then after - before else 0
  }

  function Start(s: State, t: Tid, act: Act): State {
    match act
    case Alloc(size, tracked) =>
      var b, k := |s.blocks|, |s.calls|;
      var s1 := s.(blocks := s.blocks + [Block(size, true, tracked, false, User(t, tracked), 0, 0)]);
      if tracked then Goto(s1.(calls := s.calls + [Call(t, size, 0, 0)]), t, AllocCount(k, b, size)) else s1
    case Dealloc(b, tracked) =>
      if !Usable(s, b) then s
      else
        var x := s.blocks[b];
        var s1 := Put(s, b, x.(live := false, mixed := x.mixed || tracked != x.tracked, user := User(t, tracked)));
        if tracked then Goto(s1, t, FreeCurrent(b, x.size)) else s1
    case Realloc(b, size, tracked) =>
      if !Usable(s, b) then s
      else
        var x, k := s.blocks[b], |s.calls|;
        var s1 := Put(s, b, x.(size := size, mixed := x.mixed || tracked != x.tracked, user := User(t, tracked)));
        if tracked then
          Goto(s1.(calls := s.calls + [Call(t, Growth(x.size, size), 0, 0)]), t, ResizeCount(k, b, x.size, size))
        else s1
    case Go => s
  }

  // The call on block b returns.
  function Return(s: State, t: Tid, b: nat): State
    requires b < |s.blocks|
  {
    Goto(Put(s, b, s.blocks[b].(user := None)), t, Idle)
  }

  // The fetch_add on alloc_count.
  function Count(s: State, k: nat): State
    requires k < |s.calls|
  {
    s.(c := s.c.(allocs := Wrap(s.c.allocs + 1)), calls := s.calls[k := s.calls[k].(counted := 1)])
  }

  // The fetch_add on total_bytes.
  function AddTotal(s: State, k: nat, d: u64): State
    requires k < |s.calls|
  {
    s.(c := s.c.(total := Wrap(s.c.total + d)), calls := s.calls[k := s.calls[k].(grown := d)])
  }

  // A fetch_add (or, with negative d, a fetch_sub) on current_bytes.
  function AddCurrent(s: State, b: nat, d: int): State
    requires b < |s.blocks|
  {
    var x, sum := s.blocks[b], s.c.current + d;
    Put(s, b, x.(bytes := x.bytes + d)).(c := s.c.(current := Wrap(sum)), wrapped := s.wrapped || Wrap(sum) != sum)
  }

  // A fetch_add or fetch_sub of 1 on live_count.
  function AddLive(s: State, b: nat, d: int): State
    requires b < |s.blocks|
  {
    var x, sum := s.blocks[b], s.c.live + d;
    Put(s, b, x.(alive := x.alive + d)).(c := s.c.(live := Wrap(sum)), wrapped := s.wrapped || Wrap(sum) != sum)
  }

  // The fetch_max on peak_bytes.
  function RaisePeak(s: State, seen: u64): State {
    s.(c := s.c.(peak := Max(s.c.peak, seen)))
  }

  function RaisePeakLive(s: State, seen: u64): State {
    s.(c := s.c.(peakLive := Max(s.c.peakLive, seen)))
  }

  // A thread in the middle of a call works on a block, and on an entry of its own.
  predicate Sane(s: State, pc: PC) {
    && pc != Idle && pc.b < |s.blocks|
    && (pc.AllocCount? || pc.AllocTotal? || pc.ResizeCount? || pc.ResizeTotal? ==> pc.k < |s.calls|)
  }

  function Step(s: State, t: Tid, pc: PC): State
    requires Sane(s, pc)
  {
    match pc
    case AllocCount(k, b, size) => Goto(Count(s, k), t, AllocTotal(k, b, size))
    case AllocTotal(k, b, size) => Goto(AddTotal(s, k, size), t, AllocCurrent(b, size))
    case AllocCurrent(b, size) => Goto(AddCurrent(s, b, size), t, AllocPeak(b, Wrap(s.c.current + size)))
    case AllocPeak(b, seen) => Goto(RaisePeak(s, seen), t, AllocLive(b))
    case AllocLive(b) => Goto(AddLive(s, b, 1), t, AllocPeakLive(b, Wrap(s.c.live + 1)))
    case AllocPeakLive(b, seen) => Return(RaisePeakLive(s, seen), t, b)
    case FreeCurrent(b, size) => Goto(AddCurrent(s, b, -(size as int)), t, FreeLive(b))
    case FreeLive(b) => Return(AddLive(s, b, -1), t, b)
    case ResizeCount(k, b, before, after) =>
      if after > before then Goto(Count(s, k), t, ResizeTotal(k, b, after - before))
      else if after < before then Goto(Count(s, k), t, Shrink(b, before - after))
      else Return(Count(s, k), t, b)
    case ResizeTotal(k, b, delta) => Goto(AddTotal(s, k, delta), t, ResizeCurrent(b, delta))
    case ResizeCurrent(b, delta) => Goto(AddCurrent(s, b, delta), t, ResizePeak(b, Wrap(s.c.current + delta)))
    case ResizePeak(b, seen) => Return(RaisePeak(s, seen), t, b)
    case Shrink(b, delta) => Return(AddCurrent(s, b, -(delta as int)), t, b)
  }

  /** One step of thread l.t. A label that does not fit the thread's program counter changes nothing. */
  function Next(s: State, l: Label): State {
    var pc := At(s, l.t);
    if pc == Idle then Start(s, l.t, l.act)
    else if l.act.Go? && Sane(s, pc) then Step(s, l.t, pc)
    else s
  }

  function Run(s: State, labels: seq<Label>): State {
    if labels == [] then s else Next(Run(s, labels[..|labels| - 1]), labels[|labels| - 1])
  }

  // No call is in progress.
  ghost predicate Quiescent(s: State) {
    forall t :: t in s.pcs ==> s.pcs[t] == Idle
  }

  // No block's calls were treated differently.
  ghost predicate NoneMixed(s: State) {
    forall b :: 0 <= b < |s.blocks| ==> !s.blocks[b].mixed
  }
}
