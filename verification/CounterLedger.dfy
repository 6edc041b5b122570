/**
 The counters against a ledger that is kept one call at a time. The ledger handles a call as one action, at the moment
 it begins, and knows nothing of the atomic operations it is made of.
 */
module CounterLedger {
  import opened Wrappers
  import opened Words
  import opened CounterMachine
  import opened CounterInvariant
  import opened CounterSteps
  import opened CounterTheorems

  // A block: its size, and what the tracked calls on it add to current_bytes and live_count.
  datatype Lot = Lot(size: u64, bytes: int, alive: int)

  // The blocks, the number of tracked allocations and reallocations, and the bytes they ask for beyond what was there.
  datatype Ledger = Ledger(lots: seq<Lot>, count: nat, total: nat)

  function LotBytes(x: Lot): int { x.bytes }

  function LotAlive(x: Lot): int { x.alive }

  function Booked(book: Ledger, act: Act): Ledger {
    match act
    case Alloc(size, tracked) =>
      if tracked then Ledger(book.lots + [Lot(size, size, 1)], book.count + 1, book.total + size)
      else book.(lots := book.lots + [Lot(size, 0, 0)])
    case Dealloc(b, tracked) =>
      if b < |book.lots| && tracked then
        var x := book.lots[b];
        book.(lots := book.lots[b := Lot(x.size, x.bytes - x.size, x.alive - 1)])
      else book
    case Realloc(b, size, tracked) =>
      if b >= |book.lots| then book
      else
        var x := book.lots[b];
        if tracked then
          Ledger(book.lots[b := Lot(size, x.bytes + size - x.size, x.alive)], book.count + 1,
                 book.total + if size > x.size then size - x.size else 0)
        else book.(lots := book.lots[b := x.(size := size)])
    case Go => book
  }

  // The label begins a call: its thread is between calls, and the block it names may be used.
  ghost predicate Accepted(s: State, l: Label) {
    At(s, l.t) == Idle && (l.act.Alloc? || ((l.act.Dealloc? || l.act.Realloc?) && Usable(s, l.act.b)))
  }

  /** The ledger of a run: the calls in the order in which they began. */
  ghost function Books(labels: seq<Label>): Ledger {
    if labels == [] then Ledger([], 0, 0)
    else
      var before, last := labels[..|labels| - 1], labels[|labels| - 1];
      if Accepted(After(before), last) then Booked(Books(before), last.act) else Books(before)
  }

  // What the call in progress has still to add to current_bytes and live_count.

  function Due(pc: PC): int {
    match pc
    case AllocCount(_, _, size) => size
    case AllocTotal(_, _, size) => size
    case AllocCurrent(_, size) => size
    case FreeCurrent(_, size) => -(size as int)
    case ResizeCount(_, _, before, after) => after as int - before
    case ResizeTotal(_, _, delta) => delta
    case ResizeCurrent(_, delta) => delta
    case Shrink(_, delta) => -(delta as int)
    case _ => 0
  }

  function DueAlive(pc: PC): int {
    if pc.AllocCount? || pc.AllocTotal? || pc.AllocCurrent? || pc.AllocPeak? || pc.AllocLive? then 1
    else if pc.FreeCurrent? || pc.FreeLive? then -1
    else 0
  }

  function UserAt(s: State, x: Block): PC {
    if x.user.Some? then At(s, x.user.value) else Idle
  }

  // The lot is the block as it will be when the call on it has returned.
  ghost predicate Matches(lot: Lot, x: Block, pc: PC) {
    lot.size == x.size && lot.bytes == x.bytes + Due(pc) && lot.alive == x.alive + DueAlive(pc)
  }

  ghost predicate LotsMatch(s: State, lots: seq<Lot>) {
    |lots| == |s.blocks| && forall b :: 0 <= b < |lots| ==> Matches(lots[b], s.blocks[b], UserAt(s, s.blocks[b]))
  }

  ghost predicate CallsMatch(s: State, book: Ledger) {
    book.count == |s.calls| && book.total == Sum(s.calls, GrowthOf)
  }

  lemma WorkedMatches(lot: Lot, s: State, t: Tid, pc: PC)
    requires Sane(s, pc) && Matches(lot, s.blocks[pc.b], pc) && s.blocks[pc.b].user == Some(t)
    ensures var s' := Step(s, t, pc); Matches(lot, Worked(s, pc), UserAt(s', Worked(s, pc)))
  {
    hide Wrap, Max;
  }

  lemma StepLots(s: State, t: Tid, pc: PC, lots: seq<Lot>)
    requires Inv(s) && At(s, t) == pc != Idle && Sane(s, pc) && LotsMatch(s, lots)
    ensures LotsMatch(Step(s, t, pc), lots)
  {
    ThreadIs(s, t);
    StepMoves(s, t, pc);
    assert Matches(lots[pc.b], s.blocks[pc.b], UserAt(s, s.blocks[pc.b]));
    WorkedMatches(lots[pc.b], s, t, pc);
    InvIs(s);
    hide Inv, Step, Matches, Exact, Worked, Entry, Work;
    var s' := Step(s, t, pc);
    forall b | 0 <= b < |lots| ensures Matches(lots[b], s'.blocks[b], UserAt(s', s'.blocks[b])) {
      assert BlockOk(s, b) && Matches(lots[b], s.blocks[b], UserAt(s, s.blocks[b]));
    }
  }

  lemma StepTotals(s: State, t: Tid, pc: PC, book: Ledger)
    requires Sane(s, pc) && CallsMatch(s, book)
    ensures CallsMatch(Step(s, t, pc), book)
  {
    StepMoves(s, t, pc);
    if CallOf(pc).Some? {
      SumPut(s.calls, GrowthOf, pc.k, Entry(s, t, pc));
    }
    hide Step, Sum;
  }

  // Beginning a call.

  // The block at b after the call has begun.
  lemma StartLot(s: State, l: Label, book: Ledger, b: nat)
    requires Accepted(s, l) && LotsMatch(s, book.lots) && b < |Next(s, l).blocks|
    requires forall b :: 0 <= b < |s.blocks| && s.blocks[b].user.Some? ==> At(s, s.blocks[b].user.value) != Idle
    ensures var s', lots := Next(s, l), Booked(book, l.act).lots;
            |lots| == |s'.blocks| && Matches(lots[b], s'.blocks[b], UserAt(s', s'.blocks[b]))
  {
    if b < |s.blocks| {
      assert Matches(book.lots[b], s.blocks[b], UserAt(s, s.blocks[b]));
    }
    hide LotsMatch;
  }

  lemma StartLots(s: State, l: Label, book: Ledger)
    requires Inv(s) && Accepted(s, l) && LotsMatch(s, book.lots)
    ensures LotsMatch(Next(s, l), Booked(book, l.act).lots)
  {
    var s', lots := Next(s, l), Booked(book, l.act).lots;
    Users(s);
    // The last block, for the lengths.
    StartLot(s, l, book, |s.blocks| - if l.act.Alloc? then 0 else 1);
    hide Inv, Next, Matches, Booked, Accepted;
    forall b | 0 <= b < |lots| ensures Matches(lots[b], s'.blocks[b], UserAt(s', s'.blocks[b])) {
      StartLot(s, l, book, b);
    }
  }

  // A block in use is in use by a thread in the middle of a call.
  lemma Users(s: State)
    requires Inv(s)
    ensures forall b :: 0 <= b < |s.blocks| && s.blocks[b].user.Some? ==> At(s, s.blocks[b].user.value) != Idle
  {
    InvIs(s);
    hide Inv, Exact, Work;
    forall b | 0 <= b < |s.blocks| && s.blocks[b].user.Some? ensures At(s, s.blocks[b].user.value) != Idle {
      assert BlockOk(s, b);
    }
  }

  lemma StartTotals(s: State, l: Label, book: Ledger)
    requires Accepted(s, l) && LotsMatch(s, book.lots) && CallsMatch(s, book)
    ensures CallsMatch(Next(s, l), Booked(book, l.act))
  {
    var t, act := l.t, l.act;
    if act.Alloc? {
      SumAppend(s.calls, GrowthOf, Call(t, act.size, 0, 0));
    } else if act.Realloc? {
      assert Matches(book.lots[act.b], s.blocks[act.b], UserAt(s, s.blocks[act.b]));
      SumAppend(s.calls, GrowthOf, Call(t, Growth(s.blocks[act.b].size, act.size), 0, 0));
    }
    hide Sum;
  }

  lemma NextBooks(s: State, l: Label, book: Ledger)
    requires Inv(s) && LotsMatch(s, book.lots) && CallsMatch(s, book)
    ensures var book' := if Accepted(s, l) then Booked(book, l.act) else book;
            LotsMatch(Next(s, l), book'.lots) && CallsMatch(Next(s, l), book')
  {
    var pc := At(s, l.t);
    if Accepted(s, l) {
      StartLots(s, l, book);
      StartTotals(s, l, book);
    } else if pc != Idle && l.act.Go? && Sane(s, pc) {
      StepLots(s, l.t, pc, book.lots);
      StepTotals(s, l.t, pc, book);
    }
    hide Inv, LotsMatch, CallsMatch, Step, Booked;
  }

  lemma {:induction false} BooksMatch(labels: seq<Label>)
    ensures LotsMatch(After(labels), Books(labels).lots) && CallsMatch(After(labels), Books(labels))
  {
    if labels != [] {
      var n := |labels| - 1;
      BooksMatch(labels[..n]);
      RunOk(labels[..n]);
      assert After(labels) == Next(After(labels[..n]), labels[n]);
      hide Inv, LotsMatch, CallsMatch, Next, Booked, Accepted;
      NextBooks(After(labels[..n]), labels[n], Books(labels[..n]));
    }
  }

  lemma {:induction false} SumLots(blocks: seq<Block>, lots: seq<Lot>)
    requires |blocks| == |lots| && forall b :: 0 <= b < |lots| ==> Matches(lots[b], blocks[b], Idle)
    ensures Sum(blocks, Bytes) == Sum(lots, LotBytes) && Sum(blocks, Alive) == Sum(lots, LotAlive)
  {
    if lots != [] {
      var n := |lots| - 1;
      SumLots(blocks[..n], lots[..n]);
    }
  }

  /**
   Whatever the interleaving, once no call is in progress the four counters are those of the ledger, modulo 2^64: as if
   every call had been one action. This holds of mixed blocks, too.
   */
  lemma RestIsLedger(labels: seq<Label>)
    requires Quiescent(After(labels))
    ensures var c, book := After(labels).c, Books(labels);
            && c.allocs == Wrap(book.count) && c.total == Wrap(book.total)
            && c.current == Wrap(Sum(book.lots, LotBytes)) && c.live == Wrap(Sum(book.lots, LotAlive))
  {
    var s, lots := After(labels), Books(labels).lots;
    BooksMatch(labels);
    ExactAtRest(labels);
    RunOk(labels);
    InvIs(s);
    hide Inv, Sum, Wrap, Run, Books, Matches, NoneOverflow;
    forall b | 0 <= b < |lots| ensures Matches(lots[b], s.blocks[b], Idle) {
      assert BlockOk(s, b) && Matches(lots[b], s.blocks[b], UserAt(s, s.blocks[b]));
    }
    SumLots(s.blocks, lots);
  }
}
