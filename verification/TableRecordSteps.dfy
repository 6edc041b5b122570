/** The steps of a record call, from obtaining the table on, keep the invariant. */
module TableRecordSteps {
  import opened Wrappers
  import opened Words
  import opened FrameHash
  import opened StackWalk
  import opened TableSize
  import opened TableMachine
  import opened TableInvariant
  import opened TableStable
  import opened TablePreserve
  import opened TableWrites

  // Masking an index with a mask a thread may hold.
  lemma Masked(x: nat, mask: nat, size: nat)
    requires GoodSize(size) && (mask == 0 || mask == size - 1)
    ensures And(x, mask) == if mask == 0 then 0 else x % size
  {
    if mask == 0 {
      assert Pow2(0) - 1 == 0;
      AndMask(x, 0);
    } else {
      MaskedIndex(x, size);
    }
  }

  // The slot after idx, in the order of the probe.
  lemma NextIndex(idx: nat, size: nat)
    requires idx < size
    ensures (idx + 1) % size == if idx + 1 == size then 0 else idx + 1
  {
    if idx + 1 < size {
      ModUnique(idx + 1, size, 0, idx + 1);
    } else {
      ModUnique(idx + 1, size, 1, 0);
    }
  }

  lemma EventsOwn(s: State, ev: nat)
    requires Inv(s) && ev < |s.hist.events|
    ensures EventOk(Table(s.sh), s.hist.events[ev])
  {
  }

  // The slot holds another hash: the covered stretch grows by one, or the probe has gone all the way round.
  lemma CoverMore(table: seq<Bucket>, h: u64, idx: nat)
    requires idx < |table| && Covered(table, h, idx) && Other(table, h, idx)
    ensures var next := (idx + 1) % |table|;
            if next == Home(h, |table|) then AllOther(table, h) else next < |table| && Covered(table, h, next)
  {
    var n, home := |table|, Home(h, |table|);
    var next := (idx + 1) % n;
    NextIndex(idx, n);
    forall i: nat | i < n && (next == home || Distance(home, i, n) < Distance(home, next, n)) ensures Other(table, h, i) {
      assert i == idx || Distance(home, i, n) < Distance(home, idx, n);
    }
  }

  lemma DropKnows(s: State, t: Tid, p: Probe, e: Event)
    requires SharedOk(s.sh) && ProbeIs(s.sh, s.hist, t, p, Waiting)
    requires if p.mask == 0 then Other(Table(s.sh), p.h, 0) else AllOther(Table(s.sh), p.h)
    requires e == s.hist.events[p.ev].(fate := Dropped)
    ensures EventOk(Table(s.sh), e) && EventGrows(s.hist.events[p.ev], e)
  {
  }

  lemma AdvanceOk(s: State, t: Tid, p: Probe)
    requires Inv(s) && (At(s, t) == LoadHash(p) || At(s, t) == CasHash(p))
    requires ProbeIs(s.sh, s.hist, t, p, Waiting) && Searching(s.sh, p) && Other(Table(s.sh), p.h, p.idx)
    ensures Keeps(s, Advance(s, t, p))
  {
    hide *;
    ProbeKnows(s, t, p);
    var idx := And(p.idx + 1, p.mask);
    NextProbe(s.sh, p);
    AdvanceIs(s, t, p);
    if idx == p.start {
      DropOk(s, t, p);
    } else {
      ProbeAt(s, t, p, idx);
      MoveOn(s, t, p, p.(idx := idx));
    }
  }

  lemma ProbeKnows(s: State, t: Tid, p: Probe)
    requires Inv(s) && ProbeIs(s.sh, s.hist, t, p, Waiting)
    ensures SharedOk(s.sh) && s.sh.base.Some? && (p.mask == 0 || p.mask == |Table(s.sh)| - 1)
    ensures p.idx < |Table(s.sh)|
    ensures CellOk(Table(s.sh), s.hist.events, s.hist.claims, p.idx)
  {
    OwnCell(s, p.idx);
  }

  lemma AdvanceIs(s: State, t: Tid, p: Probe)
    ensures var idx := And(p.idx + 1, p.mask);
            Advance(s, t, p) ==
            if idx == p.start then Goto(SetFate(s, p.ev, Dropped), t, Idle) else Goto(s, t, LoadHash(p.(idx := idx)))
  {
    hide And;
  }

  // Where the probe goes from a slot that holds another hash.
  lemma NextProbe(sh: Shared, p: Probe)
    requires SharedOk(sh) && sh.base.Some? && Searching(sh, p) && Other(Table(sh), p.h, p.idx)
    requires p.mask == 0 || p.mask == |Table(sh)| - 1
    ensures var idx := And(p.idx + 1, p.mask);
            if idx != p.start then idx < |Table(sh)| && Searching(sh, p.(idx := idx))
            else if p.mask == 0 then Other(Table(sh), p.h, 0)
            else AllOther(Table(sh), p.h)
  {
    Masked(p.idx + 1, p.mask, |Table(sh)|);
    if p.mask != 0 {
      CoverMore(Table(sh), p.h, p.idx);
    }
  }

  lemma ProbeAt(s: State, t: Tid, p: Probe, idx: nat)
    requires ProbeIs(s.sh, s.hist, t, p, Waiting) && idx < |Table(s.sh)|
    ensures ProbeIs(s.sh, s.hist, t, p.(idx := idx), Waiting)
  {
  }

  lemma DropOk(s: State, t: Tid, p: Probe)
    requires Inv(s) && (At(s, t) == LoadHash(p) || At(s, t) == CasHash(p))
    requires ProbeIs(s.sh, s.hist, t, p, Waiting)
    requires if p.mask == 0 then Other(Table(s.sh), p.h, 0) else AllOther(Table(s.sh), p.h)
    ensures Keeps(s, Goto(SetFate(s, p.ev, Dropped), t, Idle))
  {
    var e := s.hist.events[p.ev].(fate := Dropped);
    OwnCell(s, 0);
    DropKnows(s, t, p, e);
    hide Inv, EventOk, EventGrows, Later, AllOther, DataOk;
    EventMoved(s, t, p.ev, e, Idle);
  }

  lemma MoveOn(s: State, t: Tid, p: Probe, q: Probe)
    requires Inv(s) && (At(s, t) == LoadHash(p) || At(s, t) == CasHash(p)) && q == p.(idx := q.idx)
    requires ProbeIs(s.sh, s.hist, t, q, Waiting) && Searching(s.sh, q)
    ensures Keeps(s, Goto(s, t, LoadHash(q)))
  {
    hide Inv, Later;
    Moved(s, t, LoadHash(q));
  }

  // Everything EventMoved asks for.
  lemma HitKnows(s: State, t: Tid, p: Probe)
    requires Inv(s) && (At(s, t) == LoadHash(p) || At(s, t) == CasHash(p))
    requires ProbeIs(s.sh, s.hist, t, p, Waiting) && Table(s.sh)[p.idx].hash == p.h
    requires CellOk(Table(s.sh), s.hist.events, s.hist.claims, p.idx)
    ensures p.ev < |s.hist.events| && s.hist.events[p.ev].owner == t && s.hist.events[p.ev].fate == Waiting
    ensures var e := s.hist.events[p.ev].(fate := Landed(p.idx, false, false));
            && ThreadOk(s.sh, s.hist.(events := s.hist.events[p.ev := e]), t, HitCount(p))
            && EventOk(Table(s.sh), e) && EventGrows(s.hist.events[p.ev], e) && e.owner == t
            && EventOf(At(s, t)) == EventOf(HitCount(p)) == Some(p.ev) && ClaimOf(At(s, t)) == ClaimOf(HitCount(p))
            && RegionOf(At(s, t)) == RegionOf(HitCount(p)) && WindowShut(s, t)
            && !Added(e.fate) && !Added(s.hist.events[p.ev].fate)
            && Hit(s, t, p) == PutEvent(s, t, p.ev, e, HitCount(p))
  {
    hide Inv, Table, Hash;
  }

  lemma HitOk(s: State, t: Tid, p: Probe)
    requires Inv(s) && (At(s, t) == LoadHash(p) || At(s, t) == CasHash(p))
    requires ProbeIs(s.sh, s.hist, t, p, Waiting) && Table(s.sh)[p.idx].hash == p.h
    ensures Keeps(s, Hit(s, t, p))
  {
    hide *;
    ProbeKnows(s, t, p);
    HitKnows(s, t, p);
    EventMoved(s, t, p.ev, s.hist.events[p.ev].(fate := Landed(p.idx, false, false)), HitCount(p));
  }

  lemma ClaimedCell(table: seq<Bucket>, h: Hist, p: Probe, e: Event)
    requires p.idx < |table| && table[p.idx].hash == 0 && CellOk(table, h.events, h.claims, p.idx)
    requires p.ev < |h.events| && p.trace.Valid() && p.trace.count > 0 && p.h == Hash(p.trace.frames, p.trace.count)
    requires h.events[p.ev].trace == p.trace && h.events[p.ev].mask == Some(p.mask) && h.events[p.ev].fate == Waiting
    requires e == h.events[p.ev].(fate := Landed(p.idx, false, false))
    requires if p.mask == 0 then p.idx == 0 else Covered(table, p.h, p.idx)
    ensures var after := table[p.idx := table[p.idx].(hash := p.h)];
            CellOk(after, h.events[p.ev := e], h.claims[p.idx := p.ev], p.idx)
  {
    var i := p.idx;
    QuietPut(h.events, p.ev, e, i);
    if p.mask != 0 {
      CoveredStays(table, table[i := table[i].(hash := p.h)], p.h, i);
    }
  }

  lemma ClaimKnows(s: State, t: Tid, p: Probe, e: Event)
    requires SharedOk(s.sh) && RegionsOk(s.sh, s.hist.owners) && ProbeIs(s.sh, s.hist, t, p, Waiting)
    requires CellOk(Table(s.sh), s.hist.events, s.hist.claims, p.idx) && Table(s.sh)[p.idx].hash == 0
    requires e == s.hist.events[p.ev].(fate := Landed(p.idx, false, false))
    ensures Accessible(s.sh, p.base, p.idx) && s.sh.base == Some(p.base)
    ensures var c := Table(s.sh)[p.idx].(hash := p.h);
            && var s' := Written(s, t, p.idx, c, p.ev, e, true, StoreFrame(p, 0));
               ThreadOk(s'.sh, s'.hist, t, StoreFrame(p, 0)) && s' == Claim(s, t, p, Table(s.sh)[p.idx])
  {
    PutShared(s.sh, s.hist.owners, p.idx, Table(s.sh)[p.idx].(hash := p.h));
    assert Prefix(p.trace, 0) == ZEROS;
  }

  lemma ClaimOk(s: State, t: Tid, p: Probe)
    requires Inv(s) && At(s, t) == CasHash(p)
    requires ProbeIs(s.sh, s.hist, t, p, Waiting) && Searching(s.sh, p) && Table(s.sh)[p.idx].hash == 0
    ensures Accessible(s.sh, p.base, p.idx)
    ensures Keeps(s, Claim(s, t, p, Table(s.sh)[p.idx]))
  {
    OwnCell(s, p.idx);
    var i, table := p.idx, Table(s.sh);
    var c := table[i].(hash := p.h);
    var e := s.hist.events[p.ev].(fate := Landed(i, false, false));
    ClaimKnows(s, t, p, e);
    ClaimedCell(table, s.hist, p, e);
    assert i !in s.hist.claims;
    hide Inv, CellOk, DataOk, ThreadOk, Claim, Written, Later;
    WroteCell(s, t, i, c, p.ev, e, true, StoreFrame(p, 0));
  }

  // Adding to the tallies of a claimed bucket.

  lemma OwnCell(s: State, i: nat)
    requires Inv(s) && i < |Table(s.sh)|
    ensures CellOk(Table(s.sh), s.hist.events, s.hist.claims, i)
    ensures DataOk(s.sh, s.hist) && |Table(s.sh)[i].frames| == MAX_FRAMES
    ensures s.sh.base.Some? && Accessible(s.sh, s.sh.base.value, i)
  {
  }

  // The new tallies of a bucket are the old ones plus what the event adds.
  ghost predicate Tallied(was: Bucket, c: Bucket, a: Event, b: Event, i: nat) {
    && c.hash == was.hash && c.hash != 0 && |c.frames| == MAX_FRAMES && CellGrows(was, c)
    && (c.frameCount != 0 ==> c.frameCount == was.frameCount && c.frames == was.frames)
    && Counted(b, i) >= Counted(a, i) && Summed(b, i) >= Summed(a, i)
    && c.count == Wrap(was.count + (Counted(b, i) - Counted(a, i)))
    && c.bytes == Wrap(was.bytes + (Summed(b, i) - Summed(a, i)))
  }

  lemma TalliedCell(table: seq<Bucket>, events: seq<Event>, claims: map<nat, nat>, i: nat, c: Bucket, ev: nat, e: Event)
    requires i < |table| && ev < |events| && CellOk(table, events, claims, i)
    requires EventGrows(events[ev], e)
    requires Tallied(table[i], c, events[ev], e, i)
    ensures CellOk(table[i := c], events[ev := e], claims, i)
  {
    var after, b := table[i := c], events[ev := e];
    TallyPut(events, ev, e, i);
    WrapAdd(Tally(events, i), Counted(e, i) - Counted(events[ev], i));
    WrapAdd(Sum(events, i), Summed(e, i) - Summed(events[ev], i));
    var k := claims[i];
    assert EventGrows(events[k], b[k]);
    assert TableGrows(table, after);
    if events[k].mask.value != 0 || i != 0 {
      CoveredStays(table, after, c.hash, i);
    }
  }

  // Everything TallyStep asks for.
  ghost predicate Fits(s: State, t: Tid, i: nat, c: Bucket, ev: nat, e: Event, next: PC) {
    && i < |Table(s.sh)| && ev < |s.hist.events|
    && GoodWrite(s.sh, s.hist, i, c, ev, e, false) && MayWrite(s, t, i, c, ev)
    && BusinessAfter(At(s, t), c, i, ev, e, false, next)
    && Tallied(Table(s.sh)[i], c, s.hist.events[ev], e, i)
    && s.hist.events[ev].fate.Landed? && (e.fate.summed ==> e.fate.counted) && e.mask == s.hist.events[ev].mask
  }

  lemma TallyStep(s: State, t: Tid, i: nat, c: Bucket, ev: nat, e: Event, next: PC)
    requires Inv(s) && Fits(s, t, i, c, ev, e, next)
    ensures s.sh.base.Some? && Accessible(s.sh, s.sh.base.value, i) && ev < |s.hist.events|
    ensures var s' := Written(s, t, i, c, ev, e, false, next);
            ThreadOk(s'.sh, s'.hist, t, next) ==> Keeps(s, s')
  {
    EventsOwn(s, ev);
    OwnCell(s, i);
    TalliedCell(Table(s.sh), s.hist.events, s.hist.claims, i, c, ev, e);
    hide Inv, ThreadOk, CellOk;
    WroteCell(s, t, i, c, ev, e, false, next);
  }

  // What a thread may take for granted about the cell it is about to write.
  ghost predicate OwnWrite(s: State, t: Tid, p: Probe) {
    && DataOk(s.sh, s.hist) && s.sh.base == Some(p.base) && Accessible(s.sh, p.base, p.idx)
    && p.ev < |s.hist.events| && s.hist.events[p.ev].owner == t
    && p.idx < |Table(s.sh)| && CellAt(s.sh, p.base, p.idx) == Table(s.sh)[p.idx]
    && Table(s.sh)[p.idx].hash == p.h && p.h != 0
    && |Table(s.sh)[p.idx].frames| == MAX_FRAMES
    && p.idx in s.hist.claims
  }

  lemma OwnsWrite(s: State, t: Tid, p: Probe, pc: PC)
    requires Inv(s) && ThreadOk(s.sh, s.hist, t, pc) && Recording(pc) && pc.p == p
    requires !pc.LoadHash? && !pc.CasHash?
    ensures OwnWrite(s, t, p)
  {
    HoldsCell(s, t, p, pc);
    hide Inv, DataOk, ThreadOk;
    OwnCell(s, p.idx);
  }

  lemma HoldsCell(s: State, t: Tid, p: Probe, pc: PC)
    requires ThreadOk(s.sh, s.hist, t, pc) && Recording(pc) && pc.p == p
    requires !pc.LoadHash? && !pc.CasHash?
    ensures s.sh.base == Some(p.base) && p.ev < |s.hist.events| && s.hist.events[p.ev].owner == t
    ensures p.idx < |Table(s.sh)| && Table(s.sh)[p.idx].hash == p.h && p.h != 0 && p.idx in s.hist.claims
  {
  }

  lemma AddCountIs(s: State, t: Tid, p: Probe, next: PC)
    requires s.sh.base == Some(p.base) && Accessible(s.sh, p.base, p.idx) && p.ev < |s.hist.events|
    ensures var was := CellAt(s.sh, p.base, p.idx);
            var e := s.hist.events[p.ev].(fate := Landed(p.idx, true, false));
            Written(s, t, p.idx, was.(count := Wrap(was.count + 1)), p.ev, e, false, next) ==
            Goto(AddCount(s, p, was), t, next)
  {
  }

  lemma AddBytesIs(s: State, t: Tid, p: Probe, next: PC)
    requires s.sh.base == Some(p.base) && Accessible(s.sh, p.base, p.idx) && p.ev < |s.hist.events|
    ensures var was := CellAt(s.sh, p.base, p.idx);
            var e := s.hist.events[p.ev].(fate := Landed(p.idx, true, true));
            Written(s, t, p.idx, was.(bytes := Wrap(was.bytes + p.size)), p.ev, e, false, next) ==
            Goto(AddBytes(s, p, was), t, next)
  {
  }

  // What the thread knows after a write that leaves the bucket's hash, frames and frame count alone.
  lemma KnowsAfter(s: State, t: Tid, p: Probe, pc: PC, c: Bucket, fate: Fate, next: PC)
    requires DataOk(s.sh, s.hist) && ThreadOk(s.sh, s.hist, t, pc)
    requires Recording(pc) && pc.p == p && p.idx < |Table(s.sh)| && p.ev < |s.hist.events| && s.sh.base.Some?
    requires c.hash == Table(s.sh)[p.idx].hash
    requires c.frames == Table(s.sh)[p.idx].frames && c.frameCount == Table(s.sh)[p.idx].frameCount
    requires
      || (pc == ClaimCount(p) && next == ClaimBytes(p) && fate == Landed(p.idx, true, false))
      || (pc == HitCount(p) && next == HitBytes(p) && fate == Landed(p.idx, true, false))
      || (pc == ClaimBytes(p) && next == Publish(p) && fate == Landed(p.idx, true, true))
      || (pc == HitBytes(p) && next == Idle && fate == Landed(p.idx, true, true))
    ensures s.sh.base.Some? && Accessible(s.sh, s.sh.base.value, p.idx)
    ensures var s' := Written(s, t, p.idx, c, p.ev, s.hist.events[p.ev].(fate := fate), false, next);
            ThreadOk(s'.sh, s'.hist, t, next)
  {
    PutShared(s.sh, s.hist.owners, p.idx, c);
  }

  lemma CountFits(s: State, t: Tid, p: Probe, pc: PC, next: PC)
    requires OwnWrite(s, t, p) && At(s, t) == pc && ThreadOk(s.sh, s.hist, t, pc)
    requires (pc == ClaimCount(p) && next == ClaimBytes(p)) || (pc == HitCount(p) && next == HitBytes(p))
    ensures var was := Table(s.sh)[p.idx];
            Fits(s, t, p.idx, was.(count := Wrap(was.count + 1)), p.ev,
                 s.hist.events[p.ev].(fate := Landed(p.idx, true, false)), next)
  {
    hide DataOk, Hash, Table;
  }

  lemma BytesFit(s: State, t: Tid, p: Probe, pc: PC, next: PC)
    requires OwnWrite(s, t, p) && At(s, t) == pc && ThreadOk(s.sh, s.hist, t, pc)
    requires (pc == ClaimBytes(p) && next == Publish(p)) || (pc == HitBytes(p) && next == Idle)
    ensures var was := Table(s.sh)[p.idx];
            Fits(s, t, p.idx, was.(bytes := Wrap(was.bytes + p.size)), p.ev,
                 s.hist.events[p.ev].(fate := Landed(p.idx, true, true)), next)
  {
    hide DataOk, Hash, Table;
  }

  // The parts of OwnWrite that make the contracts below well defined.
  lemma InTable(s: State, t: Tid, p: Probe)
    requires OwnWrite(s, t, p)
    ensures DataOk(s.sh, s.hist) && s.sh.base == Some(p.base) && Accessible(s.sh, p.base, p.idx)
    ensures p.idx < |Table(s.sh)| && p.ev < |s.hist.events| && CellAt(s.sh, p.base, p.idx) == Table(s.sh)[p.idx]
  {
  }

  lemma AddCountOk(s: State, t: Tid, p: Probe, pc: PC, next: PC)
    requires Inv(s) && At(s, t) == pc && ThreadOk(s.sh, s.hist, t, pc) && OwnWrite(s, t, p)
    requires (pc == ClaimCount(p) && next == ClaimBytes(p)) || (pc == HitCount(p) && next == HitBytes(p))
    ensures Keeps(s, Goto(AddCount(s, p, Table(s.sh)[p.idx]), t, next))
  {
    hide *;
    InTable(s, t, p);
    CountFits(s, t, p, pc, next);
    var was := Table(s.sh)[p.idx];
    var c := was.(count := Wrap(was.count + 1));
    KnowsAfter(s, t, p, pc, c, Landed(p.idx, true, false), next);
    TallyStep(s, t, p.idx, c, p.ev, s.hist.events[p.ev].(fate := Landed(p.idx, true, false)), next);
    AddCountIs(s, t, p, next);
  }

  lemma AddBytesOk(s: State, t: Tid, p: Probe, pc: PC, next: PC)
    requires Inv(s) && At(s, t) == pc && ThreadOk(s.sh, s.hist, t, pc) && OwnWrite(s, t, p)
    requires (pc == ClaimBytes(p) && next == Publish(p)) || (pc == HitBytes(p) && next == Idle)
    ensures Keeps(s, Goto(AddBytes(s, p, Table(s.sh)[p.idx]), t, next))
  {
    hide *;
    InTable(s, t, p);
    BytesFit(s, t, p, pc, next);
    var was := Table(s.sh)[p.idx];
    var c := was.(bytes := Wrap(was.bytes + p.size));
    KnowsAfter(s, t, p, pc, c, Landed(p.idx, true, true), next);
    TallyStep(s, t, p.idx, c, p.ev, s.hist.events[p.ev].(fate := Landed(p.idx, true, true)), next);
    AddBytesIs(s, t, p, next);
  }

  lemma PrefixNext(trace: Frames, k: nat)
    requires trace.Valid() && k < trace.count
    ensures Prefix(trace, k)[k := trace.frames[k]] == Prefix(trace, k + 1)
  {
    PadNext(trace.frames[..k], trace.frames[k]);
    assert trace.frames[..k] + [trace.frames[k]] == trace.frames[..k + 1];
  }

  lemma StoreFrameKnows(s: State, t: Tid, p: Probe, k: nat, c: Bucket, next: PC)
    requires DataOk(s.sh, s.hist) && ThreadOk(s.sh, s.hist, t, StoreFrame(p, k))
    requires s.sh.base.Some? && c == Table(s.sh)[p.idx].(frames := Table(s.sh)[p.idx].frames[k := p.trace.frames[k]])
    requires next == if k + 1 < p.trace.count then StoreFrame(p, k + 1) else ClaimCount(p)
    ensures Accessible(s.sh, s.sh.base.value, p.idx) && k < |CellAt(s.sh, p.base, p.idx).frames|
    ensures var s' := Written(s, t, p.idx, c, p.ev, s.hist.events[p.ev], false, next);
            ThreadOk(s'.sh, s'.hist, t, next)
  {
    PutShared(s.sh, s.hist.owners, p.idx, c);
    PrefixNext(p.trace, k);
    assert s.hist.events[p.ev := s.hist.events[p.ev]] == s.hist.events;
  }

  lemma StoreFrameIs(s: State, t: Tid, p: Probe, k: nat)
    requires s.sh.base == Some(p.base) && Accessible(s.sh, p.base, p.idx) && p.ev < |s.hist.events|
    requires k < p.trace.count && k < |p.trace.frames| && k < |CellAt(s.sh, p.base, p.idx).frames|
    ensures var was := CellAt(s.sh, p.base, p.idx);
            var next := if k + 1 < p.trace.count then StoreFrame(p, k + 1) else ClaimCount(p);
            var c := was.(frames := was.frames[k := p.trace.frames[k]]);
            Written(s, t, p.idx, c, p.ev, s.hist.events[p.ev], false, next) ==
            RecordStep(s, t, StoreFrame(p, k), p, was)
  {
    assert s.hist.events[p.ev := s.hist.events[p.ev]] == s.hist.events;
  }

  lemma StoreFrameFits(s: State, t: Tid, p: Probe, k: nat, next: PC)
    requires OwnWrite(s, t, p) && At(s, t) == StoreFrame(p, k) && ThreadOk(s.sh, s.hist, t, StoreFrame(p, k))
    requires next == if k + 1 < p.trace.count then StoreFrame(p, k + 1) else ClaimCount(p)
    ensures k < p.trace.count && k < |p.trace.frames| && k < |Table(s.sh)[p.idx].frames|
    ensures k < |CellAt(s.sh, p.base, p.idx).frames|
    ensures var was := Table(s.sh)[p.idx];
            Fits(s, t, p.idx, was.(frames := was.frames[k := p.trace.frames[k]]), p.ev, s.hist.events[p.ev], next)
  {
    assert CellOk(Table(s.sh), s.hist.events, s.hist.claims, p.idx);
    hide DataOk, Hash, Table, CellAt, Accessible, ClaimedBy, Prefix;
  }

  lemma StoreFrameOk(s: State, t: Tid, p: Probe, k: nat)
    requires Inv(s) && At(s, t) == StoreFrame(p, k) && ThreadOk(s.sh, s.hist, t, StoreFrame(p, k)) && OwnWrite(s, t, p)
    ensures Keeps(s, RecordStep(s, t, StoreFrame(p, k), p, Table(s.sh)[p.idx]))
  {
    hide *;
    InTable(s, t, p);
    var next := if k + 1 < p.trace.count then StoreFrame(p, k + 1) else ClaimCount(p);
    StoreFrameFits(s, t, p, k, next);
    var was := Table(s.sh)[p.idx];
    var c := was.(frames := was.frames[k := p.trace.frames[k]]);
    StoreFrameKnows(s, t, p, k, c, next);
    StoreFrameIs(s, t, p, k);
    TallyStep(s, t, p.idx, c, p.ev, s.hist.events[p.ev], next);
  }

  lemma PublishedCell(s: State, t: Tid, p: Probe)
    requires Inv(s) && At(s, t) == Publish(p) && ThreadOk(s.sh, s.hist, t, Publish(p))
    ensures var c := Table(s.sh)[p.idx].(frameCount := p.trace.count);
            CellOk(Table(s.sh)[p.idx := c], s.hist.events, s.hist.claims, p.idx)
  {
    var i, table := p.idx, Table(s.sh);
    var c := table[i].(frameCount := p.trace.count);
    OwnCell(s, i);
    assert TableGrows(table, table[i := c]);
    if p.mask != 0 || i != 0 {
      CoveredStays(table, table[i := c], c.hash, i);
    }
  }

  lemma PublishIs(s: State, t: Tid, p: Probe)
    requires s.sh.base == Some(p.base) && Accessible(s.sh, p.base, p.idx) && p.ev < |s.hist.events|
    requires p.trace.count <= MAX_FRAMES
    ensures var was := CellAt(s.sh, p.base, p.idx);
            Written(s, t, p.idx, was.(frameCount := p.trace.count), p.ev, s.hist.events[p.ev], false, Idle) ==
            RecordStep(s, t, Publish(p), p, was)
  {
    assert s.hist.events[p.ev := s.hist.events[p.ev]] == s.hist.events;
  }

  // Everything WroteCell asks for.
  lemma PublishFits(s: State, t: Tid, p: Probe)
    requires Inv(s) && At(s, t) == Publish(p) && ThreadOk(s.sh, s.hist, t, Publish(p)) && OwnWrite(s, t, p)
    ensures p.trace.count <= MAX_FRAMES
    ensures var c, e := Table(s.sh)[p.idx].(frameCount := p.trace.count), s.hist.events[p.ev];
            && GoodWrite(s.sh, s.hist, p.idx, c, p.ev, e, false) && MayWrite(s, t, p.idx, c, p.ev)
            && BusinessAfter(At(s, t), c, p.idx, p.ev, e, false, Idle)
            && EventOk(Table(s.sh)[p.idx := c], e)
  {
    EventsOwn(s, p.ev);
    hide Inv, DataOk, Table;
  }

  lemma PublishOk(s: State, t: Tid, p: Probe)
    requires Inv(s) && At(s, t) == Publish(p) && ThreadOk(s.sh, s.hist, t, Publish(p)) && OwnWrite(s, t, p)
    ensures Keeps(s, RecordStep(s, t, Publish(p), p, Table(s.sh)[p.idx]))
  {
    PublishFits(s, t, p);
    hide *;
    InTable(s, t, p);
    var was, e := Table(s.sh)[p.idx], s.hist.events[p.ev];
    var c := was.(frameCount := p.trace.count);
    PublishedCell(s, t, p);
    SameHist(s.hist, p.ev);
    PublishIs(s, t, p);
    AnyIdle(Written(s, t, p.idx, c, p.ev, e, false, Idle), t);
    WroteCell(s, t, p.idx, c, p.ev, e, false, Idle);
  }

  lemma AnyIdle(s: State, t: Tid)
    ensures ThreadOk(s.sh, s.hist, t, Idle)
  {
  }

  lemma SameHist(h: Hist, ev: nat)
    requires ev < |h.events|
    ensures h.events[ev := h.events[ev]] == h.events
    ensures forall i: nat :: HistAfter(h, i, ev, h.events[ev], false) == h
  {
    assert h.events[ev := h.events[ev]] == h.events;
  }

  // A recording thread knows that the cell it is about to touch exists.
  lemma RecordingKnows(sh: Shared, hist: Hist, t: Tid, pc: PC)
    requires ThreadOk(sh, hist, t, pc) && Recording(pc)
    ensures sh.base == Some(pc.p.base) && pc.p.idx < |Table(sh)|
  {
  }

  lemma ThreadIs(s: State, t: Tid)
    requires Inv(s)
    ensures ThreadOk(s.sh, s.hist, t, At(s, t)) && DataOk(s.sh, s.hist) && !s.fault
  {
  }

  lemma RecordingAccess(s: State, t: Tid, p: Probe)
    requires Inv(s) && Recording(At(s, t)) && At(s, t).p == p
    ensures Accessible(s.sh, p.base, p.idx)
    ensures p.idx < |Table(s.sh)| && CellAt(s.sh, p.base, p.idx) == Table(s.sh)[p.idx]
    ensures ThreadOk(s.sh, s.hist, t, At(s, t))
  {
    ThreadIs(s, t);
    hide Inv, ThreadOk;
    RecordingKnows(s.sh, s.hist, t, At(s, t));
  }

  lemma RecordStepOk(s: State, t: Tid)
    requires Inv(s) && Recording(At(s, t))
    ensures var p := At(s, t).p; Accessible(s.sh, p.base, p.idx)
    ensures var p := At(s, t).p; Keeps(s, RecordStep(s, t, At(s, t), p, CellAt(s.sh, p.base, p.idx)))
  {
    var pc := At(s, t);
    var p := pc.p;
    RecordingAccess(s, t, p);
    if pc.LoadHash? {
      LookOk(s, t, p);
    } else if pc.CasHash? {
      CasOk(s, t, p);
    } else {
      OwnsWrite(s, t, p, pc);
      HoldingStepOk(s, t, p, pc);
    }
  }

  // The steps that write a bucket whose hash the thread has found or set.
  lemma HoldingStepOk(s: State, t: Tid, p: Probe, pc: PC)
    requires Inv(s) && At(s, t) == pc && ThreadOk(s.sh, s.hist, t, pc) && OwnWrite(s, t, p)
    requires Recording(pc) && pc.p == p && !pc.LoadHash? && !pc.CasHash?
    ensures Keeps(s, RecordStep(s, t, pc, p, Table(s.sh)[p.idx]))
  {
    hide Inv, Keeps, ThreadOk, OwnWrite, Table, AddCount, AddBytes, At, Goto;
    match pc
    case StoreFrame(_, k) => StoreFrameOk(s, t, p, k);
    case ClaimCount(_) => AddCountOk(s, t, p, pc, ClaimBytes(p));
    case ClaimBytes(_) => AddBytesOk(s, t, p, pc, Publish(p));
    case Publish(_) => PublishOk(s, t, p);
    case HitCount(_) => AddCountOk(s, t, p, pc, HitBytes(p));
    case HitBytes(_) => AddBytesOk(s, t, p, pc, Idle);
  }

  lemma LookOk(s: State, t: Tid, p: Probe)
    requires Inv(s) && At(s, t) == LoadHash(p) && ThreadOk(s.sh, s.hist, t, LoadHash(p))
    requires Accessible(s.sh, p.base, p.idx) && CellAt(s.sh, p.base, p.idx) == Table(s.sh)[p.idx]
    ensures Keeps(s, RecordStep(s, t, LoadHash(p), p, CellAt(s.sh, p.base, p.idx)))
  {
    hide Inv, Keeps, Later, Hit, Advance;
    var c := Table(s.sh)[p.idx];
    if c.hash == 0 {
      MoveToCas(s, t, p);
    } else if c.hash == p.h {
      HitOk(s, t, p);
    } else {
      AdvanceOk(s, t, p);
    }
  }

  lemma MoveToCas(s: State, t: Tid, p: Probe)
    requires Inv(s) && At(s, t) == LoadHash(p) && ThreadOk(s.sh, s.hist, t, LoadHash(p))
    ensures Keeps(s, Goto(s, t, CasHash(p)))
  {
    hide Inv, Later;
    Moved(s, t, CasHash(p));
  }

  lemma CasOk(s: State, t: Tid, p: Probe)
    requires Inv(s) && At(s, t) == CasHash(p) && ThreadOk(s.sh, s.hist, t, CasHash(p))
    requires Accessible(s.sh, p.base, p.idx) && CellAt(s.sh, p.base, p.idx) == Table(s.sh)[p.idx]
    ensures Keeps(s, RecordStep(s, t, CasHash(p), p, CellAt(s.sh, p.base, p.idx)))
  {
    hide Inv, Keeps, Later, Hit, Advance, Claim;
    var c := Table(s.sh)[p.idx];
    if c.hash == 0 {
      ClaimOk(s, t, p);
    } else if c.hash == p.h {
      HitOk(s, t, p);
    } else {
      AdvanceOk(s, t, p);
    }
  }
}
