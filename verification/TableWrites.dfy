/** Steps of the table machine that write one bucket and the writer's own event. */
module TableWrites {
  import opened Wrappers
  import opened Words
  import opened TableMachine
  import opened TableInvariant
  import opened TableStable
  import opened TablePreserve

  lemma PutShared(sh: Shared, owners: seq<Tid>, i: nat, c: Bucket)
    requires SharedOk(sh) && RegionsOk(sh, owners) && i < |Table(sh)|
    ensures sh.base.Some? && Accessible(sh, sh.base.value, i) && CellAt(sh, sh.base.value, i) == Table(sh)[i]
    ensures var sh' := PutCell(sh, sh.base.value, i, c);
            Table(sh') == Table(sh)[i := c] && SharedOk(sh') && RegionsOk(sh', owners)
  {
  }

  lemma WrapAdd(x: nat, y: nat)
    ensures Wrap(Wrap(x) + y) == Wrap(x + y)
  {
    ModUnique(x + y, TWO_64, (Wrap(x) + y) / TWO_64 + x / TWO_64, Wrap(Wrap(x) + y));
  }

  // Bucket i becomes c, event ev becomes e, and i is claimed by ev if it was not claimed before.
  ghost function HistAfter(h: Hist, i: nat, ev: nat, e: Event, claim: bool): Hist
    requires ev < |h.events|
  {
    h.(events := h.events[ev := e], claims := if claim then h.claims[i := ev] else h.claims)
  }

  ghost predicate GoodWrite(sh: Shared, h: Hist, i: nat, c: Bucket, ev: nat, e: Event, claim: bool) {
    var table := Table(sh);
    && i < |table| && ev < |h.events|
    && (claim ==> i !in h.claims)
    && CellGrows(table[i], c) && EventGrows(h.events[ev], e)
    && e.fate.Landed? && e.fate.slot == i
    && (h.events[ev].fate.Landed? ==> h.events[ev].fate.slot == i)
  }

  lemma WriteGrows(sh: Shared, h: Hist, i: nat, c: Bucket, ev: nat, e: Event, claim: bool)
    requires GoodWrite(sh, h, i, c, ev, e, claim)
    ensures TableGrows(Table(sh), Table(sh)[i := c]) && EventsGrow(h.events, h.events[ev := e])
  {
  }

  lemma OtherCells(sh: Shared, h: Hist, i: nat, c: Bucket, ev: nat, e: Event, claim: bool, j: nat)
    requires GoodWrite(sh, h, i, c, ev, e, claim) && TableOk(Table(sh), h.events, h.claims)
    requires j < |Table(sh)| && j != i
    ensures var h' := HistAfter(h, i, ev, e, claim);
            CellOk(Table(sh)[i := c], h'.events, h'.claims, j)
  {
    var h' := HistAfter(h, i, ev, e, claim);
    WriteGrows(sh, h, i, c, ev, e, claim);
    QuietPut(h.events, ev, e, j);
    CellStays(Table(sh), Table(sh)[i := c], h.events, h'.events, h.claims, h'.claims, j);
  }

  lemma WriteTable(sh: Shared, h: Hist, i: nat, c: Bucket, ev: nat, e: Event, claim: bool)
    requires GoodWrite(sh, h, i, c, ev, e, claim) && TableOk(Table(sh), h.events, h.claims)
    requires var h' := HistAfter(h, i, ev, e, claim); CellOk(Table(sh)[i := c], h'.events, h'.claims, i)
    ensures var h' := HistAfter(h, i, ev, e, claim); TableOk(Table(sh)[i := c], h'.events, h'.claims)
  {
    var h' := HistAfter(h, i, ev, e, claim);
    var after := Table(sh)[i := c];
    forall j: nat | j < |after| && j != i ensures CellOk(after, h'.events, h'.claims, j) {
      OtherCells(sh, h, i, c, ev, e, claim, j);
    }
  }

  lemma WriteEvents(sh: Shared, h: Hist, i: nat, c: Bucket, ev: nat, e: Event, claim: bool)
    requires GoodWrite(sh, h, i, c, ev, e, claim) && EventsOk(Table(sh), h.events)
    requires EventOk(Table(sh)[i := c], e)
    ensures EventsOk(Table(sh)[i := c], h.events[ev := e])
  {
    WriteGrows(sh, h, i, c, ev, e, claim);
    forall k: nat | k < |h.events| && k != ev ensures EventOk(Table(sh)[i := c], h.events[k]) {
      EventStays(Table(sh), Table(sh)[i := c], h.events[k]);
    }
  }

  ghost function Written(s: State, t: Tid, i: nat, c: Bucket, ev: nat, e: Event, claim: bool, next: PC): State
    requires s.sh.base.Some? && Accessible(s.sh, s.sh.base.value, i) && ev < |s.hist.events|
  {
    var s1 := State(PutCell(s.sh, s.sh.base.value, i, c), s.pcs, HistAfter(s.hist, i, ev, e, claim), s.fault);
    Goto(s1, t, next)
  }

  // The thread keeps its own claims to itself.
  ghost predicate MayWrite(s: State, t: Tid, i: nat, c: Bucket, ev: nat)
    requires i < |Table(s.sh)| && ev < |s.hist.events|
  {
    && s.hist.events[ev].owner == t
    && (i in s.hist.claims && !MyClaim(s.hist, i, t) ==>
          c.frameCount == Table(s.sh)[i].frameCount && c.frames == Table(s.sh)[i].frames)
  }

  lemma WriteEvolves(s: State, t: Tid, i: nat, c: Bucket, ev: nat, e: Event, claim: bool, next: PC)
    requires DataOk(s.sh, s.hist) && GoodWrite(s.sh, s.hist, i, c, ev, e, claim) && MayWrite(s, t, i, c, ev)
    ensures s.sh.base.Some? && Accessible(s.sh, s.sh.base.value, i)
    ensures Evolves(s, Written(s, t, i, c, ev, e, claim, next), t)
  {
    PutShared(s.sh, s.hist.owners, i, c);
    WriteGrows(s.sh, s.hist, i, c, ev, e, claim);
  }

  // After the write, the thread's unfinished business is the event, the claim it works on, and nothing else.
  ghost predicate BusinessAfter(pc: PC, c: Bucket, i: nat, ev: nat, e: Event, claim: bool, next: PC) {
    && EventOf(pc) == Some(ev) && (Settled(e.fate) || EventOf(next) == Some(ev))
    && (c.frameCount == 0 && (claim || ClaimOf(pc) == Some(i)) ==> ClaimOf(next) == Some(i))
    && (ClaimOf(pc) == None || ClaimOf(pc) == Some(i))
    && RegionOf(pc) == None && RegionOf(next) == None && WindowOf(pc) == None
  }

  lemma WriteMine(s: State, t: Tid, i: nat, c: Bucket, ev: nat, e: Event, claim: bool, next: PC)
    requires DataOk(s.sh, s.hist) && Linked(s)
    requires GoodWrite(s.sh, s.hist, i, c, ev, e, claim) && MayWrite(s, t, i, c, ev)
    requires BusinessAfter(At(s, t), c, i, ev, e, claim, next)
    ensures s.sh.base.Some? && Accessible(s.sh, s.sh.base.value, i)
    ensures MineLinked(Written(s, t, i, c, ev, e, claim, next), t)
  {
    PutShared(s.sh, s.hist.owners, i, c);
    var s' := Written(s, t, i, c, ev, e, claim, next);
    assert At(s', t) == next;
    ClaimsMine(s, t, i, c, ev, e, claim, next);
  }

  lemma ClaimsMine(s: State, t: Tid, i: nat, c: Bucket, ev: nat, e: Event, claim: bool, next: PC)
    requires DataOk(s.sh, s.hist) && ClaimsLinked(s)
    requires GoodWrite(s.sh, s.hist, i, c, ev, e, claim)
    requires BusinessAfter(At(s, t), c, i, ev, e, claim, next)
    ensures var h' := HistAfter(s.hist, i, ev, e, claim);
            var after := Table(s.sh)[i := c];
            forall j: nat :: j < |after| && j in h'.claims && MyClaim(h', j, t) && after[j].frameCount == 0 ==>
              ClaimOf(next) == Some(j)
  {
    var h, h', table := s.hist, HistAfter(s.hist, i, ev, e, claim), Table(s.sh);
    var after := table[i := c];
    forall j: nat | j < |after| && j in h'.claims && MyClaim(h', j, t) && after[j].frameCount == 0
      ensures ClaimOf(next) == Some(j)
    {
      assert CellOk(table, h.events, h.claims, j);
      if j != i || !claim {
        assert MyClaim(h, j, t);
        assert table[j].frameCount == 0;
      }
    }
  }

  lemma WroteCell(s: State, t: Tid, i: nat, c: Bucket, ev: nat, e: Event, claim: bool, next: PC)
    requires Inv(s) && GoodWrite(s.sh, s.hist, i, c, ev, e, claim) && MayWrite(s, t, i, c, ev)
    requires BusinessAfter(At(s, t), c, i, ev, e, claim, next)
    requires EventOk(Table(s.sh)[i := c], e)
    requires var h' := HistAfter(s.hist, i, ev, e, claim); CellOk(Table(s.sh)[i := c], h'.events, h'.claims, i)
    ensures s.sh.base.Some? && Accessible(s.sh, s.sh.base.value, i)
    ensures var s' := Written(s, t, i, c, ev, e, claim, next);
            ThreadOk(s'.sh, s'.hist, t, next) ==> Keeps(s, s')
  {
    WriteEvolves(s, t, i, c, ev, e, claim, next);
    PutShared(s.sh, s.hist.owners, i, c);
    WriteTable(s.sh, s.hist, i, c, ev, e, claim);
    WriteEvents(s.sh, s.hist, i, c, ev, e, claim);
    WriteMine(s, t, i, c, ev, e, claim, next);
    var s' := Written(s, t, i, c, ev, e, claim, next);
    if ThreadOk(s'.sh, s'.hist, t, next) {
      InvNext(s, s', t);
    }
  }
}
