/** Every step of every thread keeps the invariant. */
module TablePreserve {
  import opened Wrappers
  import opened TableMachine
  import opened TableInvariant
  import opened TableStable

  // The business of thread t that is unfinished after a step is in the hands of its new program counter.
  ghost predicate MineLinked(s: State, t: Tid) {
    var pc, h, table := At(s, t), s.hist, Table(s.sh);
    && (forall k: nat :: k < |h.events| && h.events[k].owner == t && !Settled(h.events[k].fate) ==>
          EventOf(pc) == Some(k))
    && (forall i :: i in h.claims && i < |table| && MyClaim(h, i, t) && table[i].frameCount == 0 ==>
          ClaimOf(pc) == Some(i))
    && (forall r: nat :: r < |s.sh.regions| && MyRegion(s, r, t) && s.sh.base != Some(r) ==> RegionOf(pc) == Some(r))
    && (MyWindow(s.sh, h, t) ==> WindowOpen(s.sh, pc))
  }

  ghost predicate MyClaim(h: Hist, i: nat, t: Tid)
    requires i in h.claims
  {
    h.claims[i] < |h.events| && h.events[h.claims[i]].owner == t
  }

  ghost predicate MyWindow(sh: Shared, h: Hist, t: Tid) {
    sh.base.Some? && sh.base.value < |h.owners| && h.owners[sh.base.value] == t
  }

  // The thread has nothing left to publish.
  ghost predicate WindowShut(s: State, t: Tid) {
    WindowOf(At(s, t)) == None || s.sh.mask != 0
  }

  ghost predicate MyRegion(s: State, r: nat, t: Tid)
    requires r < |s.sh.regions|
  {
    r < |s.hist.owners| && s.hist.owners[r] == t && s.sh.regions[r].live
  }

  lemma EventsLinkedNext(s: State, s': State, t: Tid)
    requires EventsLinked(s) && Spares(s, s', t) && EventsGrow(s.hist.events, s'.hist.events) && MineLinked(s', t)
    ensures EventsLinked(s')
  {
    forall k: nat | k < |s'.hist.events| && !Settled(s'.hist.events[k].fate)
      ensures EventOf(At(s', s'.hist.events[k].owner)) == Some(k)
    {
      if s'.hist.events[k].owner != t {
        assert s'.hist.events[k] == s.hist.events[k];
      }
    }
  }

  lemma ClaimsLinkedNext(s: State, s': State, t: Tid)
    requires ClaimsLinked(s) && Evolves(s, s', t) && MineLinked(s', t)
    requires TableOk(Table(s.sh), s.hist.events, s.hist.claims)
    ensures ClaimsLinked(s')
  {
    var a, b, c, c' := Table(s.sh), Table(s'.sh), s.hist.claims, s'.hist.claims;
    forall i | i in c' && i < |b| && b[i].frameCount == 0 && c'[i] < |s'.hist.events|
      ensures ClaimOf(At(s', s'.hist.events[c'[i]].owner)) == Some(i)
    {
      if s'.hist.events[c'[i]].owner != t {
        assert i in c && i < |a| && CellOk(a, s.hist.events, c, i);
        assert EventGrows(s.hist.events[c[i]], s'.hist.events[c[i]]);
      }
    }
  }

  lemma RegionsLinkedNext(s: State, s': State, t: Tid)
    requires RegionsLinked(s) && Evolves(s, s', t) && MineLinked(s', t)
    requires |s.hist.owners| == |s.sh.regions|
    ensures RegionsLinked(s')
  {
    forall r: nat | r < |s'.sh.regions| && r < |s'.hist.owners| && s'.sh.regions[r].live && s'.sh.base != Some(r)
      ensures RegionOf(At(s', s'.hist.owners[r])) == Some(r)
    {
      if s'.hist.owners[r] != t {
        assert s.hist.owners[r] == s'.hist.owners[r] && s.sh.base != Some(r);
      }
    }
  }

  // The step from s to s' keeps the invariant and undoes nothing.
  ghost predicate Keeps(s: State, s': State) {
    Inv(s') && Later(s, s')
  }

  // Assembling the invariant after a step of thread t.
  lemma InvNext(s: State, s': State, t: Tid)
    requires Inv(s) && Evolves(s, s', t) && !s'.fault
    requires DataOk(s'.sh, s'.hist) && MineLinked(s', t)
    requires ThreadOk(s'.sh, s'.hist, t, At(s', t))
    requires forall k :: |s.hist.reports| <= k < |s'.hist.reports| ==>
               && ReportOk(Table(s'.sh), s'.hist.events, s'.hist.reports[k])
               && (s'.hist.reports[k].found != [] ==> s'.sh.buckets != 0)
    requires s'.pcs.Keys <= s.pcs.Keys + {t}
    ensures Keeps(s, s')
  {
    EventsLinkedNext(s, s', t);
    ClaimsLinkedNext(s, s', t);
    RegionsLinkedNext(s, s', t);
    forall u | u in s'.pcs ensures ThreadOk(s'.sh, s'.hist, u, s'.pcs[u]) {
      if u != t {
        ThreadStays(s, s', t, u);
      }
    }
    ReportsStay(s, s');
  }

  lemma LaterSelf(s: State, s': State)
    requires s'.sh == s.sh && EventsGrow(s.hist.events, s'.hist.events) && s.hist.reports <= s'.hist.reports
    ensures Later(s, s')
  {
  }

  // Steps that change only a program counter.

  predicate SameBusiness(pc: PC, next: PC) {
    EventOf(next) == EventOf(pc) && ClaimOf(next) == ClaimOf(pc) && RegionOf(next) == RegionOf(pc)
  }

  // A step that changes no shared memory and no event, and may add a report.
  lemma QuietFacts(s: State, s': State, t: Tid, next: PC)
    requires Inv(s)
    requires s' == Goto(s.(hist := s.hist.(reports := s'.hist.reports)), t, next) && s.hist.reports <= s'.hist.reports
    ensures Evolves(s, s', t) && At(s', t) == next && !s'.fault
    ensures DataOk(s'.sh, s'.hist) && s'.pcs.Keys <= s.pcs.Keys + {t} && s'.sh == s.sh
  {
    LaterSelf(s, s');
    hide Linked, ThreadsOk, ReportsOk;
  }

  lemma QuietMine(s: State, s': State, t: Tid, next: PC)
    requires Linked(s) && SharedOk(s.sh) && SameBusiness(At(s, t), next) && WindowShut(s, t)
    requires s' == Goto(s.(hist := s.hist.(reports := s'.hist.reports)), t, next)
    ensures MineLinked(s', t)
  {
  }

  lemma LinkedIs(s: State)
    requires Inv(s)
    ensures Linked(s) && DataOk(s.sh, s.hist) && SharedOk(s.sh)
  {
  }

  lemma Moved(s: State, t: Tid, next: PC)
    requires Inv(s) && SameBusiness(At(s, t), next) && WindowShut(s, t)
    requires ThreadOk(s.sh, s.hist, t, next)
    ensures Keeps(s, Goto(s, t, next))
  {
    var s' := Goto(s, t, next);
    assert s'.hist == s.hist && s' == Goto(s.(hist := s.hist.(reports := s.hist.reports)), t, next);
    hide *;
    LinkedIs(s);
    QuietFacts(s, s', t, next);
    QuietMine(s, s', t, next);
    InvNext(s, s', t);
  }

  // A report ends.
  lemma FinishedOk(s: State, t: Tid, since: Past, found: seq<Found>)
    requires Inv(s) && EventOf(At(s, t)) == None && ClaimOf(At(s, t)) == None && RegionOf(At(s, t)) == None
    requires WindowShut(s, t) && (found != [] ==> s.sh.buckets != 0)
    requires ReportOk(Table(s.sh), s.hist.events, Finished(since, found))
    ensures Keeps(s, Finish(s, t, since, found))
  {
    var s' := Finish(s, t, since, found);
    LinkedIs(s);
    QuietFacts(s, s', t, Idle);
    QuietMine(s, s', t, Idle);
    assert s'.hist.events == s.hist.events && s'.hist.reports == s.hist.reports + [Finished(since, found)];
    assert ThreadOk(s'.sh, s'.hist, t, Idle);
    hide *;
    InvNext(s, s', t);
  }

  // Steps that rewrite the thread's own event without touching a tally.

  ghost function PutEvent(s: State, t: Tid, ev: nat, e: Event, next: PC): State
    requires ev < |s.hist.events|
  {
    Goto(s.(hist := s.hist.(events := s.hist.events[ev := e])), t, next)
  }

  lemma EventsPut(a: seq<Event>, ev: nat, e: Event)
    requires ev < |a| && EventGrows(a[ev], e)
    ensures EventsGrow(a, a[ev := e])
  {
  }

  lemma QuietPut(a: seq<Event>, ev: nat, e: Event, slot: nat)
    requires ev < |a| && Counted(e, slot) == Counted(a[ev], slot) && Summed(e, slot) == Summed(a[ev], slot)
    ensures Tally(a[ev := e], slot) == Tally(a, slot) && Sum(a[ev := e], slot) == Sum(a, slot)
  {
    TallyPut(a, ev, e, slot);
  }

  lemma TableQuiet(table: seq<Bucket>, a: seq<Event>, b: seq<Event>, claims: map<nat, nat>)
    requires TableOk(table, a, claims) && EventsGrow(a, b)
    requires forall i: nat :: i < |table| ==> Tally(b, i) == Tally(a, i) && Sum(b, i) == Sum(a, i)
    ensures TableOk(table, b, claims)
  {
    forall i: nat | i < |table| ensures CellOk(table, b, claims, i) {
      CellStays(table, table, a, b, claims, claims, i);
    }
  }

  predicate Added(f: Fate) {
    f.Landed? && (f.counted || f.summed)
  }

  lemma EventData(s: State, ev: nat, e: Event)
    requires DataOk(s.sh, s.hist) && ev < |s.hist.events|
    requires EventGrows(s.hist.events[ev], e) && EventOk(Table(s.sh), e)
    requires !Added(e.fate) && !Added(s.hist.events[ev].fate)
    ensures DataOk(s.sh, s.hist.(events := s.hist.events[ev := e]))
    ensures EventsGrow(s.hist.events, s.hist.events[ev := e])
  {
    var a := s.hist.events;
    var b := a[ev := e];
    EventsPut(a, ev, e);
    forall i: nat | i < |Table(s.sh)| ensures Tally(b, i) == Tally(a, i) && Sum(b, i) == Sum(a, i) {
      QuietPut(a, ev, e, i);
    }
    TableQuiet(Table(s.sh), a, b, s.hist.claims);
  }

  // The thread's business after a step that only rewrites its event.
  lemma EventMine(s: State, t: Tid, ev: nat, e: Event, next: PC)
    requires Linked(s) && ev < |s.hist.events| && s.hist.events[ev].owner == t && EventOf(At(s, t)) == Some(ev)
    requires SharedOk(s.sh) && WindowShut(s, t)
    requires e.owner == t && (Settled(e.fate) || EventOf(next) == Some(ev))
    requires ClaimOf(next) == ClaimOf(At(s, t)) && RegionOf(next) == RegionOf(At(s, t))
    ensures MineLinked(PutEvent(s, t, ev, e, next), t)
  {
  }

  lemma PutFacts(s: State, t: Tid, ev: nat, e: Event, next: PC)
    requires Inv(s) && ev < |s.hist.events| && s.hist.events[ev].owner == t && EventGrows(s.hist.events[ev], e)
    ensures var s' := PutEvent(s, t, ev, e, next);
            && Evolves(s, s', t) && !s'.fault && At(s', t) == next && s'.pcs.Keys <= s.pcs.Keys + {t}
            && s'.sh == s.sh && s'.hist == s.hist.(events := s.hist.events[ev := e])
            && |s'.hist.reports| == |s.hist.reports|
            && DataOk(s.sh, s.hist) && Linked(s) && SharedOk(s.sh)
  {
    var s' := PutEvent(s, t, ev, e, next);
    LaterSelf(s, s');
    hide DataOk, Linked, ThreadsOk, ReportsOk;
  }

  lemma EventMoved(s: State, t: Tid, ev: nat, e: Event, next: PC)
    requires Inv(s) && ev < |s.hist.events| && s.hist.events[ev].owner == t && EventOf(At(s, t)) == Some(ev)
    requires EventGrows(s.hist.events[ev], e) && EventOk(Table(s.sh), e) && e.owner == t && WindowShut(s, t)
    requires !Added(e.fate) && !Added(s.hist.events[ev].fate)
    requires Settled(e.fate) || EventOf(next) == Some(ev)
    requires ClaimOf(next) == ClaimOf(At(s, t)) && RegionOf(next) == RegionOf(At(s, t))
    requires ThreadOk(s.sh, s.hist.(events := s.hist.events[ev := e]), t, next)
    ensures Keeps(s, PutEvent(s, t, ev, e, next))
  {
    hide *;
    PutFacts(s, t, ev, e, next);
    EventData(s, ev, e);
    EventMine(s, t, ev, e, next);
    InvNext(s, PutEvent(s, t, ev, e, next), t);
  }
}
