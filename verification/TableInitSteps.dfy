/** The race to install the table, and the start of calls, keep the invariant. */
module TableInitSteps {
  import opened Wrappers
  import opened Words
  import opened FrameHash
  import opened StackWalk
  import opened TableSize
  import opened TableMachine
  import opened TableInvariant
  import opened TableStable
  import opened TablePreserve
  import opened TableRecordSteps
  import opened TableScanSteps

  // The program counters of ensure_init.
  predicate Initialising(pc: PC) {
    !pc.Idle? && !Recording(pc) && !Scanning(pc)
  }

  lemma JobKnown(s: State, t: Tid)
    requires Inv(s) && Initialising(At(s, t))
    ensures JobOk(s.sh, s.hist, t, At(s, t).job) && ThreadOk(s.sh, s.hist, t, At(s, t))
  {
    assert ThreadOk(s.sh, s.hist, t, At(s, t));
  }

  // Only installed buckets are claimed, and only by recorded events.
  lemma ClaimsInside(s: State)
    requires Inv(s)
    ensures forall i :: i in s.hist.claims ==> i < |Table(s.sh)| && s.hist.claims[i] < |s.hist.events|
  {
    var table := Table(s.sh);
    forall i | i in s.hist.claims ensures i < |table| && s.hist.claims[i] < |s.hist.events| {
      assert i < |table| && CellOk(table, s.hist.events, s.hist.claims, i);
    }
  }

  // Starting a call.

  lemma EventAdded(sh: Shared, hist: Hist, e: Event)
    requires DataOk(sh, hist) && EventOk(Table(sh), e) && e.fate == Waiting
    ensures DataOk(sh, hist.(events := hist.events + [e]))
    ensures EventsGrow(hist.events, hist.events + [e])
  {
    var a, b := hist.events, hist.events + [e];
    forall i: nat | i < |Table(sh)| ensures Tally(b, i) == Tally(a, i) && Sum(b, i) == Sum(a, i) {
      TallyAppend(a, e, i);
    }
    TableQuiet(Table(sh), a, b, hist.claims);
  }

  ghost function Appended(s: State, t: Tid, e: Event, next: PC): State {
    Goto(s.(hist := s.hist.(events := s.hist.events + [e])), t, next)
  }

  lemma AppendFacts(s: State, t: Tid, e: Event, next: PC)
    requires Inv(s) && e.owner == t && EventsGrow(s.hist.events, s.hist.events + [e])
    ensures var s' := Appended(s, t, e, next);
            && Evolves(s, s', t) && !s'.fault && At(s', t) == next && s'.pcs.Keys <= s.pcs.Keys + {t}
            && s'.sh == s.sh && s'.hist == s.hist.(events := s.hist.events + [e])
            && |s'.hist.reports| == |s.hist.reports|
  {
    LaterSelf(s, Appended(s, t, e, next));
    ClaimsInside(s);
    hide DataOk, ThreadsOk, ReportsOk;
  }

  lemma AppendMine(s: State, t: Tid, e: Event, next: PC)
    requires Linked(s) && SharedOk(s.sh) && At(s, t) == Idle
    requires forall i :: i in s.hist.claims ==> i < |Table(s.sh)| && s.hist.claims[i] < |s.hist.events|
    requires EventOf(next) == Some(|s.hist.events|) && ClaimOf(next) == None && RegionOf(next) == None
    ensures MineLinked(Appended(s, t, e, next), t)
  {
  }

  lemma StartFacts(s: State, t: Tid, e: Event, next: PC)
    requires Inv(s) && At(s, t) == Idle && e == Event(t, e.trace, e.size, None, Waiting)
    requires e.trace.Valid() && e.trace.count > 0 && next == LoadBase(RecordJob(|s.hist.events|, e.trace, e.size))
    ensures var s' := Appended(s, t, e, next);
            MineLinked(s', t) && DataOk(s'.sh, s'.hist) && ThreadOk(s'.sh, s'.hist, t, next)
    ensures EventsGrow(s.hist.events, s.hist.events + [e])
  {
    DataIs(s);
    LinkedIs(s);
    ClaimsInside(s);
    EventAdded(s.sh, s.hist, e);
    AppendMine(s, t, e, next);
    hide Inv, DataOk, MineLinked, Linked, SharedOk;
  }

  lemma StartRecordOk(s: State, t: Tid, trace: Frames, size: u64)
    requires Inv(s) && At(s, t) == Idle && trace.Valid() && trace.count > 0
    ensures var ev, e := |s.hist.events|, Event(t, trace, size, None, Waiting);
            Keeps(s, Goto(s.(hist := s.hist.(events := s.hist.events + [e])), t, LoadBase(RecordJob(ev, trace, size))))
  {
    var ev, e := |s.hist.events|, Event(t, trace, size, None, Waiting);
    var next := LoadBase(RecordJob(ev, trace, size));
    var s' := Appended(s, t, e, next);
    assert s' == Goto(s.(hist := s.hist.(events := s.hist.events + [e])), t, next);
    hide *;
    StartFacts(s, t, e, next);
    AppendFacts(s, t, e, next);
    InvNext(s, s', t);
  }

  lemma DataIs(s: State)
    requires Inv(s)
    ensures DataOk(s.sh, s.hist) && SharedOk(s.sh) && !s.fault
  {
  }

  lemma StartReportOk(s: State, t: Tid)
    requires Inv(s) && At(s, t) == Idle
    ensures var table := if s.sh.buckets == 0 then [] else Table(s.sh);
            Keeps(s, Goto(s, t, LoadBase(ReportJob(Past(table, s.hist.events)))))
  {
    var table := if s.sh.buckets == 0 then [] else Table(s.sh);
    hide Inv, Keeps;
    Moved(s, t, LoadBase(ReportJob(Past(table, s.hist.events))));
  }

  lemma StartOk(s: State, t: Tid, act: Act)
    requires Inv(s) && At(s, t) == Idle
    ensures Keeps(s, Start(s, t, act))
  {
    Stays(s);
    hide Inv, Keeps, At, Goto, Table;
    match act
    case Record(trace, size) =>
      if trace.Valid() && trace.count > 0 {
        StartRecordOk(s, t, trace, size);
      }
    case Report => StartReportOk(s, t);
    case _ =>
  }

  lemma Stays(s: State)
    requires Inv(s)
    ensures Keeps(s, s)
  {
    LaterSelf(s, s);
  }

  // The table was obtained.

  // The mask is one a thread may hold.
  lemma EnterRecordKnows(sh: Shared, hist: Hist, t: Tid, ev: nat, trace: Frames, size: u64, base: nat, mask: nat)
    requires SharedOk(sh) && EventIs(hist.events, t, ev, trace, size, None, Waiting) && sh.base == Some(base)
    requires mask == 0 || mask == |Table(sh)| - 1
    ensures var h := Hash(trace.frames, trace.count);
            var idx, e := And(h, mask), Event(t, trace, size, Some(mask), Waiting);
            && ThreadOk(sh, hist.(events := hist.events[ev := e]), t,
                        LoadHash(Probe(ev, trace, size, base, mask, h, idx, idx)))
            && EventOk(Table(sh), e) && EventGrows(hist.events[ev], e)
  {
    var h := Hash(trace.frames, trace.count);
    Masked(h, mask, |Table(sh)|);
    hide Hash, And;
  }

  lemma EnterRecordOk(s: State, t: Tid, ev: nat, trace: Frames, size: u64, base: nat, b: nat, mask: nat)
    requires Inv(s) && Initialising(At(s, t)) && At(s, t).job == RecordJob(ev, trace, size)
    requires RegionOf(At(s, t)) == None && WindowShut(s, t)
    requires s.sh.base == Some(base) && (mask == 0 || mask == |Table(s.sh)| - 1)
    ensures Keeps(s, Enter(s, t, RecordJob(ev, trace, size), base, b, mask))
  {
    EnterFacts(s, t, ev, trace, size, base, mask);
    var h := Hash(trace.frames, trace.count);
    var e := Event(t, trace, size, Some(mask), Waiting);
    hide *;
    var idx := And(h, mask);
    var next := LoadHash(Probe(ev, trace, size, base, mask, h, idx, idx));
    EnterIs(s, t, ev, trace, size, base, b, mask);
    EventMoved(s, t, ev, e, next);
  }

  // Everything EventMoved asks for.
  lemma EnterFacts(s: State, t: Tid, ev: nat, trace: Frames, size: u64, base: nat, mask: nat)
    requires Inv(s) && Initialising(At(s, t)) && At(s, t).job == RecordJob(ev, trace, size)
    requires RegionOf(At(s, t)) == None
    requires s.sh.base == Some(base) && (mask == 0 || mask == |Table(s.sh)| - 1)
    ensures EventIs(s.hist.events, t, ev, trace, size, None, Waiting)
    ensures var h := Hash(trace.frames, trace.count);
            var idx, e := And(h, mask), Event(t, trace, size, Some(mask), Waiting);
            var next := LoadHash(Probe(ev, trace, size, base, mask, h, idx, idx));
            && ThreadOk(s.sh, s.hist.(events := s.hist.events[ev := e]), t, next)
            && EventOk(Table(s.sh), e) && EventGrows(s.hist.events[ev], e) && s.hist.events[ev].owner == t
            && EventOf(At(s, t)) == Some(ev) && EventOf(next) == Some(ev)
            && !Added(e.fate) && !Added(s.hist.events[ev].fate)
            && ClaimOf(At(s, t)) == ClaimOf(next) && RegionOf(next) == RegionOf(At(s, t))
  {
    JobKnown(s, t);
    DataIs(s);
    EnterRecordKnows(s.sh, s.hist, t, ev, trace, size, base, mask);
    hide Inv, DataOk, SharedOk, ThreadOk, EventOk, EventGrows, Hash, And, Table;
  }

  lemma EnterIs(s: State, t: Tid, ev: nat, trace: Frames, size: u64, base: nat, b: nat, mask: nat)
    requires EventIs(s.hist.events, t, ev, trace, size, None, Waiting)
    ensures var h := Hash(trace.frames, trace.count);
            var idx, e := And(h, mask), Event(t, trace, size, Some(mask), Waiting);
            Enter(s, t, RecordJob(ev, trace, size), base, b, mask) ==
            PutEvent(s, t, ev, e, LoadHash(Probe(ev, trace, size, base, mask, h, idx, idx)))
  {
    hide Hash, And;
  }

  lemma EnterReportOk(s: State, t: Tid, since: Past, base: nat, b: nat, mask: nat)
    requires Inv(s) && Initialising(At(s, t)) && At(s, t).job == ReportJob(since)
    requires RegionOf(At(s, t)) == None && WindowShut(s, t)
    requires s.sh.base == Some(base) && CountOk(s.sh, ReportJob(since), b)
    ensures Keeps(s, Enter(s, t, ReportJob(since), base, b, mask))
  {
    JobKnown(s, t);
    DataIs(s);
    hide Inv, Keeps, DataOk;
    if b == 0 {
      FinishedOk(s, t, since, []);
    } else {
      Moved(s, t, ScanHash(Scan(since, base, b, 0, [])));
    }
  }

  lemma EnterOk(s: State, t: Tid, job: Job, base: nat, b: nat, mask: nat)
    requires Inv(s) && Initialising(At(s, t)) && At(s, t).job == job && RegionOf(At(s, t)) == None && WindowShut(s, t)
    requires s.sh.base == Some(base) && CountOk(s.sh, job, b) && (mask == 0 || mask == |Table(s.sh)| - 1)
    ensures Keeps(s, Enter(s, t, job, base, b, mask))
  {
    hide *;
    match job
    case RecordJob(ev, trace, size) => EnterRecordOk(s, t, ev, trace, size, base, b, mask);
    case ReportJob(since) => EnterReportOk(s, t, since, base, b, mask);
  }

  lemma GiveUpOk(s: State, t: Tid, job: Job)
    requires Inv(s) && At(s, t) == MapPages(job)
    ensures Keeps(s, GiveUp(s, t, job))
  {
    JobKnown(s, t);
    DataIs(s);
    hide Inv, Keeps, DataOk;
    match job
    case RecordJob(ev, trace, size) => EventMoved(s, t, ev, s.hist.events[ev].(fate := Unplaced), Idle);
    case ReportJob(since) => FinishedOk(s, t, since, []);
  }

  // Steps that write the three words of the table's descriptor, or map or free pages.

  // Every live region that the thread owns and that is not installed is the one it is working on, and if it installed
  // its region it is publishing the descriptor.
  ghost predicate RegionsMine(sh: Shared, owners: seq<Tid>, t: Tid, pc: PC) {
    && (forall r: nat :: r < |sh.regions| && r < |owners| && sh.base != Some(r) && owners[r] == t ==>
          sh.regions[r].live ==> RegionOf(pc) == Some(r))
    && (sh.base.Some? && sh.base.value < |owners| && owners[sh.base.value] == t ==> WindowOpen(sh, pc))
  }

  // A step of thread t that changes only shared words, regions and their owners.
  lemma SharedStep(s: State, sh: Shared, owners: seq<Tid>, t: Tid, next: PC)
    requires Inv(s)
    requires DataOk(sh, s.hist.(owners := owners))
    requires EventOf(next) == EventOf(At(s, t)) && ClaimOf(At(s, t)) == None && ClaimOf(next) == None
    requires var s' := Goto(State(sh, s.pcs, s.hist.(owners := owners), s.fault), t, next);
             Evolves(s, s', t) && ThreadOk(sh, s'.hist, t, next)
    requires RegionsMine(sh, owners, t, next)
    requires Table(s.sh) != [] ==> Table(sh) == Table(s.sh)
    ensures Keeps(s, Goto(State(sh, s.pcs, s.hist.(owners := owners), s.fault), t, next))
  {
    var s' := Goto(State(sh, s.pcs, s.hist.(owners := owners), s.fault), t, next);
    assert MineLinked(s', t) by {
      SharedMine(s, sh, owners, t, next);
    }
    DataIs(s);
    hide Inv, DataOk, Evolves, ThreadOk, MineLinked;
    InvNext(s, s', t);
  }

  lemma SharedMine(s: State, sh: Shared, owners: seq<Tid>, t: Tid, next: PC)
    requires Inv(s)
    requires EventOf(next) == EventOf(At(s, t)) && ClaimOf(At(s, t)) == None && ClaimOf(next) == None
    requires RegionsMine(sh, owners, t, next)
    requires Table(s.sh) != [] ==> Table(sh) == Table(s.sh)
    ensures MineLinked(Goto(State(sh, s.pcs, s.hist.(owners := owners), s.fault), t, next), t)
  {
    ClaimsInside(s);
    var s' := Goto(State(sh, s.pcs, s.hist.(owners := owners), s.fault), t, next);
    assert Linked(s) by { LinkedIs(s); }
    hide Inv;
  }

  // No event has a mask, a drop or a landing, and no bucket is claimed, before a table is installed.
  lemma FreshTable(hist: Hist, size: nat, i: nat)
    requires TableOk([], hist.events, hist.claims) && EventsOk([], hist.events) && i < size
    ensures var table := seq(size, k => EMPTY); CellOk(table, hist.events, hist.claims, i)
  {
    forall k: nat | k < |hist.events| ensures !hist.events[k].fate.Landed? {
      assert EventOk([], hist.events[k]);
    }
    TallyZero(hist.events, i);
  }

  lemma InstalledTable(table: seq<Bucket>, hist: Hist)
    requires TableOk([], hist.events, hist.claims) && EventsOk([], hist.events)
    requires forall i :: 0 <= i < |table| ==> table[i] == EMPTY
    ensures TableOk(table, hist.events, hist.claims) && EventsOk(table, hist.events)
  {
    assert table == seq(|table|, k => EMPTY);
    forall i: nat | i < |table| ensures CellOk(table, hist.events, hist.claims, i) {
      FreshTable(hist, |table|, i);
    }
    forall k: nat | k < |hist.events| ensures EventOk(table, hist.events[k]) {
      assert EventOk([], hist.events[k]);
      EventStays([], table, hist.events[k]);
    }
  }

  lemma WinReady(s: State, t: Tid, job: Job, mine: nat, n: nat)
    requires Inv(s) && At(s, t) == CasBase(job, mine, n) && s.sh.base.None?
    ensures var sh, next := s.sh.(base := Some(mine)), StoreBuckets(job, mine, n);
            && DataOk(sh, s.hist) && ThreadOk(sh, s.hist, t, next) && RegionsMine(sh, s.hist.owners, t, next)
            && Table(s.sh) == []
  {
    JobKnown(s, t);
    DataIs(s);
    LinkedIs(s);
    var sh, next := s.sh.(base := Some(mine)), StoreBuckets(job, mine, n);
    InstalledTable(Table(sh), s.hist);
    WinData(s.sh, s.hist, mine);
    hide Inv, DataOk, JobOk, SharedOk, TableOk, EventsOk, GoodSize;
  }

  lemma WinOk(s: State, t: Tid, job: Job, mine: nat, n: nat)
    requires Inv(s) && At(s, t) == CasBase(job, mine, n) && s.sh.base.None?
    ensures Keeps(s, Goto(s.(sh := s.sh.(base := Some(mine))), t, StoreBuckets(job, mine, n)))
  {
    hide *;
    var sh, next := s.sh.(base := Some(mine)), StoreBuckets(job, mine, n);
    WinReady(s, t, job, mine, n);
    WinEvolves(s, t, job, mine, n);
    LosesRegion(At(s, t), next);
    SameOwners(s, sh, t, next);
    SharedStep(s, sh, s.hist.owners, t, next);
  }

  lemma WinData(sh: Shared, hist: Hist, mine: nat)
    requires DataOk(sh, hist) && sh.base.None? && mine < |sh.regions| && sh.regions[mine].live
    requires TableOk(sh.regions[mine].cells, hist.events, hist.claims) && EventsOk(sh.regions[mine].cells, hist.events)
    ensures DataOk(sh.(base := Some(mine)), hist)
  {
  }

  lemma WinEvolves(s: State, t: Tid, job: Job, mine: nat, n: nat)
    requires Inv(s) && At(s, t) == CasBase(job, mine, n) && s.sh.base.None?
    ensures var sh, next := s.sh.(base := Some(mine)), StoreBuckets(job, mine, n);
            var s' := Goto(s.(sh := sh), t, next);
            Evolves(s, s', t) && ThreadOk(sh, s.hist, t, next)
  {
    JobKnown(s, t);
    DataIs(s);
    hide Inv, DataOk;
  }

  lemma MapData(sh: Shared, hist: Hist, t: Tid, n: nat)
    requires DataOk(sh, hist) && GoodSize(n)
    ensures var sh' := sh.(regions := sh.regions + [Region(seq(n, i => EMPTY), true)]);
            DataOk(sh', hist.(owners := hist.owners + [t])) && Table(sh') == Table(sh)
  {
    var r := Region(seq(n, i => EMPTY), true);
    assert Untouched(r);
  }

  ghost function Mapped(sh: Shared, n: nat): Shared {
    sh.(regions := sh.regions + [Region(seq(n, i => EMPTY), true)])
  }

  lemma MapEvolves(s: State, t: Tid, job: Job, n: nat)
    requires DataOk(s.sh, s.hist) && At(s, t) == MapPages(job)
    ensures var hist, next := s.hist.(owners := s.hist.owners + [t]), CasBase(job, |s.sh.regions|, n);
            Evolves(s, Goto(s.(sh := Mapped(s.sh, n), hist := hist), t, next), t)
  {
    assert Table(Mapped(s.sh, n)) == Table(s.sh);
    hide TableOk, EventsOk, Untouched;
  }

  lemma MapMine(s: State, t: Tid, job: Job, n: nat)
    requires DataOk(s.sh, s.hist) && RegionsLinked(s) && WindowLinked(s) && At(s, t) == MapPages(job)
    ensures RegionsMine(Mapped(s.sh, n), s.hist.owners + [t], t, CasBase(job, |s.sh.regions|, n))
  {
    hide TableOk, EventsOk, Untouched, Table;
  }

  lemma MapKnows(s: State, t: Tid, job: Job, n: nat)
    requires DataOk(s.sh, s.hist) && JobOk(s.sh, s.hist, t, job)
    ensures var hist := s.hist.(owners := s.hist.owners + [t]);
            ThreadOk(Mapped(s.sh, n), hist, t, CasBase(job, |s.sh.regions|, n))
  {
    assert Table(Mapped(s.sh, n)) == Table(s.sh);
    hide TableOk, EventsOk, Untouched, Table;
  }

  lemma MapOk(s: State, t: Tid, job: Job, setting: Setting)
    requires Inv(s) && At(s, t) == MapPages(job)
    ensures Keeps(s, InitStep(s, t, MapPages(job), Map(setting, true)))
  {
    var n := ConfiguredBucketCount(setting);
    BucketCountIsGood(setting);
    var sh := s.sh.(regions := s.sh.regions + [Region(seq(n, i => EMPTY), true)]);
    var owners, next := s.hist.owners + [t], CasBase(job, |s.sh.regions|, n);
    DataIs(s);
    JobKnown(s, t);
    LinkedIs(s);
    MapData(s.sh, s.hist, t, n);
    MapEvolves(s, t, job, n);
    MapMine(s, t, job, n);
    MapKnows(s, t, job, n);
    hide Inv, JobOk, Linked, DataOk, Keeps, Evolves, RegionsMine, ThreadOk, GoodSize, ConfiguredBucketCount;
    hide Table, SharedOk;
    SharedStep(s, sh, owners, t, next);
  }

  lemma LoseOk(s: State, t: Tid, job: Job, mine: nat, n: nat)
    requires Inv(s) && At(s, t) == CasBase(job, mine, n) && s.sh.base.Some?
    ensures Keeps(s, Goto(s, t, FreePages(job, mine, s.sh.base.value)))
  {
    JobKnown(s, t);
    hide Inv, Keeps, JobOk;
    Moved(s, t, FreePages(job, mine, s.sh.base.value));
  }

  lemma BucketsKnow(s: State, t: Tid, job: Job, mine: nat, n: nat)
    requires Inv(s) && At(s, t) == StoreBuckets(job, mine, n)
    ensures var sh := s.sh.(buckets := n);
            && s.sh.base == Some(mine) && mine < |s.hist.owners| && s.hist.owners[mine] == t
            && n == |Table(s.sh)| && n != 0 && (s.sh.buckets == 0 || s.sh.buckets == n)
            && Table(sh) == Table(s.sh) && DataOk(sh, s.hist) && ThreadOk(sh, s.hist, t, StoreMask(job, mine, n))
  {
    JobKnown(s, t);
    DataIs(s);
    hide Inv, TableOk, EventsOk;
  }

  lemma BucketsFacts(s: State, t: Tid, job: Job, mine: nat, n: nat)
    requires Inv(s) && At(s, t) == StoreBuckets(job, mine, n)
    ensures var sh, next := s.sh.(buckets := n), StoreMask(job, mine, n);
            && Evolves(s, Goto(s.(sh := sh), t, next), t) && ThreadOk(sh, s.hist, t, next)
            && RegionsMine(sh, s.hist.owners, t, next) && DataOk(sh, s.hist) && Table(sh) == Table(s.sh)
  {
    BucketsKnow(s, t, job, mine, n);
    LinkedIs(s);
    hide Inv, EventsLinked, ClaimsLinked, DataOk, ThreadOk, SharedOk;
  }

  lemma StoreBucketsOk(s: State, t: Tid, job: Job, mine: nat, n: nat)
    requires Inv(s) && At(s, t) == StoreBuckets(job, mine, n)
    ensures Keeps(s, Goto(s.(sh := s.sh.(buckets := n)), t, StoreMask(job, mine, n)))
  {
    BucketsFacts(s, t, job, mine, n);
    assert s.hist.(owners := s.hist.owners) == s.hist;
    hide Inv, DataOk, Keeps, Evolves, RegionsMine, ThreadOk, Table;
    SharedStep(s, s.sh.(buckets := n), s.hist.owners, t, StoreMask(job, mine, n));
  }

  lemma MaskKnow(s: State, t: Tid, job: Job, mine: nat, n: nat)
    requires Inv(s) && At(s, t) == StoreMask(job, mine, n)
    ensures var sh := s.sh.(mask := MaskOf(n));
            && sh.base == Some(mine) && mine < |s.hist.owners| && s.hist.owners[mine] == t && sh.buckets != 0
            && DataOk(sh, s.hist) && Table(sh) == Table(s.sh) && ThreadOk(sh, s.hist, t, StoreMask(job, mine, n))
            && n == |Table(sh)| && MaskOf(n) == n - 1 && MaskOf(n) != 0 && CountOk(sh, job, n)
            && (s.sh.mask == 0 || s.sh.mask == MaskOf(n))
  {
    JobKnown(s, t);
    DataIs(s);
    hide Inv, TableOk, EventsOk;
  }

  lemma MaskFacts(s: State, t: Tid, job: Job, mine: nat, n: nat)
    requires Inv(s) && At(s, t) == StoreMask(job, mine, n)
    ensures var sh, next := s.sh.(mask := MaskOf(n)), StoreMask(job, mine, n);
            && Evolves(s, Goto(s.(sh := sh), t, next), t) && ThreadOk(sh, s.hist, t, next)
            && RegionsMine(sh, s.hist.owners, t, next) && DataOk(sh, s.hist) && Table(sh) == Table(s.sh)
            && n == |Table(sh)| && MaskOf(n) == n - 1 && MaskOf(n) != 0 && sh.base == Some(mine) && CountOk(sh, job, n)
  {
    MaskKnow(s, t, job, mine, n);
    LinkedIs(s);
    hide Inv, EventsLinked, ClaimsLinked, DataOk, ThreadOk, SharedOk, CountOk;
  }

  lemma StoreMaskOk(s: State, t: Tid, job: Job, mine: nat, n: nat)
    requires Inv(s) && At(s, t) == StoreMask(job, mine, n)
    ensures Keeps(s, Enter(s.(sh := s.sh.(mask := MaskOf(n))), t, job, mine, n, MaskOf(n)))
  {
    MaskFacts(s, t, job, mine, n);
    var s1 := s.(sh := s.sh.(mask := MaskOf(n)));
    var s2 := Goto(s1, t, StoreMask(job, mine, n));
    assert s2 == s1;
    assert s.hist.(owners := s.hist.owners) == s.hist;
    assert At(s1, t) == StoreMask(job, mine, n);
    hide Inv, DataOk, Keeps, Evolves, RegionsMine, ThreadOk, Table, CountOk, Enter;
    SharedStep(s, s.sh.(mask := MaskOf(n)), s.hist.owners, t, StoreMask(job, mine, n));
    assert Keeps(s, s1);
    KeepsInv(s, s1);
    EnterOk(s1, t, job, mine, n, MaskOf(n));
    KeepsTwice(s, s1, Enter(s1, t, job, mine, n, MaskOf(n)));
  }

  lemma KeepsInv(s: State, s1: State)
    requires Keeps(s, s1)
    ensures Inv(s1)
  {
  }

  lemma KeepsTwice(s: State, s1: State, s2: State)
    requires Keeps(s, s1) && Keeps(s1, s2)
    ensures Keeps(s, s2)
  {
    hide Inv;
    LaterTwice(s, s1, s2);
  }

  // The memory after region mine has been freed.
  ghost function Freed(sh: Shared, mine: nat): Shared
    requires mine < |sh.regions|
  {
    sh.(regions := sh.regions[mine := sh.regions[mine].(live := false)])
  }

  lemma FreeKnows(s: State, t: Tid, job: Job, mine: nat, other: nat)
    requires Inv(s) && At(s, t) == FreePages(job, mine, other)
    ensures mine < |s.sh.regions| && s.sh.regions[mine].live && mine != other && s.sh.base == Some(other)
    ensures other < |s.sh.regions| && Table(Freed(s.sh, mine)) == Table(s.sh)
    ensures ThreadOk(Freed(s.sh, mine), s.hist, t, SpinBuckets(job, other))
    ensures mine < |s.hist.owners| && s.hist.owners[mine] == t && |s.hist.owners| == |s.sh.regions|
  {
    JobKnown(s, t);
    DataIs(s);
    hide Inv, TableOk, EventsOk;
  }

  lemma FreeFacts(s: State, t: Tid, job: Job, mine: nat, other: nat)
    requires Inv(s) && At(s, t) == FreePages(job, mine, other)
    ensures mine < |s.sh.regions| && s.sh.regions[mine].live
    ensures var sh, next := Freed(s.sh, mine), SpinBuckets(job, other);
            && Evolves(s, Goto(s.(sh := sh), t, next), t) && ThreadOk(sh, s.hist, t, next)
            && RegionsMine(sh, s.hist.owners, t, next) && Table(sh) == Table(s.sh)
  {
    FreeKnows(s, t, job, mine, other);
    LinkedIs(s);
    hide Inv, EventsLinked, ClaimsLinked, DataOk, ThreadOk, SharedOk;
  }

  lemma FreeData(sh: Shared, hist: Hist, mine: nat)
    requires DataOk(sh, hist) && mine < |sh.regions| && sh.base.Some? && sh.base.value != mine
    ensures DataOk(Freed(sh, mine), hist)
  {
    var sh' := Freed(sh, mine);
    assert Table(sh') == Table(sh);
    hide TableOk, EventsOk;
  }

  lemma FreeIs(s: State, t: Tid, job: Job, mine: nat, other: nat)
    requires At(s, t) == FreePages(job, mine, other) && mine < |s.sh.regions| && s.sh.regions[mine].live
    ensures InitStep(s, t, FreePages(job, mine, other), Go) ==
            Goto(State(Freed(s.sh, mine), s.pcs, s.hist.(owners := s.hist.owners), s.fault), t, SpinBuckets(job, other))
  {
    hide Enter, GiveUp, ConfiguredBucketCount;
  }

  lemma LosesRegion(pc: PC, next: PC)
    requires (pc.FreePages? && next == SpinBuckets(pc.job, pc.other)) ||
             (pc.CasBase? && next == StoreBuckets(pc.job, pc.mine, pc.n))
    ensures EventOf(next) == EventOf(pc) && ClaimOf(pc) == None && ClaimOf(next) == None
  {
  }

  lemma SameOwners(s: State, sh: Shared, t: Tid, next: PC)
    ensures s.hist.(owners := s.hist.owners) == s.hist
    ensures s.(sh := sh) == State(sh, s.pcs, s.hist.(owners := s.hist.owners), s.fault)
    ensures Goto(s.(sh := sh), t, next).hist == s.hist
  {
  }

  lemma FreeOk(s: State, t: Tid, job: Job, mine: nat, other: nat)
    requires Inv(s) && At(s, t) == FreePages(job, mine, other)
    ensures Keeps(s, InitStep(s, t, FreePages(job, mine, other), Go))
  {
    hide *;
    FreeKnows(s, t, job, mine, other);
    FreeFacts(s, t, job, mine, other);
    DataIs(s);
    FreeData(s.sh, s.hist, mine);
    FreeIs(s, t, job, mine, other);
    LosesRegion(At(s, t), SpinBuckets(job, other));
    SameOwners(s, Freed(s.sh, mine), t, SpinBuckets(job, other));
    SharedStep(s, Freed(s.sh, mine), s.hist.owners, t, SpinBuckets(job, other));
  }

  // Loads of the descriptor.

  lemma LoadBaseOk(s: State, t: Tid, job: Job)
    requires Inv(s) && At(s, t) == LoadBase(job)
    ensures Keeps(s, InitStep(s, t, LoadBase(job), Go))
  {
    JobKnown(s, t);
    DataIs(s);
    hide Inv, Keeps, DataOk, Table;
    Moved(s, t, if s.sh.base.Some? then LoadBuckets(job, s.sh.base.value) else MapPages(job));
  }

  lemma LoadBucketsOk(s: State, t: Tid, job: Job, base: nat)
    requires Inv(s) && At(s, t) == LoadBuckets(job, base)
    ensures Keeps(s, InitStep(s, t, LoadBuckets(job, base), Go))
  {
    JobKnown(s, t);
    DataIs(s);
    hide Inv, Keeps, DataOk, Table;
    Moved(s, t, LoadMask(job, base, s.sh.buckets));
  }

  lemma SpinOk(s: State, t: Tid, job: Job, other: nat)
    requires Inv(s) && At(s, t) == SpinBuckets(job, other)
    ensures Keeps(s, InitStep(s, t, SpinBuckets(job, other), Go))
  {
    JobKnown(s, t);
    DataIs(s);
    Stays(s);
    hide Inv, Keeps, JobOk, DataOk, Table;
    if s.sh.buckets > 0 {
      Moved(s, t, SpinMask(job, other, s.sh.buckets));
    }
  }

  lemma LastLoadOk(s: State, t: Tid, pc: PC)
    requires Inv(s) && At(s, t) == pc && (pc.LoadMask? || pc.SpinMask?)
    ensures Keeps(s, InitStep(s, t, pc, Go))
  {
    LastLoadKnows(s, t, pc);
    hide Inv, Keeps, Enter, At, Table, CountOk, Initialising, WindowShut;
    match pc
    case LoadMask(job, base, b) => EnterOk(s, t, job, base, b, s.sh.mask);
    case SpinMask(job, other, b) => EnterOk(s, t, job, other, b, s.sh.mask);
  }

  lemma LastLoadKnows(s: State, t: Tid, pc: PC)
    requires Inv(s) && At(s, t) == pc && (pc.LoadMask? || pc.SpinMask?)
    ensures Initialising(pc) && RegionOf(pc) == None && WindowShut(s, t)
    ensures s.sh.mask == 0 || s.sh.mask == |Table(s.sh)| - 1
    ensures s.sh.base == Some(if pc.LoadMask? then pc.base else pc.other) && CountOk(s.sh, pc.job, pc.b)
  {
    JobKnown(s, t);
    DataIs(s);
    hide Inv, JobOk, DataOk;
  }

  // The winner and the losers of the race.
  lemma RaceStepOk(s: State, t: Tid, pc: PC)
    requires Inv(s) && At(s, t) == pc
    requires pc.CasBase? || pc.StoreBuckets? || pc.StoreMask? || pc.FreePages?
    ensures Keeps(s, InitStep(s, t, pc, Go))
  {
    hide Inv, Keeps, Enter, At, Goto;
    match pc
    case CasBase(job, mine, n) =>
      if s.sh.base.None? {
        WinOk(s, t, job, mine, n);
      } else {
        LoseOk(s, t, job, mine, n);
      }
    case StoreBuckets(job, mine, n) => StoreBucketsOk(s, t, job, mine, n);
    case StoreMask(job, mine, n) => StoreMaskOk(s, t, job, mine, n);
    case FreePages(job, mine, other) => FreeOk(s, t, job, mine, other);
  }

  lemma MapStepOk(s: State, t: Tid, job: Job, act: Act)
    requires Inv(s) && At(s, t) == MapPages(job)
    ensures Keeps(s, InitStep(s, t, MapPages(job), act))
  {
    Stays(s);
    hide Inv, Keeps, GiveUp, Goto;
    if act.Map? && act.ok {
      MapOk(s, t, job, act.setting);
    } else {
      GiveUpOk(s, t, job);
    }
  }

  lemma InitStepOk(s: State, t: Tid, act: Act)
    requires Inv(s) && Initialising(At(s, t)) && (act.Go? || At(s, t).MapPages?)
    ensures Keeps(s, InitStep(s, t, At(s, t), act))
  {
    var pc := At(s, t);
    hide Inv, Keeps, InitStep, At;
    match pc
    case MapPages(job) => MapStepOk(s, t, job, act);
    case LoadMask(_, _, _) => LastLoadOk(s, t, pc);
    case SpinMask(_, _, _) => LastLoadOk(s, t, pc);
    case LoadBase(job) => LoadBaseOk(s, t, job);
    case LoadBuckets(job, base) => LoadBucketsOk(s, t, job, base);
    case SpinBuckets(job, other) => SpinOk(s, t, job, other);
    case _ => RaceStepOk(s, t, pc);
  }

  /** Every step of every thread keeps the invariant, and undoes nothing that was done before. */
  lemma NextOk(s: State, l: Label)
    requires Inv(s)
    ensures Keeps(s, Next(s, l))
  {
    var pc := At(s, l.t);
    Stays(s);
    if Recording(pc) {
      RecordStepOk(s, l.t);
    } else if Scanning(pc) {
      ScanStepOk(s, l.t);
    }
    hide Inv, Keeps, RecordStep, ScanStep, InitStep, Start;
    if pc.Idle? {
      StartOk(s, l.t, l.act);
    } else if !Recording(pc) && !Scanning(pc) && (l.act.Go? || pc.MapPages?) {
      InitStepOk(s, l.t, l.act);
    }
  }

  lemma InitOk()
    ensures Inv(Init())
  {
  }

  /** The invariant holds at the end of every run from a state in which it holds, and the run undoes nothing. */
  lemma {:induction false} RunOk(s: State, labels: seq<Label>)
    requires Inv(s)
    ensures Keeps(s, Run(s, labels))
    decreases |labels|
  {
    if labels == [] {
      Stays(s);
    } else {
      var n := |labels| - 1;
      var mid := Run(s, labels[..n]);
      RunOk(s, labels[..n]);
      hide Inv, Next;
      NextOk(mid, labels[n]);
      KeepsTwice(s, mid, Next(mid, labels[n]));
    }
  }

  lemma {:induction false} RunTwice(s: State, a: seq<Label>, b: seq<Label>)
    ensures Run(Run(s, a), b) == Run(s, a + b)
    decreases |b|
  {
    if b == [] {
      assert a + b == a;
    } else {
      var n := |b| - 1;
      RunTwice(s, a, b[..n]);
      assert (a + b)[..|a + b| - 1] == a + b[..n];
      hide Next;
    }
  }
}
