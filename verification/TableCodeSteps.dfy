/** What each atomic operation of the program's code does to the memory and to its thread's program counter. */
module TableCodeSteps {
  import opened Wrappers
  import opened Words
  import opened FrameHash
  import opened StackWalk
  import opened TableSize
  import opened TableMachine
  import opened TableInvariant
  import opened TablePreserve
  import opened TableRecordSteps
  import opened TableScanSteps
  import opened TableInitSteps
  import opened TableTheorems
  import opened TableReports
  import opened TableProgress

  // The step leaves this memory and takes its thread to this program counter.
  ghost predicate Steps(s: State, t: Tid, act: Act, sh: Shared, pc: PC) {
    var s' := Next(s, Label(t, act));
    s'.sh == sh && At(s', t) == pc
  }

  lemma StepReachable(s: State, l: Label)
    requires Reachable(s)
    ensures Reachable(Next(s, l)) && Later(s, Next(s, l))
    ensures Effective(s, l) ==> 0 <= StepsLeft(At(Next(s, l), l.t)) < StepsLeft(At(s, l.t))
  {
    RunReachable(s, [l]);
    assert [l][..0] == [];
    assert Run(s, [l]) == Next(Run(s, []), l);
    ReachableOk(s);
    hide Next, StepsLeft, Effective, Inv, Reachable, Later;
    if Effective(s, l) {
      StepShortens(s, l);
    }
  }

  // How many events a thread has recorded.
  ghost function Own(events: seq<Event>, t: Tid): nat {
    if events == [] then 0
    else Own(events[..|events| - 1], t) + if events[|events| - 1].owner == t then 1 else 0
  }

  ghost predicate Begins(s: State, l: Label) {
    At(s, l.t) == Idle && l.act.Record? && l.act.trace.Valid() && l.act.trace.count != 0
  }

  lemma {:induction false} OwnSame(a: seq<Event>, b: seq<Event>, t: Tid)
    requires |a| == |b| && forall k :: 0 <= k < |a| ==> b[k].owner == a[k].owner
    ensures Own(a, t) == Own(b, t)
  {
    if a != [] {
      var n := |a| - 1;
      OwnSame(a[..n], b[..n], t);
    }
  }

  lemma NextLength(s: State, l: Label)
    ensures var s' := Next(s, l);
            && |s'.hist.events| == |s.hist.events| + (if Begins(s, l) then 1 else 0)
            && (Begins(s, l) ==> s'.hist.events[|s.hist.events|].owner == l.t)
  {
    hide And, Hash, CellAt, PutCell, Accessible, Tally, Sum, ConfiguredBucketCount, Wrap;
  }

  // A step adds an event to its thread's when it begins a record call, and to no other thread's.
  lemma NextOwn(s: State, l: Label, t: Tid)
    requires Reachable(s)
    ensures Own(Next(s, l).hist.events, t) == Own(s.hist.events, t) + if Begins(s, l) && l.t == t then 1 else 0
  {
    var a, b := s.hist.events, Next(s, l).hist.events;
    StepReachable(s, l);
    NextLength(s, l);
    assert forall k :: 0 <= k < |a| ==> EventGrows(a[k], b[k]);
    hide Next, Reachable;
    OwnSame(a, b[..|a|], t);
    assert |b| == |a| ==> b[..|a|] == b;
  }

  // The sizes of the regions a thread has mapped, in order.
  ghost function Sizes(owners: seq<Tid>, regions: seq<Region>, t: Tid): seq<nat> {
    if owners == [] || |owners| != |regions| then []
    else
      var n := |owners| - 1;
      Sizes(owners[..n], regions[..n], t) + if owners[n] == t then [|regions[n].cells|] else []
  }

  ghost function MappedBy(s: State, t: Tid): seq<nat> {
    Sizes(s.hist.owners, s.sh.regions, t)
  }

  ghost predicate Maps(s: State, l: Label) {
    At(s, l.t).MapPages? && l.act.Map? && l.act.ok
  }

  ghost predicate SameSizes(a: seq<Region>, b: seq<Region>) {
    |a| == |b| && forall r :: 0 <= r < |a| ==> |b[r].cells| == |a[r].cells|
  }

  lemma {:induction false} SizesSame(owners: seq<Tid>, a: seq<Region>, b: seq<Region>, t: Tid)
    requires SameSizes(a, b)
    ensures Sizes(owners, a, t) == Sizes(owners, b, t)
  {
    if owners != [] && |owners| == |a| {
      var n := |owners| - 1;
      SizesSame(owners[..n], a[..n], b[..n], t);
    }
  }

  lemma SizesAppend(owners: seq<Tid>, regions: seq<Region>, u: Tid, r: Region, t: Tid)
    requires |owners| == |regions|
    ensures Sizes(owners + [u], regions + [r], t) ==
            Sizes(owners, regions, t) + if u == t then [|r.cells|] else []
  {
    assert (owners + [u])[..|owners|] == owners && (regions + [r])[..|regions|] == regions;
  }

  // A region is mapped by the step that maps pages, with the configured size; no other step maps or resizes one.

  lemma RecordRegions(s: State, t: Tid)
    requires Recording(At(s, t)) && Accessible(s.sh, At(s, t).p.base, At(s, t).p.idx)
    ensures var p := At(s, t).p;
            var s' := RecordStep(s, t, At(s, t), p, CellAt(s.sh, p.base, p.idx));
            s'.hist.owners == s.hist.owners && SameSizes(s.sh.regions, s'.sh.regions)
  {
    hide And, Wrap, Hash;
  }

  lemma ScanRegions(s: State, t: Tid)
    requires Scanning(At(s, t)) && Accessible(s.sh, At(s, t).r.base, At(s, t).r.i)
    ensures var r := At(s, t).r;
            var s' := ScanStep(s, t, At(s, t), r, CellAt(s.sh, r.base, r.i));
            s'.hist.owners == s.hist.owners && SameSizes(s.sh.regions, s'.sh.regions)
  {
    hide Tally, Sum;
  }

  lemma InitRegions(s: State, l: Label)
    requires Initialising(At(s, l.t))
    ensures var s' := InitStep(s, l.t, At(s, l.t), l.act);
            if Maps(s, l) then
              var n := ConfiguredBucketCount(l.act.setting);
              s'.hist.owners == s.hist.owners + [l.t] &&
              s'.sh.regions == s.sh.regions + [Region(seq(n, i => EMPTY), true)]
            else s'.hist.owners == s.hist.owners && SameSizes(s.sh.regions, s'.sh.regions)
  {
    hide And, Hash, ConfiguredBucketCount;
  }

  lemma NextRegions(s: State, l: Label)
    ensures var s' := Next(s, l);
            if Maps(s, l) then
              var n := ConfiguredBucketCount(l.act.setting);
              s'.hist.owners == s.hist.owners + [l.t] &&
              s'.sh.regions == s.sh.regions + [Region(seq(n, i => EMPTY), true)]
            else s'.hist.owners == s.hist.owners && SameSizes(s.sh.regions, s'.sh.regions)
  {
    var pc := At(s, l.t);
    if Recording(pc) && Accessible(s.sh, pc.p.base, pc.p.idx) {
      RecordRegions(s, l.t);
    } else if Scanning(pc) && Accessible(s.sh, pc.r.base, pc.r.i) {
      ScanRegions(s, l.t);
    } else if Initialising(pc) {
      InitRegions(s, l);
    }
    hide RecordStep, ScanStep, InitStep, ConfiguredBucketCount;
  }

  lemma NextMapped(s: State, l: Label, t: Tid)
    requires Reachable(s)
    ensures MappedBy(Next(s, l), t) ==
            MappedBy(s, t) + if Maps(s, l) && l.t == t then [ConfiguredBucketCount(l.act.setting)] else []
  {
    OwnersFit(s);
    NextRegions(s, l);
    hide Next, Reachable, ConfiguredBucketCount, Maps;
    if Maps(s, l) {
      var n := ConfiguredBucketCount(l.act.setting);
      SizesAppend(s.hist.owners, s.sh.regions, l.t, Region(seq(n, i => EMPTY), true), t);
    } else {
      SizesSame(s.hist.owners, s.sh.regions, Next(s, l).sh.regions, t);
    }
  }

  lemma OwnersFit(s: State)
    requires Reachable(s)
    ensures |s.hist.owners| == |s.sh.regions|
  {
    ReachableOk(s);
    DataIs(s);
    hide Inv, Reachable;
  }

  // Steps by other threads do not move this one, and record no events and map no regions for it.
  lemma {:induction false} OthersOnly(s: State, labels: seq<Label>, t: Tid)
    requires Reachable(s) && forall k :: 0 <= k < |labels| ==> labels[k].t != t
    ensures At(Run(s, labels), t) == At(s, t) && Own(Run(s, labels).hist.events, t) == Own(s.hist.events, t)
    ensures MappedBy(Run(s, labels), t) == MappedBy(s, t)
    decreases |labels|
  {
    if labels != [] {
      var n := |labels| - 1;
      var mid := Run(s, labels[..n]);
      OthersOnly(s, labels[..n], t);
      RunReachable(s, labels[..n]);
      assert Run(s, labels) == Next(mid, labels[n]);
      hide Next, Reachable, Own, Begins, Run, Keeps, MappedBy, Maps, ConfiguredBucketCount;
      NextHands(mid, labels[n]);
      NextOwn(mid, labels[n], t);
      NextMapped(mid, labels[n], t);
    }
  }

  // A longer run is later.
  lemma LongerIsLater(a: seq<Label>, b: seq<Label>)
    requires a <= b
    ensures Later(Run(Init(), a), Run(Init(), b))
  {
    var c := b[|a|..];
    assert b == a + c;
    assert Reachable(Run(Init(), a));
    hide Run, Reachable, Later;
    RunTwice(Init(), a, c);
    RunReachable(Run(Init(), a), c);
  }

  // Recording.

  // Where a probe goes when its slot does not match.
  function Advanced(p: Probe): PC {
    var idx := And(p.idx + 1, p.mask);
    if idx == p.start then Idle else LoadHash(p.(idx := idx))
  }

  // Where a probe goes after it has seen hash h in its slot.
  function Seen(p: Probe, h: u64, empty: PC): PC {
    if h == 0 then empty else if h == p.h then HitCount(p) else Advanced(p)
  }

  lemma RecordTick(s: State, t: Tid, pc: PC, p: Probe)
    requires Reachable(s) && At(s, t) == pc && Recording(pc) && pc.p == p
    ensures Accessible(s.sh, p.base, p.idx)
    ensures Next(s, Label(t, Go)) == RecordStep(s, t, pc, p, CellAt(s.sh, p.base, p.idx))
  {
    ReachableOk(s);
    hide Reachable, Inv, RecordStep, CellAt;
    RecordingAccess(s, t, p);
    hide Accessible;
  }

  lemma LoadHashStep(s: State, t: Tid, p: Probe)
    requires Reachable(s) && At(s, t) == LoadHash(p)
    ensures Accessible(s.sh, p.base, p.idx)
    ensures Steps(s, t, Go, s.sh, Seen(p, CellAt(s.sh, p.base, p.idx).hash, CasHash(p)))
  {
    RecordTick(s, t, LoadHash(p), p);
    hide Next, And, Reachable, CellAt, Accessible;
  }

  lemma CasHashStep(s: State, t: Tid, p: Probe)
    requires Reachable(s) && At(s, t) == CasHash(p)
    ensures Accessible(s.sh, p.base, p.idx)
    ensures var c := CellAt(s.sh, p.base, p.idx);
            var sh := if c.hash == 0 then PutCell(s.sh, p.base, p.idx, c.(hash := p.h)) else s.sh;
            Steps(s, t, Go, sh, Seen(p, c.hash, StoreFrame(p, 0)))
  {
    RecordTick(s, t, CasHash(p), p);
    hide Next, And, Reachable, CellAt, Accessible, PutCell;
  }

  lemma StoreFrameStep(s: State, t: Tid, p: Probe, k: nat)
    requires Reachable(s) && At(s, t) == StoreFrame(p, k)
    ensures Accessible(s.sh, p.base, p.idx)
    ensures var c := CellAt(s.sh, p.base, p.idx);
            && k < p.trace.count && k < |p.trace.frames| && k < |c.frames|
            && Steps(s, t, Go, PutCell(s.sh, p.base, p.idx, c.(frames := c.frames[k := p.trace.frames[k]])),
                     if k + 1 < p.trace.count then StoreFrame(p, k + 1) else ClaimCount(p))
  {
    RecordTick(s, t, StoreFrame(p, k), p);
    ReachableOk(s);
    hide Next, Reachable, Inv;
    RecordingAccess(s, t, p);
    hide Accessible, PutCell, Hash;
  }

  // The remaining additions and the last store of a record call.

  lemma AddCountStep(s: State, t: Tid, pc: PC, p: Probe)
    requires Reachable(s) && At(s, t) == pc && (pc.ClaimCount? || pc.HitCount?) && pc.p == p
    ensures Accessible(s.sh, p.base, p.idx)
    ensures var c := CellAt(s.sh, p.base, p.idx);
            Steps(s, t, Go, PutCell(s.sh, p.base, p.idx, c.(count := Wrap(c.count + 1))),
                  if pc.ClaimCount? then ClaimBytes(p) else HitBytes(p))
  {
    RecordTick(s, t, pc, p);
    hide Next, Reachable, CellAt, Accessible, PutCell, Wrap;
  }

  lemma AddBytesStep(s: State, t: Tid, pc: PC, p: Probe)
    requires Reachable(s) && At(s, t) == pc && (pc.ClaimBytes? || pc.HitBytes?) && pc.p == p
    ensures Accessible(s.sh, p.base, p.idx)
    ensures var c := CellAt(s.sh, p.base, p.idx);
            Steps(s, t, Go, PutCell(s.sh, p.base, p.idx, c.(bytes := Wrap(c.bytes + p.size))),
                  if pc.ClaimBytes? then Publish(p) else Idle)
  {
    RecordTick(s, t, pc, p);
    hide Next, Reachable, CellAt, Accessible, PutCell, Wrap;
  }

  lemma PublishStep(s: State, t: Tid, pc: PC, p: Probe)
    requires Reachable(s) && At(s, t) == pc && pc.Publish? && pc.p == p
    ensures Accessible(s.sh, p.base, p.idx)
    ensures var c := CellAt(s.sh, p.base, p.idx);
            Steps(s, t, Go, PutCell(s.sh, p.base, p.idx, c.(frameCount := Wrap(p.trace.count))), Idle)
  {
    RecordTick(s, t, pc, p);
    hide Next, Reachable, CellAt, Accessible, PutCell, Wrap;
  }

  // Reporting.

  // The scan has gone on to the next bucket, or the report is finished.
  ghost predicate Scanned(s: State, t: Tid, r: Scan) {
    if r.i + 1 < r.buckets then At(s, t) == ScanHash(r.(i := r.i + 1))
    else At(s, t) == Idle && Reported(s, r.since, r.found)
  }

  // The latest report to finish is this one.
  ghost predicate Reported(s: State, since: Past, found: seq<Found>) {
    s.hist.reports != [] && s.hist.reports[|s.hist.reports| - 1] == Finished(since, found)
  }

  lemma ScanTick(s: State, t: Tid, pc: PC, r: Scan)
    requires Reachable(s) && At(s, t) == pc && Scanning(pc) && pc.r == r
    ensures Accessible(s.sh, r.base, r.i)
    ensures Next(s, Label(t, Go)) == ScanStep(s, t, pc, r, CellAt(s.sh, r.base, r.i))
  {
    ReachableOk(s);
    hide Reachable, Inv, ScanStep, CellAt;
    ScanningKnows(s, t, r);
    hide Accessible, ScanOk;
  }

  lemma ScanHashStep(s: State, t: Tid, r: Scan)
    requires Reachable(s) && At(s, t) == ScanHash(r)
    ensures Accessible(s.sh, r.base, r.i)
    ensures var s' := Next(s, Label(t, Go));
            && s'.sh == s.sh
            && if CellAt(s.sh, r.base, r.i).hash == 0 then Scanned(s', t, r) else At(s', t) == ScanFrameCount(r)
  {
    ScanTick(s, t, ScanHash(r), r);
    hide Next, Reachable, CellAt, Accessible;
  }

  lemma ScanFrameCountStep(s: State, t: Tid, r: Scan)
    requires Reachable(s) && At(s, t) == ScanFrameCount(r)
    ensures Accessible(s.sh, r.base, r.i)
    ensures var s', fc := Next(s, Label(t, Go)), CellAt(s.sh, r.base, r.i).frameCount;
            && s'.sh == s.sh
            && if fc == 0 then Scanned(s', t, r) else At(s', t) == ScanFrame(r, Clamp8(fc), 0, ZEROS)
  {
    ScanTick(s, t, ScanFrameCount(r), r);
    hide Next, Reachable, CellAt, Accessible, Clamp8;
  }

  lemma ScanFrameStep(s: State, t: Tid, r: Scan, n: nat, j: nat, frames: seq<u64>)
    requires Reachable(s) && At(s, t) == ScanFrame(r, n, j, frames)
    ensures Accessible(s.sh, r.base, r.i)
    ensures var c := CellAt(s.sh, r.base, r.i);
            && j < n && j < |frames| && j < |c.frames|
            && var read := frames[j := c.frames[j]];
               Steps(s, t, Go, s.sh, if j + 1 < n then ScanFrame(r, n, j + 1, read) else ScanCount(r, n, read))
  {
    ScanTick(s, t, ScanFrame(r, n, j, frames), r);
    ReachableOk(s);
    hide Next, Reachable, Inv;
    ScanningKnows(s, t, r);
    hide Accessible, ScanOk;
  }

  lemma ScanCountStep(s: State, t: Tid, r: Scan, n: nat, frames: seq<u64>)
    requires Reachable(s) && At(s, t) == ScanCount(r, n, frames)
    ensures Accessible(s.sh, r.base, r.i)
    ensures var count, tally := CellAt(s.sh, r.base, r.i).count, Tally(s.hist.events, r.i);
            Steps(s, t, Go, s.sh, ScanBytes(r, n, frames, count, tally))
  {
    ScanTick(s, t, ScanCount(r, n, frames), r);
    hide Next, Reachable, CellAt, Accessible, Tally;
  }

  lemma ScanBytesStep(s: State, t: Tid, r: Scan, n: nat, frames: seq<u64>, count: u64, tally: nat)
    requires Reachable(s) && At(s, t) == ScanBytes(r, n, frames, count, tally)
    ensures Accessible(s.sh, r.base, r.i)
    ensures var s', row := Next(s, Label(t, Go)), CallSiteStats(frames, n, count, CellAt(s.sh, r.base, r.i).bytes);
            && s'.sh == s.sh
            && Scanned(s', t, r.(found := r.found + [Found(r.i, row, tally, Sum(s.hist.events, r.i))]))
  {
    ScanTick(s, t, ScanBytes(r, n, frames, count, tally), r);
    hide Next, Reachable, CellAt, Accessible, Tally, Sum;
  }

  // Initialisation.

  // What ensure_init hands to its caller.
  datatype Handle = Handle(base: nat, buckets: nat, mask: nat)

  // The thread goes on from ensure_init with this handle, or with none.
  ghost predicate Entered(m: State, t: Tid, job: Job, got: Option<Handle>) {
    match job
    case RecordJob(ev, trace, size) =>
      (match got
       case None => At(m, t) == Idle && ev < |m.hist.events| && m.hist.events[ev].fate == Unplaced
       case Some(Handle(base, _, mask)) =>
         && trace.Valid()
         && var h := Hash(trace.frames, trace.count);
            At(m, t) == LoadHash(Probe(ev, trace, size, base, mask, h, And(h, mask), And(h, mask))))
    case ReportJob(since) =>
      if got.Some? && got.value.buckets != 0 then
        At(m, t) == ScanHash(Scan(since, got.value.base, got.value.buckets, 0, []))
      else At(m, t) == Idle && Reported(m, since, [])
  }

  lemma EnterGives(s: State, t: Tid, job: Job, base: nat, b: nat, mask: nat)
    requires TraceOk(job)
    ensures Entered(Enter(s, t, job, base, b, mask), t, job, Some(Handle(base, b, mask)))
    ensures Enter(s, t, job, base, b, mask).sh == s.sh
  {
    hide Hash, And;
  }

  lemma JobTrace(s: State, t: Tid)
    requires Reachable(s) && Initialising(At(s, t))
    ensures TraceOk(At(s, t).job) && JobOk(s.sh, s.hist, t, At(s, t).job)
  {
    ReachableOk(s);
    JobKnown(s, t);
    hide Inv, Reachable;
  }

  // The loads and the compare-and-swap of the initialisation race.
  lemma RaceStep(s: State, t: Tid, pc: PC)
    requires Reachable(s) && At(s, t) == pc && Initialising(pc)
    ensures pc.LoadBase? ==>
              Steps(s, t, Go, s.sh, if s.sh.base.Some? then LoadBuckets(pc.job, s.sh.base.value) else MapPages(pc.job))
    ensures pc.LoadBuckets? ==> Steps(s, t, Go, s.sh, LoadMask(pc.job, pc.base, s.sh.buckets))
    ensures pc.CasBase? ==>
              if s.sh.base.None? then Steps(s, t, Go, s.sh.(base := Some(pc.mine)), StoreBuckets(pc.job, pc.mine, pc.n))
              else Steps(s, t, Go, s.sh, FreePages(pc.job, pc.mine, s.sh.base.value))
    ensures pc.StoreBuckets? ==> Steps(s, t, Go, s.sh.(buckets := pc.n), StoreMask(pc.job, pc.mine, pc.n))
    ensures pc.SpinBuckets? ==>
              Steps(s, t, Go, s.sh, if s.sh.buckets > 0 then SpinMask(pc.job, pc.other, s.sh.buckets) else pc)
  {
    hide Enter, GiveUp, ConfiguredBucketCount, Reachable;
  }

  // The last step of ensure_init: it returns a handle.
  lemma LastStep(s: State, t: Tid, pc: PC)
    requires Reachable(s) && At(s, t) == pc && (pc.LoadMask? || pc.SpinMask? || pc.StoreMask?)
    ensures var s' := Next(s, Label(t, Go));
            && (pc.StoreMask? ==>
                  && s'.sh == s.sh.(mask := MaskOf(pc.n))
                  && Entered(s', t, pc.job, Some(Handle(pc.mine, pc.n, MaskOf(pc.n)))))
            && (pc.LoadMask? ==>
                  s'.sh == s.sh && Entered(s', t, pc.job, Some(Handle(pc.base, pc.b, s.sh.mask))))
            && (pc.SpinMask? ==>
                  s'.sh == s.sh && Entered(s', t, pc.job, Some(Handle(pc.other, pc.b, s.sh.mask))))
  {
    JobTrace(s, t);
    if pc.StoreMask? {
      EnterGives(s.(sh := s.sh.(mask := MaskOf(pc.n))), t, pc.job, pc.mine, pc.n, MaskOf(pc.n));
    } else if pc.LoadMask? {
      EnterGives(s, t, pc.job, pc.base, pc.b, s.sh.mask);
    } else {
      EnterGives(s, t, pc.job, pc.other, pc.b, s.sh.mask);
    }
    hide Enter, Entered, Reachable, JobOk;
  }

  // Mapping pages, or failing to.
  lemma MapStep(s: State, t: Tid, job: Job, setting: Setting)
    requires Reachable(s) && At(s, t) == MapPages(job)
    ensures var n := ConfiguredBucketCount(setting);
            Steps(s, t, Map(setting, true), s.sh.(regions := s.sh.regions + [Region(seq(n, i => EMPTY), true)]),
                  CasBase(job, |s.sh.regions|, n))
    ensures var s' := Next(s, Label(t, Map(setting, false))); s'.sh == s.sh && Entered(s', t, job, None)
  {
    JobTrace(s, t);
    hide Enter, ConfiguredBucketCount, Reachable;
  }

  lemma FreeStep(s: State, t: Tid, job: Job, mine: nat, other: nat)
    requires Reachable(s) && At(s, t) == FreePages(job, mine, other)
    ensures mine < |s.sh.regions| && s.sh.regions[mine].live
    ensures Steps(s, t, Go, s.sh.(regions := s.sh.regions[mine := s.sh.regions[mine].(live := false)]),
                  SpinBuckets(job, other))
  {
    ReachableOk(s);
    JobKnown(s, t);
    hide Enter, ConfiguredBucketCount, Reachable, Inv, JobOk;
  }
}
