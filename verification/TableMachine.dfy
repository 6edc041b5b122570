/**
 The call-site table as a step machine. One step is one atomic operation (or one call into the page allocator) of one
 thread; any number of threads, each with its own program counter, interleave their steps in any order. Atomic
 operations take effect in program order.

 The state has the shared memory the program has, the threads' program counters with their local variables, and a
 history that no step reads: the list of recorded events with what became of each, who claimed which bucket, who mapped
 which region, and what finished reports returned. An access outside a live region sets the fault flag.
 */
module TableMachine {
  import opened Wrappers
  import opened Words
  import opened FrameHash
  import opened StackWalk
  import opened TableSize

  type Tid = nat

  // Shared memory.

  datatype Bucket = Bucket(hash: u64, count: u64, bytes: u64, frameCount: u64, frames: seq<u64>)

  const EMPTY := Bucket(0, 0, 0, 0, ZEROS)

  datatype Region = Region(cells: seq<Bucket>, live: bool)

  datatype Shared = Shared(base: Option<nat>, buckets: nat, mask: nat, regions: seq<Region>)

  // History.

  datatype Fate =
    | Waiting
    | Unplaced
    | Dropped
    | Landed(slot: nat, counted: bool, summed: bool)

  datatype Event = Event(owner: Tid, trace: Frames, size: u64, mask: Option<nat>, fate: Fate) {
    function Key(): (h: u64)
      requires trace.Valid()
      ensures h != 0
    {
      Hash(trace.frames, trace.count)
    }
  }

  datatype CallSiteStats = CallSiteStats(frames: seq<u64>, frameCount: nat, count: u64, totalBytes: u64)

  // A row of a report, with the bucket it was read from and how many events and bytes had been added when it was read.
  datatype Found = Found(slot: nat, row: CallSiteStats, tally: nat, sum: nat)

  // The published table and the events at the start of a report.
  datatype Past = Past(table: seq<Bucket>, events: seq<Event>)

  datatype Finished = Finished(since: Past, found: seq<Found>)

  datatype Hist = Hist(events: seq<Event>, claims: map<nat, nat>, owners: seq<Tid>, reports: seq<Finished>)

  // Program counters.

  datatype Job = RecordJob(ev: nat, trace: Frames, size: u64) | ReportJob(since: Past)

  datatype Probe = Probe(ev: nat, trace: Frames, size: u64, base: nat, mask: nat, h: u64, start: nat, idx: nat)

  datatype Scan = Scan(since: Past, base: nat, buckets: nat, i: nat, found: seq<Found>)

  datatype PC =
    | Idle
      // Initialisation.
    | LoadBase(job: Job)
    | LoadBuckets(job: Job, base: nat)
    | LoadMask(job: Job, base: nat, b: nat)
    | MapPages(job: Job)
    | CasBase(job: Job, mine: nat, n: nat)
    | StoreBuckets(job: Job, mine: nat, n: nat)
    | StoreMask(job: Job, mine: nat, n: nat)
    | FreePages(job: Job, mine: nat, other: nat)
    | SpinBuckets(job: Job, other: nat)
    | SpinMask(job: Job, other: nat, b: nat)
      // Recording.
    | LoadHash(p: Probe)
    | CasHash(p: Probe)
    | StoreFrame(p: Probe, k: nat)
    | ClaimCount(p: Probe)
    | ClaimBytes(p: Probe)
    | Publish(p: Probe)
    | HitCount(p: Probe)
    | HitBytes(p: Probe)
      // Reporting.
    | ScanHash(r: Scan)
    | ScanFrameCount(r: Scan)
    | ScanFrame(r: Scan, n: nat, j: nat, frames: seq<u64>)
    | ScanCount(r: Scan, n: nat, frames: seq<u64>)
    | ScanBytes(r: Scan, n: nat, frames: seq<u64>, count: u64, tally: nat)

  datatype State = State(sh: Shared, pcs: map<Tid, PC>, hist: Hist, fault: bool)

  /** What a thread does next: start a call, or take its next step; mapping pages may fail. */
  datatype Act =
    | Record(trace: Frames, size: u64)
    | Report
    | Map(setting: Setting, ok: bool)
    | Go

  datatype Label = Label(t: Tid, act: Act)

  function Init(): State {
    State(Shared(None, 0, 0, []), map[], Hist([], map[], [], []), false)
  }

  function At(s: State, t: Tid): PC {
    if t in s.pcs then s.pcs[t] else Idle
  }

  function Goto(s: State, t: Tid, pc: PC): State {
    s.(pcs := s.pcs[t := pc])
  }

  // The cells of the installed region.
  function Table(sh: Shared): seq<Bucket> {
    if sh.base.Some? && sh.base.value < |sh.regions| then sh.regions[sh.base.value].cells else []
  }

  // An access to cell i of region r is good when the region is mapped and i is inside it.
  predicate Accessible(sh: Shared, r: nat, i: nat) {
    r < |sh.regions| && sh.regions[r].live && i < |sh.regions[r].cells|
  }

  function CellAt(sh: Shared, r: nat, i: nat): Bucket
    requires Accessible(sh, r, i)
  {
    sh.regions[r].cells[i]
  }

  function PutCell(sh: Shared, r: nat, i: nat, c: Bucket): Shared
    requires Accessible(sh, r, i)
  {
    var region := sh.regions[r];
    sh.(regions := sh.regions[r := region.(cells := region.cells[i := c])])
  }

  // How many of the events have added to the count of a bucket, and how many bytes they have added.

  function Counted(e: Event, slot: nat): nat {
    if e.fate.Landed? && e.fate.slot == slot && e.fate.counted then 1 else 0
  }

  function Summed(e: Event, slot: nat): nat {
    if e.fate.Landed? && e.fate.slot == slot && e.fate.summed then e.size else 0
  }

  function Tally(events: seq<Event>, slot: nat): nat {
    if events == [] then 0 else Tally(events[..|events| - 1], slot) + Counted(events[|events| - 1], slot)
  }

  function Sum(events: seq<Event>, slot: nat): nat {
    if events == [] then 0 else Sum(events[..|events| - 1], slot) + Summed(events[|events| - 1], slot)
  }

  // History updates.

  function SetFate(s: State, ev: nat, fate: Fate): State {
    if ev < |s.hist.events| then
      s.(hist := s.hist.(events := s.hist.events[ev := s.hist.events[ev].(fate := fate)]))
    else s
  }

  function SetMask(s: State, ev: nat, mask: nat): State {
    if ev < |s.hist.events| then
      s.(hist := s.hist.(events := s.hist.events[ev := s.hist.events[ev].(mask := Some(mask))]))
    else s
  }

  function Finish(s: State, t: Tid, since: Past, found: seq<Found>): State {
    Goto(s.(hist := s.hist.(reports := s.hist.reports + [Finished(since, found)])), t, Idle)
  }

  function Fault(s: State, t: Tid): State {
    Goto(s.(fault := true), t, Idle)
  }

  // Calls.

  function Start(s: State, t: Tid, act: Act): State {
    match act
    case Record(trace, size) =>
      // A trace with no frames is skipped before the table is looked at.
      if !trace.Valid() || trace.count == 0 then s
      else
        var ev := |s.hist.events|;
        var e := Event(t, trace, size, None, Waiting);
        Goto(s.(hist := s.hist.(events := s.hist.events + [e])), t, LoadBase(RecordJob(ev, trace, size)))
    case Report =>
      var table := if s.sh.buckets == 0 then [] else Table(s.sh);
      Goto(s, t, LoadBase(ReportJob(Past(table, s.hist.events))))
    case _ => s
  }

  // The table was obtained: start probing at the home slot, or scanning at bucket 0.
  function Enter(s: State, t: Tid, job: Job, base: nat, b: nat, mask: nat): State {
    match job
    case RecordJob(ev, trace, size) =>
      if !trace.Valid() then s
      else
        var h := Hash(trace.frames, trace.count);
        var idx := And(h, mask);
        Goto(SetMask(s, ev, mask), t, LoadHash(Probe(ev, trace, size, base, mask, h, idx, idx)))
    case ReportJob(since) =>
      if b == 0 then Finish(s, t, since, []) else Goto(s, t, ScanHash(Scan(since, base, b, 0, [])))
  }

  // No table could be mapped.
  function GiveUp(s: State, t: Tid, job: Job): State {
    match job
    case RecordJob(ev, _, _) => Goto(SetFate(s, ev, Unplaced), t, Idle)
    case ReportJob(since) => Finish(s, t, since, [])
  }

  // Sizes are never 0.
  function MaskOf(n: nat): nat {
    if n == 0 then 0 else n - 1
  }

  // ensure_init and ensure_init_slow.
  function InitStep(s: State, t: Tid, pc: PC, act: Act): State {
    match pc
    case LoadBase(job) =>
      if s.sh.base.Some? then Goto(s, t, LoadBuckets(job, s.sh.base.value)) else Goto(s, t, MapPages(job))
    case LoadBuckets(job, base) => Goto(s, t, LoadMask(job, base, s.sh.buckets))
    case LoadMask(job, base, b) => Enter(s, t, job, base, b, s.sh.mask)
    case MapPages(job) =>
      if !act.Map? then s
      else if !act.ok then GiveUp(s, t, job)
      else
        var n := ConfiguredBucketCount(act.setting);
        var mine := |s.sh.regions|;
        var zeroed := Region(seq(n, i => EMPTY), true);
        var s1 := s.(sh := s.sh.(regions := s.sh.regions + [zeroed]), hist := s.hist.(owners := s.hist.owners + [t]));
        Goto(s1, t, CasBase(job, mine, n))
    case CasBase(job, mine, n) =>
      if s.sh.base.None? then Goto(s.(sh := s.sh.(base := Some(mine))), t, StoreBuckets(job, mine, n))
      else Goto(s, t, FreePages(job, mine, s.sh.base.value))
    case StoreBuckets(job, mine, n) => Goto(s.(sh := s.sh.(buckets := n)), t, StoreMask(job, mine, n))
    case StoreMask(job, mine, n) =>
      Enter(s.(sh := s.sh.(mask := MaskOf(n))), t, job, mine, n, MaskOf(n))
    case FreePages(job, mine, other) =>
      if mine < |s.sh.regions| && s.sh.regions[mine].live then
        var freed := s.sh.regions[mine].(live := false);
        Goto(s.(sh := s.sh.(regions := s.sh.regions[mine := freed])), t, SpinBuckets(job, other))
      else Fault(s, t)
    case SpinBuckets(job, other) => if s.sh.buckets > 0 then Goto(s, t, SpinMask(job, other, s.sh.buckets)) else s
    case SpinMask(job, other, b) => Enter(s, t, job, other, b, s.sh.mask)
    case _ => s
  }

  // The slot did not match: go to the next one, or drop the event when the probe is back where it started.
  function Advance(s: State, t: Tid, p: Probe): State {
    var idx := And(p.idx + 1, p.mask);
    if idx == p.start then Goto(SetFate(s, p.ev, Dropped), t, Idle) else Goto(s, t, LoadHash(p.(idx := idx)))
  }

  // The slot holds this hash.
  function Hit(s: State, t: Tid, p: Probe): State {
    Goto(SetFate(s, p.ev, Landed(p.idx, false, false)), t, HitCount(p))
  }

  function Claim(s: State, t: Tid, p: Probe, c: Bucket): State
    requires Accessible(s.sh, p.base, p.idx)
  {
    var s1 := SetFate(s, p.ev, Landed(p.idx, false, false));
    var s2 := s1.(sh := PutCell(s.sh, p.base, p.idx, c.(hash := p.h)),
                  hist := s1.hist.(claims := s1.hist.claims[p.idx := p.ev]));
    Goto(s2, t, StoreFrame(p, 0))
  }

  function AddCount(s: State, p: Probe, c: Bucket): State
    requires Accessible(s.sh, p.base, p.idx)
  {
    var s1 := SetFate(s, p.ev, Landed(p.idx, true, false));
    s1.(sh := PutCell(s.sh, p.base, p.idx, c.(count := Wrap(c.count + 1))))
  }

  function AddBytes(s: State, p: Probe, c: Bucket): State
    requires Accessible(s.sh, p.base, p.idx)
  {
    var s1 := SetFate(s, p.ev, Landed(p.idx, true, true));
    s1.(sh := PutCell(s.sh, p.base, p.idx, c.(bytes := Wrap(c.bytes + p.size))))
  }

  // The body of record, from the probe loop on.
  function RecordStep(s: State, t: Tid, pc: PC, p: Probe, c: Bucket): State
    requires Accessible(s.sh, p.base, p.idx)
  {
    match pc
    case LoadHash(_) =>
      if c.hash == 0 then Goto(s, t, CasHash(p)) else if c.hash == p.h then Hit(s, t, p) else Advance(s, t, p)
    case CasHash(_) =>
      if c.hash == 0 then Claim(s, t, p, c) else if c.hash == p.h then Hit(s, t, p) else Advance(s, t, p)
    case StoreFrame(_, k) =>
      if k < p.trace.count && k < |p.trace.frames| && k < |c.frames| then
        var stored := c.(frames := c.frames[k := p.trace.frames[k]]);
        var next := if k + 1 < p.trace.count then StoreFrame(p, k + 1) else ClaimCount(p);
        Goto(s.(sh := PutCell(s.sh, p.base, p.idx, stored)), t, next)
      else Fault(s, t)
    case ClaimCount(_) => Goto(AddCount(s, p, c), t, ClaimBytes(p))
    case ClaimBytes(_) => Goto(AddBytes(s, p, c), t, Publish(p))
    case Publish(_) =>
      Goto(s.(sh := PutCell(s.sh, p.base, p.idx, c.(frameCount := Wrap(p.trace.count)))), t, Idle)
    case HitCount(_) => Goto(AddCount(s, p, c), t, HitBytes(p))
    case HitBytes(_) => Goto(AddBytes(s, p, c), t, Idle)
    case _ => s
  }

  // Go on to the next bucket of the report.
  function ScanOn(s: State, t: Tid, r: Scan): State {
    if r.i + 1 < r.buckets then Goto(s, t, ScanHash(r.(i := r.i + 1))) else Finish(s, t, r.since, r.found)
  }

  // The body of call_sites_report, from the loop over the buckets on.
  function ScanStep(s: State, t: Tid, pc: PC, r: Scan, c: Bucket): State
    requires Accessible(s.sh, r.base, r.i)
  {
    match pc
    case ScanHash(_) => if c.hash == 0 then ScanOn(s, t, r) else Goto(s, t, ScanFrameCount(r))
    case ScanFrameCount(_) =>
      if c.frameCount == 0 then ScanOn(s, t, r)
      else Goto(s, t, ScanFrame(r, Clamp8(c.frameCount), 0, ZEROS))
    case ScanFrame(_, n, j, frames) =>
      if j < n && j < |frames| && j < |c.frames| then
        var read := frames[j := c.frames[j]];
        Goto(s, t, if j + 1 < n then ScanFrame(r, n, j + 1, read) else ScanCount(r, n, read))
      else Fault(s, t)
    case ScanCount(_, n, frames) => Goto(s, t, ScanBytes(r, n, frames, c.count, Tally(s.hist.events, r.i)))
    case ScanBytes(_, n, frames, count, tally) =>
      var row := CallSiteStats(frames, n, count, c.bytes);
      var found := r.found + [Found(r.i, row, tally, Sum(s.hist.events, r.i))];
      ScanOn(s, t, r.(found := found))
    case _ => s
  }

  predicate Recording(pc: PC) {
    pc.LoadHash? || pc.CasHash? || pc.StoreFrame? || pc.ClaimCount? || pc.ClaimBytes? || pc.Publish? ||
    pc.HitCount? || pc.HitBytes?
  }

  predicate Scanning(pc: PC) {
    pc.ScanHash? || pc.ScanFrameCount? || pc.ScanFrame? || pc.ScanCount? || pc.ScanBytes?
  }

  /** One step of thread l.t. A label that does not fit the thread's program counter changes nothing. */
  function Next(s: State, l: Label): State {
    var pc := At(s, l.t);
    if pc.Idle? then Start(s, l.t, l.act)
    else if pc.MapPages? then InitStep(s, l.t, pc, l.act)
    else if !l.act.Go? then s
    else if Recording(pc) then
      if Accessible(s.sh, pc.p.base, pc.p.idx) then
        RecordStep(s, l.t, pc, pc.p, CellAt(s.sh, pc.p.base, pc.p.idx))
      else Fault(s, l.t)
    else if Scanning(pc) then
      if Accessible(s.sh, pc.r.base, pc.r.i) then
        ScanStep(s, l.t, pc, pc.r, CellAt(s.sh, pc.r.base, pc.r.i))
      else Fault(s, l.t)
    else InitStep(s, l.t, pc, l.act)
  }

  /** A run: any finite sequence of steps, by any threads in any order. */
  function Run(s: State, labels: seq<Label>): State {
    if labels == [] then s else Next(Run(s, labels[..|labels| - 1]), labels[|labels| - 1])
  }

  // No call is in progress.
  ghost predicate Quiescent(s: State) {
    forall t :: t in s.pcs ==> s.pcs[t] == Idle
  }
}
