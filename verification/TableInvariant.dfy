/** The inductive invariant of the table machine, and the relation that says what one thread's step may change. */
module TableInvariant {
  import opened Wrappers
  import opened Words
  import opened FrameHash
  import opened StackWalk
  import opened TableSize
  import opened TableMachine

  // The table as an open-addressed map: where a hash may sit.

  function Home(h: u64, size: nat): (i: nat)
    requires size > 0
    ensures i < size
  {
    h % size
  }

  // Bucket i permanently holds a hash other than h.
  ghost predicate Other(table: seq<Bucket>, h: u64, i: nat)
    requires i < |table|
  {
    table[i].hash != 0 && table[i].hash != h
  }

  // Every bucket that a probe for h visits before slot holds another hash.
  ghost predicate Covered(table: seq<Bucket>, h: u64, slot: nat)
    requires slot < |table|
  {
    var home := Home(h, |table|);
    forall i: nat :: i < |table| && Distance(home, i, |table|) < Distance(home, slot, |table|) ==> Other(table, h, i)
  }

  ghost predicate AllOther(table: seq<Bucket>, h: u64) {
    forall i: nat :: i < |table| ==> Other(table, h, i)
  }

  // The first k frames of a trace, then zeros.
  ghost function Prefix(trace: Frames, k: nat): seq<u64>
    requires trace.Valid() && k <= MAX_FRAMES
  {
    Pad(trace.frames[..k])
  }

  ghost predicate CellOk(table: seq<Bucket>, events: seq<Event>, claims: map<nat, nat>, i: nat)
    requires i < |table|
  {
    match table[i]
    case Bucket(hash, count, bytes, frameCount, frames) =>
      && |frames| == MAX_FRAMES
      && count == Wrap(Tally(events, i))
      && bytes == Wrap(Sum(events, i))
      && (i in claims <==> hash != 0)
      && (hash == 0 ==> frameCount == 0 && frames == ZEROS)
      && (hash != 0 ==> claims[i] < |events| && ClaimedBy(table, events[claims[i]], i))
  }

  // Bucket i is held by the event that claimed it.
  ghost predicate ClaimedBy(table: seq<Bucket>, e: Event, i: nat)
    requires i < |table|
  {
    var c := table[i];
    && e.trace.Valid() && e.trace.count > 0 && e.Key() == c.hash
    && e.fate.Landed? && e.fate.slot == i && e.mask.Some?
    && (c.frameCount != 0 ==> Published(c, e))
    && (e.mask.value != 0 || i != 0 ==> Covered(table, c.hash, i))
  }

  ghost predicate Published(c: Bucket, e: Event)
    requires e.trace.Valid()
  {
    && c.frameCount == e.trace.count
    && c.frames == Prefix(e.trace, e.trace.count)
    && e.fate.Landed? && e.fate.counted && e.fate.summed
  }

  ghost predicate TableOk(table: seq<Bucket>, events: seq<Event>, claims: map<nat, nat>) {
    && (forall i: nat :: i < |table| ==> CellOk(table, events, claims, i))
    && (forall i :: i in claims ==> i < |table|)
  }

  ghost predicate EventOk(table: seq<Bucket>, e: Event) {
    && e.trace.Valid() && e.trace.count > 0
    && (e.mask.Some? ==> |table| > 0 && (e.mask.value == 0 || e.mask.value == |table| - 1))
    && match e.fate
       case Waiting => true
       case Unplaced => e.mask.None?
       case Dropped =>
         e.mask.Some? && if e.mask.value == 0 then Other(table, e.Key(), 0) else AllOther(table, e.Key())
       case Landed(slot, counted, summed) =>
         e.mask.Some? && slot < |table| && table[slot].hash == e.Key() && (summed ==> counted)
  }

  ghost predicate EventsOk(table: seq<Bucket>, events: seq<Event>) {
    forall k: nat :: k < |events| ==> EventOk(table, events[k])
  }

  ghost predicate SharedOk(sh: Shared) {
    && (sh.base.None? ==> sh.buckets == 0 && sh.mask == 0)
    && (sh.base.Some? ==>
          && sh.base.value < |sh.regions| && sh.regions[sh.base.value].live
          && GoodSize(|Table(sh)|)
          && (sh.buckets == 0 || sh.buckets == |Table(sh)|)
          && (sh.mask == 0 || (sh.mask == |Table(sh)| - 1 && sh.buckets != 0)))
  }

  // Regions that are not installed have never been written; none is freed before one is installed.
  ghost predicate RegionsOk(sh: Shared, owners: seq<Tid>) {
    && |owners| == |sh.regions|
    && (sh.base.None? ==> forall r: nat :: r < |sh.regions| ==> sh.regions[r].live)
    && forall r: nat :: r < |sh.regions| && sh.base != Some(r) ==> Untouched(sh.regions[r])
  }

  ghost predicate Untouched(r: Region) {
    GoodSize(|r.cells|) && forall i :: 0 <= i < |r.cells| ==> r.cells[i] == EMPTY
  }

  // Which event, which bucket and which region a thread is working on.

  function JobEvent(job: Job): Option<nat> {
    if job.RecordJob? then Some(job.ev) else None
  }

  function EventOf(pc: PC): Option<nat> {
    if pc.Idle? || Scanning(pc) then None
    else if Recording(pc) then Some(pc.p.ev)
    else JobEvent(pc.job)
  }

  function ClaimOf(pc: PC): Option<nat> {
    if pc.StoreFrame? || pc.ClaimCount? || pc.ClaimBytes? || pc.Publish? then Some(pc.p.idx) else None
  }

  function RegionOf(pc: PC): Option<nat> {
    if pc.CasBase? || pc.FreePages? then Some(pc.mine) else None
  }

  predicate Settled(f: Fate) {
    f.Unplaced? || f.Dropped? || (f.Landed? && f.counted && f.summed)
  }

  // Unfinished business is always in the hands of its owner.

  ghost predicate EventsLinked(s: State) {
    forall k: nat :: k < |s.hist.events| && !Settled(s.hist.events[k].fate) ==>
      EventOf(At(s, s.hist.events[k].owner)) == Some(k)
  }

  ghost predicate ClaimsLinked(s: State) {
    var table := Table(s.sh);
    forall i :: i in s.hist.claims && i < |table| && table[i].frameCount == 0 && s.hist.claims[i] < |s.hist.events| ==>
      ClaimOf(At(s, s.hist.events[s.hist.claims[i]].owner)) == Some(i)
  }

  ghost predicate RegionsLinked(s: State) {
    forall r: nat :: r < |s.sh.regions| && r < |s.hist.owners| && s.sh.regions[r].live && s.sh.base != Some(r) ==>
      RegionOf(At(s, s.hist.owners[r])) == Some(r)
  }

  // The thread that is about to store the bucket count or the mask.
  function WindowOf(pc: PC): Option<nat> {
    if pc.StoreBuckets? || pc.StoreMask? then Some(pc.mine) else None
  }

  // While the descriptor is only partly published, the thread that installed the region is about to publish the rest.
  ghost predicate WindowOpen(sh: Shared, pc: PC)
    requires sh.base.Some?
  {
    && (sh.buckets == 0 ==> pc.StoreBuckets? && pc.mine == sh.base.value)
    && (sh.buckets != 0 && sh.mask == 0 ==> pc.StoreMask? && pc.mine == sh.base.value)
  }

  ghost predicate WindowLinked(s: State) {
    s.sh.base.Some? && s.sh.base.value < |s.hist.owners| ==>
      WindowOpen(s.sh, At(s, s.hist.owners[s.sh.base.value]))
  }

  // What a thread knows at each program counter.

  ghost predicate EventIs(events: seq<Event>, t: Tid, ev: nat, trace: Frames, size: u64, mask: Option<nat>, fate: Fate) {
    && trace.Valid() && trace.count > 0
    && ev < |events| && events[ev] == Event(t, trace, size, mask, fate)
  }

  ghost predicate PastOk(sh: Shared, hist: Hist, since: Past) {
    var table := Table(sh);
    && (since.table != [] ==> sh.buckets != 0)
    && TableGrows(since.table, table)
    && EventsGrow(since.events, hist.events)
  }

  ghost predicate JobOk(sh: Shared, hist: Hist, t: Tid, job: Job) {
    match job
    case RecordJob(ev, trace, size) => EventIs(hist.events, t, ev, trace, size, None, Waiting)
    case ReportJob(since) => PastOk(sh, hist, since)
  }

  // A bucket count that was read: 0 or the size; the size if the table was published when the report began.
  ghost predicate CountOk(sh: Shared, job: Job, b: nat) {
    && (b == 0 || (b == |Table(sh)| && sh.buckets != 0))
    && (job.ReportJob? && job.since.table != [] ==> b == |Table(sh)|)
  }

  ghost predicate OwnRegion(sh: Shared, hist: Hist, t: Tid, r: nat) {
    && r < |sh.regions| && r < |hist.owners| && hist.owners[r] == t
    && sh.regions[r].live && sh.base != Some(r)
  }

  ghost predicate Installed(sh: Shared, hist: Hist, t: Tid, r: nat, n: nat) {
    sh.base == Some(r) && r < |hist.owners| && hist.owners[r] == t && n == |Table(sh)|
  }

  // The probe's fixed part, with the event in the given state.
  ghost predicate ProbeIs(sh: Shared, hist: Hist, t: Tid, p: Probe, fate: Fate) {
    match p
    case Probe(ev, trace, size, base, mask, h, _, idx) =>
      && EventIs(hist.events, t, ev, trace, size, Some(mask), fate)
      && sh.base == Some(base)
      && h == Hash(trace.frames, trace.count)
      && idx < |Table(sh)|
      && (mask == 0 || mask == |Table(sh)| - 1)
  }

  // Where a probe in progress is.
  ghost predicate Searching(sh: Shared, p: Probe) {
    var table := Table(sh);
    && p.idx < |table|
    && if p.mask == 0 then p.start == 0 && p.idx == 0 else p.start == Home(p.h, |table|) && Covered(table, p.h, p.idx)
  }

  ghost predicate Claiming(sh: Shared, hist: Hist, t: Tid, p: Probe, fate: Fate, k: nat) {
    var table := Table(sh);
    && ProbeIs(sh, hist, t, p, fate)
    && k <= p.trace.count
    && table[p.idx].hash == p.h && table[p.idx].frameCount == 0
    && table[p.idx].frames == Prefix(p.trace, k)
    && p.idx in hist.claims && hist.claims[p.idx] == p.ev
  }

  ghost predicate Hitting(sh: Shared, hist: Hist, t: Tid, p: Probe, fate: Fate) {
    && ProbeIs(sh, hist, t, p, fate)
    && Table(sh)[p.idx].hash == p.h
    && p.idx in hist.claims && hist.claims[p.idx] != p.ev
  }

  // Rows.

  ghost predicate FoundOk(table: seq<Bucket>, events: seq<Event>, since: Past, f: Found) {
    && f.slot < |table|
    && table[f.slot].hash != 0 && table[f.slot].frameCount != 0
    && f.row.frameCount == table[f.slot].frameCount
    && f.row.frames == table[f.slot].frames
    && f.row.count == Wrap(f.tally) && f.row.totalBytes == Wrap(f.sum)
    && 1 <= f.tally && Tally(since.events, f.slot) <= f.tally <= Tally(events, f.slot)
    && Sum(since.events, f.slot) <= f.sum <= Sum(events, f.slot)
  }

  ghost predicate Lists(found: seq<Found>, slot: nat) {
    exists k :: 0 <= k < |found| && found[k].slot == slot
  }

  // The rows found so far are those of buckets below limit: sound, in bucket order, and complete for what was
  // published when the report began.
  ghost predicate RowsOk(table: seq<Bucket>, events: seq<Event>, since: Past, found: seq<Found>, limit: nat) {
    && (forall k :: 0 <= k < |found| ==> FoundOk(table, events, since, found[k]) && found[k].slot < limit)
    && (forall j, k :: 0 <= j < k < |found| ==> found[j].slot < found[k].slot)
    && (forall i: nat :: i < limit && i < |since.table| && since.table[i].frameCount != 0 ==> Lists(found, i))
  }

  ghost predicate ScanOk(sh: Shared, hist: Hist, r: Scan) {
    var table := Table(sh);
    && PastOk(sh, hist, r.since)
    && sh.base == Some(r.base) && sh.buckets != 0 && r.buckets == |table| && r.i < |table|
    && RowsOk(table, hist.events, r.since, r.found, r.i)
  }

  // The scan has seen that its bucket is published, with n frames, of which it has read j.
  ghost predicate RowOpen(sh: Shared, r: Scan, n: nat, j: nat, frames: seq<u64>)
    requires r.i < |Table(sh)|
  {
    var c := Table(sh)[r.i];
    && c.hash != 0 && c.frameCount == n && 0 < n <= MAX_FRAMES && |c.frames| == MAX_FRAMES
    && j <= n && frames == Pad(c.frames[..j])
  }

  ghost predicate ThreadOk(sh: Shared, hist: Hist, t: Tid, pc: PC) {
    match pc
    case Idle => true
    case LoadBase(job) => JobOk(sh, hist, t, job)
    case MapPages(job) => JobOk(sh, hist, t, job) && (job.ReportJob? ==> job.since.table == [])
    case LoadBuckets(job, base) => JobOk(sh, hist, t, job) && sh.base == Some(base)
    case LoadMask(job, base, b) => JobOk(sh, hist, t, job) && sh.base == Some(base) && CountOk(sh, job, b)
    case CasBase(job, mine, n) =>
      JobOk(sh, hist, t, job) && OwnRegion(sh, hist, t, mine) && |sh.regions[mine].cells| == n
    case StoreBuckets(job, mine, n) => JobOk(sh, hist, t, job) && Installed(sh, hist, t, mine, n)
    case StoreMask(job, mine, n) => JobOk(sh, hist, t, job) && Installed(sh, hist, t, mine, n) && sh.buckets != 0
    case FreePages(job, mine, other) =>
      JobOk(sh, hist, t, job) && OwnRegion(sh, hist, t, mine) && sh.base == Some(other)
    case SpinBuckets(job, other) => JobOk(sh, hist, t, job) && sh.base == Some(other)
    case SpinMask(job, other, b) =>
      JobOk(sh, hist, t, job) && sh.base == Some(other) && b == |Table(sh)| && sh.buckets != 0
    case LoadHash(p) => ProbeIs(sh, hist, t, p, Waiting) && Searching(sh, p)
    case CasHash(p) => ProbeIs(sh, hist, t, p, Waiting) && Searching(sh, p)
    case StoreFrame(p, k) => Claiming(sh, hist, t, p, Landed(p.idx, false, false), k) && k < p.trace.count
    case ClaimCount(p) => Claiming(sh, hist, t, p, Landed(p.idx, false, false), p.trace.count)
    case ClaimBytes(p) => Claiming(sh, hist, t, p, Landed(p.idx, true, false), p.trace.count)
    case Publish(p) => Claiming(sh, hist, t, p, Landed(p.idx, true, true), p.trace.count)
    case HitCount(p) => Hitting(sh, hist, t, p, Landed(p.idx, false, false))
    case HitBytes(p) => Hitting(sh, hist, t, p, Landed(p.idx, true, false))
    case ScanHash(r) => ScanOk(sh, hist, r)
    case ScanFrameCount(r) => ScanOk(sh, hist, r) && Table(sh)[r.i].hash != 0
    case ScanFrame(r, n, j, frames) => ScanOk(sh, hist, r) && RowOpen(sh, r, n, j, frames) && j < n
    case ScanCount(r, n, frames) => ScanOk(sh, hist, r) && RowOpen(sh, r, n, n, frames)
    case ScanBytes(r, n, frames, count, tally) =>
      && ScanOk(sh, hist, r) && RowOpen(sh, r, n, n, frames)
      && count == Wrap(tally) && 1 <= tally
      && Tally(r.since.events, r.i) <= tally <= Tally(hist.events, r.i)
  }

  ghost predicate ThreadsOk(s: State) {
    forall t :: t in s.pcs ==> ThreadOk(s.sh, s.hist, t, s.pcs[t])
  }

  ghost predicate ReportOk(table: seq<Bucket>, events: seq<Event>, f: Finished) {
    && RowsOk(table, events, f.since, f.found, |table|) && |f.since.table| <= |table|
    && (table == [] ==> f.found == [])
  }

  ghost predicate ReportsOk(sh: Shared, hist: Hist) {
    forall k :: 0 <= k < |hist.reports| ==>
      ReportOk(Table(sh), hist.events, hist.reports[k]) && (hist.reports[k].found != [] ==> sh.buckets != 0)
  }

  ghost predicate DataOk(sh: Shared, hist: Hist) {
    match hist
    case Hist(events, claims, owners, _) =>
      SharedOk(sh) && RegionsOk(sh, owners) && TableOk(Table(sh), events, claims) && EventsOk(Table(sh), events)
  }

  ghost predicate Linked(s: State) {
    EventsLinked(s) && ClaimsLinked(s) && RegionsLinked(s) && WindowLinked(s)
  }

  /** The invariant. */
  ghost predicate Inv(s: State) {
    match s
    case State(sh, _, hist, fault) =>
      !fault && DataOk(sh, hist) && Linked(s) && ThreadsOk(s) && ReportsOk(sh, hist)
  }

  // How the shared state may evolve.

  ghost predicate CellGrows(c: Bucket, d: Bucket) {
    && (c.hash != 0 ==> d.hash == c.hash)
    && (c.frameCount != 0 ==> d.frameCount == c.frameCount && d.frames == c.frames)
  }

  ghost predicate TableGrows(a: seq<Bucket>, b: seq<Bucket>) {
    a == [] || (|a| == |b| && forall i :: 0 <= i < |a| ==> CellGrows(a[i], b[i]))
  }

  ghost predicate FateGrows(f: Fate, g: Fate) {
    match f
    case Waiting => true
    case Unplaced => g == f
    case Dropped => g == f
    case Landed(slot, counted, summed) =>
      g.Landed? && g.slot == slot && (counted ==> g.counted) && (summed ==> g.summed)
  }

  ghost predicate EventGrows(a: Event, b: Event) {
    && b.owner == a.owner && b.trace == a.trace && b.size == a.size
    && (a.mask.Some? ==> b.mask == a.mask)
    && FateGrows(a.fate, b.fate)
  }

  ghost predicate EventsGrow(a: seq<Event>, b: seq<Event>) {
    |a| <= |b| && forall k :: 0 <= k < |a| ==> EventGrows(a[k], b[k])
  }

  /** What never changes back, over one step or a whole run. */
  ghost predicate Later(s: State, s': State) {
    && (s.sh.base.Some? ==> s'.sh.base == s.sh.base)
    && (s.sh.buckets != 0 ==> s'.sh.buckets == s.sh.buckets)
    && (s.sh.mask != 0 ==> s'.sh.mask == s.sh.mask)
    && TableGrows(Table(s.sh), Table(s'.sh))
    && EventsGrow(s.hist.events, s'.hist.events)
    && s.hist.reports <= s'.hist.reports
  }

  /** What a step of thread t leaves to the other threads. */
  ghost predicate Spares(s: State, s': State, t: Tid) {
    var h, h' := s.hist, s'.hist;
    && (forall k: nat :: k < |h.events| && k < |h'.events| && h.events[k].owner != t ==> h'.events[k] == h.events[k])
    && (forall k: nat :: |h.events| <= k < |h'.events| ==> h'.events[k].owner == t)
    && (forall i :: i in h.claims ==> i in h'.claims && h'.claims[i] == h.claims[i])
    && (forall i :: i in h'.claims && i !in h.claims && h'.claims[i] < |h'.events| ==>
          h'.events[h'.claims[i]].owner == t)
    && (forall i :: i in h.claims && i < |Table(s.sh)| && i < |Table(s'.sh)| && h.claims[i] < |h.events| &&
                    h.events[h.claims[i]].owner != t ==>
          Table(s'.sh)[i].frameCount == Table(s.sh)[i].frameCount && Table(s'.sh)[i].frames == Table(s.sh)[i].frames)
    && |h.owners| <= |h'.owners| && |s.sh.regions| <= |s'.sh.regions|
    && (forall r: nat :: r < |h.owners| ==> h'.owners[r] == h.owners[r])
    && (forall r: nat :: |h.owners| <= r < |h'.owners| ==> h'.owners[r] == t)
    && (forall r: nat :: r < |h.owners| && r < |s.sh.regions| && h.owners[r] != t && s.sh.base != Some(r) ==>
          s'.sh.regions[r] == s.sh.regions[r] && s'.sh.base != Some(r))
    && (s'.sh.base.Some? && s'.sh.base.value < |h'.owners| && h'.owners[s'.sh.base.value] != t ==>
          s'.sh.base == s.sh.base && s'.sh.buckets == s.sh.buckets && s'.sh.mask == s.sh.mask)
    && (forall u :: u != t ==> At(s', u) == At(s, u))
  }

  ghost predicate Evolves(s: State, s': State, t: Tid) {
    Later(s, s') && Spares(s, s', t)
  }

  // Tallies.

  lemma {:induction false} TallyPut(events: seq<Event>, k: nat, e: Event, slot: nat)
    requires k < |events|
    ensures Tally(events[k := e], slot) == Tally(events, slot) - Counted(events[k], slot) + Counted(e, slot)
    ensures Sum(events[k := e], slot) == Sum(events, slot) - Summed(events[k], slot) + Summed(e, slot)
    decreases |events|
  {
    var n := |events| - 1;
    var put := events[k := e];
    if k < n {
      TallyPut(events[..n], k, e, slot);
      assert put[..n] == events[..n][k := e];
    } else {
      assert put[..n] == events[..n];
    }
  }

  lemma TallyAppend(events: seq<Event>, e: Event, slot: nat)
    ensures Tally(events + [e], slot) == Tally(events, slot) + Counted(e, slot)
    ensures Sum(events + [e], slot) == Sum(events, slot) + Summed(e, slot)
  {
    assert (events + [e])[..|events|] == events;
  }

  lemma {:induction false} TallyGrows(a: seq<Event>, b: seq<Event>, slot: nat)
    requires EventsGrow(a, b)
    ensures Tally(a, slot) <= Tally(b, slot) && Sum(a, slot) <= Sum(b, slot)
    decreases |b|
  {
    if b != [] {
      var n := |b| - 1;
      if |a| == |b| {
        TallyGrows(a[..n], b[..n], slot);
        assert EventGrows(a[n], b[n]);
      } else {
        TallyGrows(a, b[..n], slot);
      }
    }
  }

  lemma {:induction false} TallyOne(events: seq<Event>, k: nat, slot: nat)
    requires k < |events| && Counted(events[k], slot) == 1
    ensures Tally(events, slot) >= 1
    decreases |events|
  {
    if k < |events| - 1 {
      TallyOne(events[..|events| - 1], k, slot);
    }
  }

  lemma {:induction false} TallyZero(events: seq<Event>, slot: nat)
    requires forall k :: 0 <= k < |events| ==> !events[k].fate.Landed? || events[k].fate.slot != slot
    ensures Tally(events, slot) == 0 && Sum(events, slot) == 0
  {
    if events != [] {
      TallyZero(events[..|events| - 1], slot);
    }
  }
}
