/** Calls finish: no thread can be held up by the others, except while it waits for the descriptor to be published. */
module TableProgress {
  import opened Words
  import opened FrameHash
  import opened StackWalk
  import opened TableSize
  import opened TableMachine
  import opened TableInvariant
  import opened TablePreserve
  import opened TableRecordSteps
  import opened TableScanSteps
  import opened TableInitSteps
  import opened TableReports

  // More than any probe or scan takes.
  const LONGEST := 13 * MAX_BUCKETS + 20

  function ProbeLeft(p: Probe): int {
    var span := p.mask + 1;
    if p.start < span && p.idx < span then 2 * (span - Distance(p.start, p.idx, span)) + 12 else 0
  }

  function ScanLeft(r: Scan): int {
    13 * (r.buckets - r.i)
  }

  // An upper bound on the steps a thread still has to take, from its program counter alone.
  function StepsLeft(pc: PC): int {
    match pc
    case Idle => 0
    case LoadBase(_) => LONGEST + 7
    case LoadBuckets(_, _) => LONGEST + 2
    case LoadMask(_, _, _) => LONGEST + 1
    case MapPages(_) => LONGEST + 6
    case CasBase(_, _, _) => LONGEST + 5
    case StoreBuckets(_, _, _) => LONGEST + 2
    case StoreMask(_, _, _) => LONGEST + 1
    case FreePages(_, _, _) => LONGEST + 3
    case SpinBuckets(_, _) => LONGEST + 2
    case SpinMask(_, _, _) => LONGEST + 1
    case LoadHash(p) => ProbeLeft(p) + 1
    case CasHash(p) => ProbeLeft(p)
    case StoreFrame(p, k) => p.trace.count - k + 3
    case ClaimCount(_) => 3
    case ClaimBytes(_) => 2
    case Publish(_) => 1
    case HitCount(_) => 2
    case HitBytes(_) => 1
    case ScanHash(r) => ScanLeft(r)
    case ScanFrameCount(r) => ScanLeft(r) - 1
    case ScanFrame(r, _, j, _) => ScanLeft(r) - 2 - j
    case ScanCount(r, _, _) => ScanLeft(r) - 10
    case ScanBytes(r, _, _, _, _) => ScanLeft(r) - 11
  }

  // The label makes its thread take a step: a call is in progress, and the thread is not waiting for the descriptor.
  ghost predicate Effective(s: State, l: Label) {
    var pc := At(s, l.t);
    && !pc.Idle?
    && (if pc.MapPages? then l.act.Map? else l.act.Go?)
    && !(pc.SpinBuckets? && s.sh.buckets == 0)
  }

  lemma AdvanceLess(s: State, t: Tid, p: Probe)
    requires SharedOk(s.sh) && ProbeIs(s.sh, s.hist, t, p, Waiting) && Searching(s.sh, p)
    ensures 0 <= StepsLeft(At(Advance(s, t, p), t)) < ProbeLeft(p) && 12 <= ProbeLeft(p) && p.trace.count <= MAX_FRAMES
  {
    var n := |Table(s.sh)|;
    Masked(p.idx + 1, p.mask, n);
    NextIndex(p.idx, n);
    hide And, Covered, Hash;
  }

  // A slot was looked at: the probe stops, or goes on from a bound that has shrunk.
  lemma LookLess(s: State, t: Tid, pc: PC, p: Probe, left: int)
    requires (pc == LoadHash(p) || pc == CasHash(p)) && Accessible(s.sh, p.base, p.idx)
    requires 0 <= StepsLeft(At(Advance(s, t, p), t)) < left && 12 <= left && ProbeLeft(p) == left
    requires 0 < p.trace.count <= MAX_FRAMES
    ensures 0 <= StepsLeft(At(RecordStep(s, t, pc, p, CellAt(s.sh, p.base, p.idx)), t)) < StepsLeft(pc)
  {
    hide Advance, Table, CellAt, PutCell, Accessible, ProbeLeft;
  }

  lemma SearchLess(s: State, t: Tid, pc: PC, p: Probe)
    requires SharedOk(s.sh) && ThreadOk(s.sh, s.hist, t, pc) && (pc == LoadHash(p) || pc == CasHash(p))
    requires Accessible(s.sh, p.base, p.idx)
    ensures 0 <= StepsLeft(At(RecordStep(s, t, pc, p, CellAt(s.sh, p.base, p.idx)), t)) < StepsLeft(pc)
  {
    assert ProbeIs(s.sh, s.hist, t, p, Waiting) && Searching(s.sh, p);
    assert 0 < p.trace.count;
    hide *;
    AdvanceLess(s, t, p);
    LookLess(s, t, pc, p, ProbeLeft(p));
  }

  lemma HoldLess(s: State, t: Tid, pc: PC, p: Probe)
    requires ThreadOk(s.sh, s.hist, t, pc) && Recording(pc) && pc.p == p && !pc.LoadHash? && !pc.CasHash?
    requires Accessible(s.sh, p.base, p.idx) && OwnWrite(s, t, p)
    ensures 0 <= StepsLeft(At(RecordStep(s, t, pc, p, CellAt(s.sh, p.base, p.idx)), t)) < StepsLeft(pc)
  {
    hide OwnWrite, Hash, Pad;
  }

  lemma ScanLess(s: State, t: Tid, pc: PC, r: Scan)
    requires ThreadOk(s.sh, s.hist, t, pc) && Scanning(pc) && pc.r == r && Accessible(s.sh, r.base, r.i)
    requires ScanOk(s.sh, s.hist, r)
    ensures 0 <= StepsLeft(At(ScanStep(s, t, pc, r, CellAt(s.sh, r.base, r.i)), t)) < StepsLeft(pc)
  {
    hide RowsOk, PastOk, Tally, Sum, Pad, Table, CellAt, Accessible;
  }

  lemma EnterLess(s: State, t: Tid, job: Job, base: nat, b: nat, mask: nat)
    requires b <= MAX_BUCKETS && mask < MAX_BUCKETS
    requires job.RecordJob? ==> mask == 0 || exists n :: GoodSize(n) && mask == n - 1
    ensures 0 <= StepsLeft(At(Enter(s, t, job, base, b, mask), t)) <= LONGEST || !TraceOk(job)
  {
    if job.RecordJob? && job.trace.Valid() {
      var h := Hash(job.trace.frames, job.trace.count);
      var n := if mask == 0 then MIN_BUCKETS else mask + 1;
      if mask == 0 {
        Limits();
      }
      Masked(h, mask, n);
    }
    hide And, Hash;
  }

  predicate TraceOk(job: Job) {
    job.RecordJob? ==> job.trace.Valid()
  }

  // The last step of the initialisation, into the probe or the scan.
  lemma LastLess(s: State, l: Label)
    requires Inv(s) && Initialising(At(s, l.t)) && Effective(s, l)
    requires At(s, l.t).LoadMask? || At(s, l.t).SpinMask? || At(s, l.t).StoreMask?
    ensures 0 <= StepsLeft(At(InitStep(s, l.t, At(s, l.t), l.act), l.t)) < StepsLeft(At(s, l.t))
  {
    var t, pc := l.t, At(s, l.t);
    JobKnown(s, t);
    DataIs(s);
    assert TraceOk(pc.job);
    if pc.LoadMask? {
      LastLoadKnows(s, t, pc);
      EnterLess(s, t, pc.job, pc.base, pc.b, s.sh.mask);
    } else if pc.SpinMask? {
      LastLoadKnows(s, t, pc);
      EnterLess(s, t, pc.job, pc.other, pc.b, s.sh.mask);
    } else {
      EnterLess(s.(sh := s.sh.(mask := MaskOf(pc.n))), t, pc.job, pc.mine, pc.n, MaskOf(pc.n));
    }
    hide Inv, Enter, DataOk, JobOk, ConfiguredBucketCount;
  }

  // A step that stays within the initialisation, or gives up.
  lemma RaceLess(s: State, l: Label)
    requires Initialising(At(s, l.t)) && Effective(s, l)
    requires !At(s, l.t).LoadMask? && !At(s, l.t).SpinMask? && !At(s, l.t).StoreMask?
    ensures 0 <= StepsLeft(At(InitStep(s, l.t, At(s, l.t), l.act), l.t)) < StepsLeft(At(s, l.t))
  {
    hide Enter, ConfiguredBucketCount;
  }

  lemma InitLess(s: State, l: Label)
    requires Inv(s) && Initialising(At(s, l.t)) && Effective(s, l)
    ensures 0 <= StepsLeft(At(InitStep(s, l.t, At(s, l.t), l.act), l.t)) < StepsLeft(At(s, l.t))
  {
    hide *;
    if At(s, l.t).LoadMask? || At(s, l.t).SpinMask? || At(s, l.t).StoreMask? {
      LastLess(s, l);
    } else {
      RaceLess(s, l);
    }
  }

  /** A step of a thread shortens what is left of its call, whatever the other threads have done in the meantime. */
  lemma StepShortens(s: State, l: Label)
    requires Inv(s) && Effective(s, l)
    ensures 0 <= StepsLeft(At(Next(s, l), l.t)) < StepsLeft(At(s, l.t))
  {
    var t, pc := l.t, At(s, l.t);
    DataIs(s);
    if Recording(pc) {
      RecordingAccess(s, t, pc.p);
      if pc.LoadHash? || pc.CasHash? {
        SearchLess(s, t, pc, pc.p);
      } else {
        OwnsWrite(s, t, pc.p, pc);
        HoldLess(s, t, pc, pc.p);
      }
    } else if Scanning(pc) {
      ScanningKnows(s, t, pc.r);
      ScanLess(s, t, pc, pc.r);
    } else {
      InitLess(s, l);
    }
    hide RecordStep, ScanStep, InitStep, Inv, DataOk;
  }

  lemma RecordingBounded(sh: Shared, hist: Hist, t: Tid, pc: PC)
    requires SharedOk(sh) && ThreadOk(sh, hist, t, pc) && Recording(pc)
    ensures 0 <= StepsLeft(pc) <= LONGEST
  {
    hide Covered, Hash, Pad, Other;
  }

  lemma ScanningBounded(sh: Shared, hist: Hist, t: Tid, pc: PC)
    requires SharedOk(sh) && ThreadOk(sh, hist, t, pc) && Scanning(pc)
    ensures 0 <= StepsLeft(pc) <= LONGEST
  {
    hide RowsOk, PastOk, Pad, Tally;
  }

  lemma StepsLeftBounded(s: State, t: Tid)
    requires Inv(s)
    ensures 0 <= StepsLeft(At(s, t)) <= LONGEST + 7
  {
    var pc := At(s, t);
    DataIs(s);
    assert ThreadOk(s.sh, s.hist, t, pc);
    hide Inv, ThreadOk, SharedOk, DataOk, ProbeLeft, ScanLeft;
    if Recording(pc) {
      RecordingBounded(s.sh, s.hist, t, pc);
    } else if Scanning(pc) {
      ScanningBounded(s.sh, s.hist, t, pc);
    }
  }

  function OwnSteps(labels: seq<Label>, t: Tid): nat {
    if labels == [] then 0
    else OwnSteps(labels[..|labels| - 1], t) + if labels[|labels| - 1].t == t then 1 else 0
  }

  // All steps the thread takes are effective.
  ghost predicate AllEffective(s: State, labels: seq<Label>, t: Tid) {
    forall n :: 0 <= n < |labels| && labels[n].t == t ==> Effective(Run(s, labels[..n]), labels[n])
  }

  lemma EffectiveBefore(s: State, labels: seq<Label>, t: Tid)
    requires labels != [] && AllEffective(s, labels, t)
    ensures var n := |labels| - 1;
            && AllEffective(s, labels[..n], t) && Run(s, labels) == Next(Run(s, labels[..n]), labels[n])
            && (labels[n].t == t ==> Effective(Run(s, labels[..n]), labels[n]))
            && OwnSteps(labels, t) == OwnSteps(labels[..n], t) + if labels[n].t == t then 1 else 0
  {
    var n := |labels| - 1;
    var before := labels[..n];
    hide Next, Effective;
    forall k | 0 <= k < n && before[k].t == t ensures Effective(Run(s, before[..k]), before[k]) {
      assert before[..k] == labels[..k];
    }
  }

  lemma OthersWait(s: State, l: Label, t: Tid)
    requires l.t != t
    ensures At(Next(s, l), t) == At(s, t)
  {
    NextHands(s, l);
    hide Next;
  }

  /**
   Calls are wait-free: in any interleaving, the steps a thread takes while a call of its own is in progress, not
   counting loads that find the bucket count still unpublished, number at most StepsLeft of its program counter,
   which never exceeds a constant.
   */
  lemma {:induction false} CallsAreWaitFree(s: State, labels: seq<Label>, t: Tid)
    requires Inv(s) && AllEffective(s, labels, t)
    ensures OwnSteps(labels, t) + StepsLeft(At(Run(s, labels), t)) <= StepsLeft(At(s, t)) <= LONGEST + 7
    ensures 0 <= StepsLeft(At(Run(s, labels), t))
    decreases |labels|
  {
    StepsLeftBounded(s, t);
    if labels == [] {
      assert Run(s, labels) == s;
      hide StepsLeft;
    } else {
      hide *;
      var n := |labels| - 1;
      var mid := Run(s, labels[..n]);
      EffectiveBefore(s, labels, t);
      RunOk(s, labels[..n]);
      KeepsInv(s, mid);
      CallsAreWaitFree(s, labels[..n], t);
      if labels[n].t == t {
        StepShortens(mid, labels[n]);
      } else {
        OthersWait(mid, labels[n], t);
      }
    }
  }

  /**
   The wait is never in vain: while a thread waits for the bucket count, the thread that installed the region is
   about to store it, and its next step, taken at any time, ends the wait.
   */
  lemma WaitEnds(s: State, t: Tid)
    requires Inv(s) && At(s, t).SpinBuckets? && s.sh.buckets == 0
    ensures s.sh.base.Some? && s.sh.base.value < |s.hist.owners|
    ensures var winner := s.hist.owners[s.sh.base.value];
            winner != t && At(s, winner).StoreBuckets? && Next(s, Label(winner, Go)).sh.buckets == |Table(s.sh)| > 0
  {
    JobKnown(s, t);
    DataIs(s);
    LinkedIs(s);
    var winner := s.hist.owners[s.sh.base.value];
    JobKnown(s, winner);
    hide Inv;
  }
}
