/** What a report returns while recorders race with it. */
module TableReports {
  import opened Wrappers
  import opened Words
  import opened FrameHash
  import opened StackWalk
  import opened TableSize
  import opened TableMachine
  import opened TableInvariant
  import opened TableInitSteps
  import opened TableTheorems

  // What a report that begins in state s measures itself against.
  function Begin(s: State): Past {
    Past(if s.sh.buckets == 0 then [] else Table(s.sh), s.hist.events)
  }

  lemma {:induction false} TallyBound(events: seq<Event>, slot: nat)
    ensures Tally(events, slot) <= |events|
  {
    if events != [] {
      TallyBound(events[..|events| - 1], slot);
    }
  }

  lemma HashOfPrefix(trace: Frames)
    requires trace.Valid()
    ensures Hash(Prefix(trace, trace.count), trace.count) == Hash(trace.frames, trace.count)
  {
    var p := Prefix(trace, trace.count);
    assert p[..trace.count] == trace.frames[..trace.count];
    RawHashAgrees(p, trace.frames, trace.count);
  }

  lemma RowReached(s: State, k: nat, m: nat)
    requires Reachable(s) && k < |s.hist.reports| && m < |s.hist.reports[k].found|
    ensures FoundOk(Table(s.sh), s.hist.events, s.hist.reports[k].since, s.hist.reports[k].found[m])
    ensures CellOk(Table(s.sh), s.hist.events, s.hist.claims, s.hist.reports[k].found[m].slot)
    ensures ReportOk(Table(s.sh), s.hist.events, s.hist.reports[k]) && s.sh.buckets != 0 && GoodSize(|Table(s.sh)|)
  {
    ReachableOk(s);
    assert ReportOk(Table(s.sh), s.hist.events, s.hist.reports[k]);
    assert SharedOk(s.sh);
  }

  /**
   Every row of every report shows a claimed bucket: its frames are exactly the trace of the thread that claimed the
   bucket, with a zero tail; between one and eight of them; rehashing them gives the bucket's hash; and its count is the
   number of events that had been added when it was read, at least one, short of 2^64 events.
   */
  lemma RowIsCoherent(s: State, k: nat, m: nat)
    requires Reachable(s) && k < |s.hist.reports| && m < |s.hist.reports[k].found|
    ensures var f := s.hist.reports[k].found[m];
            && f.slot < |Table(s.sh)| && f.slot in s.hist.claims && s.hist.claims[f.slot] < |s.hist.events|
            && var e := s.hist.events[s.hist.claims[f.slot]];
               && e.trace.Valid() && 1 <= f.row.frameCount <= MAX_FRAMES
               && f.row.frameCount == e.trace.count && f.row.frames == Pad(e.trace.frames[..e.trace.count])
               && Hash(f.row.frames, f.row.frameCount) == Table(s.sh)[f.slot].hash
    ensures |s.hist.events| < TWO_64 ==> s.hist.reports[k].found[m].row.count >= 1
  {
    RowReached(s, k, m);
    var f := s.hist.reports[k].found[m];
    hide Reachable;
    HashOfPrefix(s.hist.events[s.hist.claims[f.slot]].trace);
    TallyBound(s.hist.events, f.slot);
    hide Hash, Covered;
  }

  /** A report has at most 2^20 rows, one for each bucket it shows, in bucket order. */
  lemma RowsAreFew(s: State, k: nat, i: nat, j: nat)
    requires Reachable(s) && k < |s.hist.reports|
    ensures |s.hist.reports[k].found| <= |Table(s.sh)|
    ensures |s.hist.reports[k].found| <= MAX_BUCKETS
    ensures i < j < |s.hist.reports[k].found| ==> s.hist.reports[k].found[i].slot < s.hist.reports[k].found[j].slot
  {
    ReachableOk(s);
    var table, r := Table(s.sh), s.hist.reports[k];
    assert ReportOk(table, s.hist.events, r) && SharedOk(s.sh);
    hide Reachable, Inv;
    Ascending(r.found, |table|);
  }

  lemma {:induction false} Ascending(found: seq<Found>, limit: nat)
    requires forall k :: 0 <= k < |found| ==> found[k].slot < limit
    requires forall j, k :: 0 <= j < k < |found| ==> found[j].slot < found[k].slot
    ensures |found| <= limit
  {
    if found != [] {
      var n := |found| - 1;
      Ascending(found[..n], found[n].slot);
    }
  }

  /** With published masks no two rows of a report are for the same hash. */
  lemma RowsAreDistinct(s: State, k: nat, i: nat, j: nat)
    requires Reachable(s) && NoStaleMask(s.hist.events)
    requires k < |s.hist.reports| && i < j < |s.hist.reports[k].found|
    ensures var f, g := s.hist.reports[k].found[i].row, s.hist.reports[k].found[j].row;
            && |f.frames| == |g.frames| == MAX_FRAMES
            && Hash(f.frames, f.frameCount) != Hash(g.frames, g.frameCount)
  {
    RowIsCoherent(s, k, i);
    RowIsCoherent(s, k, j);
    RowsAreFew(s, k, i, j);
    hide Hash;
    var a, b := s.hist.reports[k].found[i].slot, s.hist.reports[k].found[j].slot;
    RowReached(s, k, i);
    if Table(s.sh)[a].hash == Table(s.sh)[b].hash {
      AtMostOneBucket(s, a, b);
    }
  }

  /**
   A report that begins after another has finished contains every row of the earlier one: for the same bucket, with the
   same frames, and with a count and a byte total no smaller, short of 64-bit wrap-around.
   */
  lemma LaterReportContains(before: State, labels: seq<Label>, k: nat, m: nat, j: nat) returns (n: nat)
    requires Reachable(before) && k < |before.hist.reports| && m < |before.hist.reports[k].found|
    requires var s := Run(before, labels); j < |s.hist.reports| && s.hist.reports[j].since == Begin(before)
    ensures var s := Run(before, labels);
            && n < |s.hist.reports[j].found|
            && var f, g := before.hist.reports[k].found[m], s.hist.reports[j].found[n];
               && g.slot == f.slot && g.row.frames == f.row.frames && g.row.frameCount == f.row.frameCount
               && f.tally <= g.tally && f.sum <= g.sum
               && (|s.hist.events| < TWO_64 ==> f.row.count <= g.row.count)
               && (Sum(s.hist.events, g.slot) < TWO_64 ==> f.row.totalBytes <= g.row.totalBytes)
  {
    var s := Run(before, labels);
    RunReachable(before, labels);
    hide Run;
    RowReached(before, k, m);
    var f, r := before.hist.reports[k].found[m], s.hist.reports[j];
    ReachableOk(s);
    assert ReportOk(Table(s.sh), s.hist.events, r);
    hide Reachable, Inv, CellOk;
    assert Lists(r.found, f.slot);
    n :| 0 <= n < |r.found| && r.found[n].slot == f.slot;
    assert FoundOk(Table(s.sh), s.hist.events, r.since, r.found[n]);
    assert CellGrows(Table(before.sh)[f.slot], Table(s.sh)[f.slot]);
    TallyBound(s.hist.events, f.slot);
  }

  // Where the reference of a report comes from.

  function SinceOf(pc: PC): Option<Past> {
    if Scanning(pc) then Some(pc.r.since)
    else if pc.Idle? || Recording(pc) then None
    else if pc.job.ReportJob? then Some(pc.job.since)
    else None
  }

  // The reference a thread holds is the one it held, or the state just left; a report that ends had been held.
  ghost predicate Hands(s: State, s': State, t: Tid) {
    && (forall u :: u != t ==> At(s', u) == At(s, u))
    && (SinceOf(At(s', t)).Some? ==> SinceOf(At(s', t)) == SinceOf(At(s, t)) || SinceOf(At(s', t)) == Some(Begin(s)))
    && (s'.hist.reports == s.hist.reports ||
        (|s'.hist.reports| == |s.hist.reports| + 1 && s.hist.reports <= s'.hist.reports &&
         Some(s'.hist.reports[|s.hist.reports|].since) == SinceOf(At(s, t))))
  }

  lemma RecordHands(s: State, t: Tid)
    requires Recording(At(s, t)) && Accessible(s.sh, At(s, t).p.base, At(s, t).p.idx)
    ensures var p := At(s, t).p; Hands(s, RecordStep(s, t, At(s, t), p, CellAt(s.sh, p.base, p.idx)), t)
  {
    RecordLeaves(s, t, At(s, t), At(s, t).p);
    hide RecordStep, Begin, SinceOf;
    assert SinceOf(At(s, t)) == None by { NoSince(At(s, t)); }
    NoSince(At(RecordStep(s, t, At(s, t), At(s, t).p, CellAt(s.sh, At(s, t).p.base, At(s, t).p.idx)), t));
  }

  lemma NoSince(pc: PC)
    requires Recording(pc) || pc.Idle?
    ensures SinceOf(pc) == None
  {
  }

  // A step of a record call leaves reports and other threads alone, and stays within the call.
  lemma RecordLeaves(s: State, t: Tid, pc: PC, p: Probe)
    requires At(s, t) == pc && Recording(pc) && pc.p == p && Accessible(s.sh, p.base, p.idx)
    ensures var s' := RecordStep(s, t, pc, p, CellAt(s.sh, p.base, p.idx));
            && s'.hist.reports == s.hist.reports && (Recording(At(s', t)) || At(s', t) == Idle)
            && (forall u :: u != t ==> At(s', u) == At(s, u))
  {
    hide And, PutCell, CellAt, Accessible, Wrap;
  }

  lemma ScanHands(s: State, t: Tid)
    requires Scanning(At(s, t)) && Accessible(s.sh, At(s, t).r.base, At(s, t).r.i)
    ensures var r := At(s, t).r; Hands(s, ScanStep(s, t, At(s, t), r, CellAt(s.sh, r.base, r.i)), t)
  {
    hide Tally, Sum, Begin;
  }

  lemma EnterHands(s: State, s0: State, t: Tid, job: Job, base: nat, b: nat, mask: nat)
    requires At(s0, t) == At(s, t) && Initialising(At(s, t)) && At(s, t).job == job
    requires s0 == s.(sh := s0.sh)
    ensures Hands(s, Enter(s0, t, job, base, b, mask), t)
  {
    hide And, Hash, Begin;
  }

  lemma InitHands(s: State, t: Tid, act: Act)
    requires Initialising(At(s, t))
    ensures Hands(s, InitStep(s, t, At(s, t), act), t)
  {
    var pc := At(s, t);
    if pc.StoreMask? {
      EnterHands(s, s.(sh := s.sh.(mask := MaskOf(pc.n))), t, pc.job, pc.mine, pc.n, MaskOf(pc.n));
    } else if pc.LoadMask? {
      EnterHands(s, s, t, pc.job, pc.base, pc.b, s.sh.mask);
    } else if pc.SpinMask? {
      EnterHands(s, s, t, pc.job, pc.other, pc.b, s.sh.mask);
    }
    hide Enter, Begin;
  }

  lemma NextHands(s: State, l: Label)
    ensures Hands(s, Next(s, l), l.t)
  {
    var pc := At(s, l.t);
    if Recording(pc) && Accessible(s.sh, pc.p.base, pc.p.idx) {
      RecordHands(s, l.t);
    } else if Scanning(pc) && Accessible(s.sh, pc.r.base, pc.r.i) {
      ScanHands(s, l.t);
    } else if Initialising(pc) {
      InitHands(s, l.t, l.act);
    }
    hide RecordStep, ScanStep, InitStep;
  }

  // The reference comes from one of the states of the run.
  ghost predicate Held(labels: seq<Label>, since: Past) {
    exists n :: 0 <= n <= |labels| && since == Begin(Run(Init(), labels[..n]))
  }

  lemma HeldLonger(labels: seq<Label>, n: nat, since: Past)
    requires n <= |labels| && Held(labels[..n], since)
    ensures Held(labels, since)
  {
    var k :| 0 <= k <= n && since == Begin(Run(Init(), labels[..n][..k]));
    assert labels[..n][..k] == labels[..k];
  }

  // What holds of report k and of thread t.
  ghost predicate BeginsHeld(labels: seq<Label>, s: State, k: nat, t: Tid) {
    && (k < |s.hist.reports| ==> Held(labels, s.hist.reports[k].since))
    && (SinceOf(At(s, t)).Some? ==> Held(labels, SinceOf(At(s, t)).value))
  }

  lemma BeginsLonger(labels: seq<Label>, n: nat, s: State, k: nat, t: Tid)
    requires n <= |labels| && BeginsHeld(labels[..n], s, k, t)
    ensures BeginsHeld(labels, s, k, t)
  {
    hide Held, SinceOf;
    if k < |s.hist.reports| {
      HeldLonger(labels, n, s.hist.reports[k].since);
    }
    if SinceOf(At(s, t)).Some? {
      HeldLonger(labels, n, SinceOf(At(s, t)).value);
    }
  }

  lemma BeginsNext(labels: seq<Label>, s: State, s': State, k: nat, t: Tid, u: Tid)
    requires BeginsHeld(labels, s, k, t) && BeginsHeld(labels, s, k, u) && Held(labels, Begin(s))
    requires Hands(s, s', u)
    ensures BeginsHeld(labels, s', k, t)
  {
    hide Held, SinceOf, Begin;
  }

  /** Every report measures itself against the state of the run in which it began. */
  lemma {:induction false} ReportsBegin(labels: seq<Label>, k: nat, t: Tid)
    ensures BeginsHeld(labels, Run(Init(), labels), k, t)
    decreases |labels|
  {
    if labels != [] {
      var n := |labels| - 1;
      var s, u := Run(Init(), labels[..n]), labels[n].t;
      assert Held(labels, Begin(s)) by {
        assert 0 <= n <= |labels|;
      }
      hide BeginsHeld, Held, Hands, Next;
      NextHands(s, labels[n]);
      ReportsBegin(labels[..n], k, t);
      ReportsBegin(labels[..n], k, u);
      BeginsLonger(labels, n, s, k, t);
      BeginsLonger(labels, n, s, k, u);
      BeginsNext(labels, s, Run(Init(), labels), k, t, u);
    }
  }
}
