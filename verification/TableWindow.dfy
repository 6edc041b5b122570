/**
 The window in which TABLE_BASE is published and TABLE_MASK is not. A thread that obtains the table inside it runs with
 mask 0. Uniqueness and all-or-nothing drops then fail; this module gives runs in which they do, and says exactly when.
 */
module TableWindow {
  import opened Wrappers
  import opened Words
  import opened FrameHash
  import opened StackWalk
  import opened TableSize
  import opened TableMachine
  import opened TableInvariant
  import opened TableStable
  import opened TablePreserve
  import opened TableWrites
  import opened TableRecordSteps
  import opened TableInitSteps
  import opened TableTheorems
  import Reports = TableReports
  import Code = TableCodeSteps

  // A record call that runs without interference once the mask is published.

  lemma {:induction false} RunOne(s: State, labels: seq<Label>, l: Label)
    ensures Run(s, labels + [l]) == Next(Run(s, labels), l)
  {
    assert (labels + [l])[..|labels|] == labels;
  }

  lemma GotoTwice(s: State, u: Tid, a: PC, b: PC)
    ensures Goto(Goto(s, u, a), u, b) == Goto(s, u, b)
    ensures At(Goto(s, u, a), u) == a && Goto(s, u, a).sh == s.sh && Goto(s, u, a).hist == s.hist
    ensures At(s, u) == a && u in s.pcs ==> Goto(s, u, a) == s
  {
    assert s.pcs[u := a][u := b] == s.pcs[u := b];
    assert At(s, u) == a && u in s.pcs ==> s.pcs[u := a] == s.pcs;
  }

  // The walk from one slot to the next while other hashes are in the way.
  lemma {:induction false} SoloWalk(s: State, u: Tid, p: Probe, j: nat) returns (labels: seq<Label>)
    requires Reachable(s) && At(s, u) == LoadHash(p) && p.mask != 0 && j < |Table(s.sh)|
    requires p.idx < |Table(s.sh)| && p.start == Home(p.h, |Table(s.sh)|)
    requires Covered(Table(s.sh), p.h, j)
    requires Distance(p.start, p.idx, |Table(s.sh)|) <= Distance(p.start, j, |Table(s.sh)|)
    ensures Run(s, labels) == Goto(s, u, LoadHash(p.(idx := j)))
    decreases Distance(p.start, j, |Table(s.sh)|) - Distance(p.start, p.idx, |Table(s.sh)|)
  {
    var n := |Table(s.sh)|;
    assert u in s.pcs;
    if p.idx == j {
      labels := [];
      assert p.(idx := j) == p;
      GotoTwice(s, u, LoadHash(p), LoadHash(p));
    } else {
      assert Distance(p.start, p.idx, n) < Distance(p.start, j, n);
      assert Other(Table(s.sh), p.h, p.idx);
      hide Run, Next, Covered, Keeps, Goto, At, Reachable, Table, Other;
      var q, s1 := SoloStep(s, u, p);
      var rest := SoloWalk(s1, u, q, j);
      labels := [Label(u, Go)] + rest;
      RunTwice(s, [Label(u, Go)], rest);
      GotoTwice(s, u, LoadHash(q), LoadHash(q.(idx := j)));
      assert q.(idx := j) == p.(idx := j);
    }
  }

  lemma SoloStep(s: State, u: Tid, p: Probe) returns (q: Probe, s1: State)
    requires Reachable(s) && At(s, u) == LoadHash(p) && p.mask != 0
    requires p.idx < |Table(s.sh)| && Other(Table(s.sh), p.h, p.idx)
    requires p.start == Home(p.h, |Table(s.sh)|) && Distance(p.start, p.idx, |Table(s.sh)|) + 1 < |Table(s.sh)|
    ensures Run(s, [Label(u, Go)]) == s1 && s1 == Goto(s, u, LoadHash(q)) && Reachable(s1)
    ensures s1.sh == s.sh && At(s1, u) == LoadHash(q)
    ensures q == p.(idx := q.idx) && q.idx < |Table(s.sh)|
    ensures Distance(p.start, q.idx, |Table(s.sh)|) == Distance(p.start, p.idx, |Table(s.sh)|) + 1
  {
    q := p.(idx := And(p.idx + 1, p.mask));
    s1 := Goto(s, u, LoadHash(q));
    SoloFacts(s, u, p);
    hide *;
    RunReachable(s, [Label(u, Go)]);
    OneLabel(s, Label(u, Go));
    PassBy(s, u, p);
    GotoTwice(s, u, LoadHash(q), LoadHash(q));
  }

  // The masked successor of a slot that is not the last of the probe.
  lemma NextSlotFacts(p: Probe, n: nat)
    requires GoodSize(n) && p.mask == n - 1 && p.idx < n && p.start < n && Distance(p.start, p.idx, n) + 1 < n
    ensures var next := And(p.idx + 1, p.mask);
            next != p.start && next < n && Distance(p.start, next, n) == Distance(p.start, p.idx, n) + 1
  {
    Masked(p.idx + 1, p.mask, n);
    NextIndex(p.idx, n);
    hide And;
  }

  lemma SoloFacts(s: State, u: Tid, p: Probe)
    requires Reachable(s) && At(s, u) == LoadHash(p) && p.mask != 0
    requires p.idx < |Table(s.sh)| && Other(Table(s.sh), p.h, p.idx)
    requires p.start < |Table(s.sh)| && Distance(p.start, p.idx, |Table(s.sh)|) + 1 < |Table(s.sh)|
    ensures Accessible(s.sh, p.base, p.idx)
    ensures CellAt(s.sh, p.base, p.idx).hash != 0 && CellAt(s.sh, p.base, p.idx).hash != p.h
    ensures var next := And(p.idx + 1, p.mask);
            && next != p.start && next < |Table(s.sh)|
            && Distance(p.start, next, |Table(s.sh)|) == Distance(p.start, p.idx, |Table(s.sh)|) + 1
  {
    ReachableOk(s);
    hide Reachable, And, Hash;
    RecordingAccess(s, u, p);
    DataIs(s);
    hide Inv, DataOk, Table, ThreadOk;
    ProbeKnows'(s.sh, s.hist, u, p);
    NextSlotFacts(p, |Table(s.sh)|);
  }

  lemma PassBy(s: State, u: Tid, p: Probe)
    requires At(s, u) == LoadHash(p) && Accessible(s.sh, p.base, p.idx)
    requires CellAt(s.sh, p.base, p.idx).hash != 0 && CellAt(s.sh, p.base, p.idx).hash != p.h
    requires And(p.idx + 1, p.mask) != p.start
    ensures Next(s, Label(u, Go)) == Goto(s, u, LoadHash(p.(idx := And(p.idx + 1, p.mask))))
  {
    hide And;
  }

  lemma OneLabel(s: State, l: Label)
    ensures Run(s, [l]) == Next(s, l)
  {
    RunOne(s, [], l);
    assert [] + [l] == [l];
  }

  lemma ProbeKnows'(sh: Shared, hist: Hist, u: Tid, p: Probe)
    requires ThreadOk(sh, hist, u, LoadHash(p)) && p.mask != 0 && SharedOk(sh)
    ensures p.mask == |Table(sh)| - 1 && GoodSize(|Table(sh)|)
  {
  }

  // The first slot on the probe path that is empty or holds the hash.
  lemma {:induction false} FirstStop(table: seq<Bucket>, h: u64, idx: nat) returns (j: nat)
    requires idx < |table| && Covered(table, h, idx) && !AllOther(table, h)
    ensures j < |table| && Covered(table, h, j) && !Other(table, h, j)
    decreases |table| - Distance(Home(h, |table|), idx, |table|)
  {
    if Other(table, h, idx) {
      CoverMore(table, h, idx);
      NextIndex(idx, |table|);
      j := FirstStop(table, h, (idx + 1) % |table|);
    } else {
      j := idx;
    }
  }

  // The first three steps of a call once a region is installed.
  ghost function WithEvent(s: State, e: Event): State {
    s.(hist := s.hist.(events := s.hist.events + [e]))
  }

  lemma ToMask(s: State, u: Tid, trace: Frames, size: u64)
    requires s.sh.base.Some? && At(s, u) == Idle && trace.Valid() && trace.count > 0
    ensures var e, job := Event(u, trace, size, None, Waiting), RecordJob(|s.hist.events|, trace, size);
            Next(Next(Next(s, Label(u, Record(trace, size))), Label(u, Go)), Label(u, Go)) ==
            Goto(WithEvent(s, e), u, LoadMask(job, s.sh.base.value, s.sh.buckets))
  {
    var s1 := Next(s, Label(u, Record(trace, size)));
    var s2 := Next(s1, Label(u, Go));
    var with, base := WithEvent(s, Event(u, trace, size, None, Waiting)), s.sh.base.value;
    var job := RecordJob(|s.hist.events|, trace, size);
    assert s1 == Goto(with, u, LoadBase(job));
    GotoTwice(with, u, LoadBase(job), LoadBuckets(job, base));
    assert s2 == Goto(with, u, LoadBuckets(job, base));
    GotoTwice(with, u, LoadBuckets(job, base), LoadMask(job, base, s.sh.buckets));
  }

  // The fourth: the mask is read and the probe begins.
  lemma ReadMask(s: State, u: Tid, trace: Frames, size: u64, base: nat, b: nat)
    requires trace.Valid()
    ensures var e, ev := Event(u, trace, size, None, Waiting), |s.hist.events|;
            var h, idx := Hash(trace.frames, trace.count), And(Hash(trace.frames, trace.count), s.sh.mask);
            Next(Goto(WithEvent(s, e), u, LoadMask(RecordJob(ev, trace, size), base, b)), Label(u, Go)) ==
            Goto(WithEvent(s, e.(mask := Some(s.sh.mask))), u,
                 LoadHash(Probe(ev, trace, size, base, s.sh.mask, h, idx, idx)))
  {
    var e, ev := Event(u, trace, size, None, Waiting), |s.hist.events|;
    assert (s.hist.events + [e])[ev := e.(mask := Some(s.sh.mask))] == s.hist.events + [e.(mask := Some(s.sh.mask))];
    var final, pc := WithEvent(s, e.(mask := Some(s.sh.mask))), LoadMask(RecordJob(ev, trace, size), base, b);
    assert SetMask(Goto(WithEvent(s, e), u, pc), ev, s.sh.mask) == Goto(final, u, pc);
    hide Hash, And;
    GotoTwice(final, u, pc, LoadHash(Probe(ev, trace, size, base, s.sh.mask, Hash(trace.frames, trace.count),
                                           And(Hash(trace.frames, trace.count), s.sh.mask),
                                           And(Hash(trace.frames, trace.count), s.sh.mask))));
  }

  ghost function FirstProbe(s: State, trace: Frames, size: u64): Probe
    requires s.sh.base.Some? && trace.Valid()
  {
    var h := Hash(trace.frames, trace.count);
    var idx := And(h, s.sh.mask);
    Probe(|s.hist.events|, trace, size, s.sh.base.value, s.sh.mask, h, idx, idx)
  }

  // From the start of a call to its first look at a bucket.
  lemma EnterNow(s: State, u: Tid, trace: Frames, size: u64) returns (labels: seq<Label>)
    requires s.sh.base.Some? && At(s, u) == Idle && trace.Valid() && trace.count > 0
    ensures var e := Event(u, trace, size, Some(s.sh.mask), Waiting);
            Run(s, labels) == Goto(WithEvent(s, e), u, LoadHash(FirstProbe(s, trace, size)))
  {
    labels := [Label(u, Record(trace, size)), Label(u, Go), Label(u, Go), Label(u, Go)];
    FourSteps(s, labels);
    hide Run, Hash, And, Next, Goto, WithEvent, At;
    ToMask(s, u, trace, size);
    ReadMask(s, u, trace, size, s.sh.base.value, s.sh.buckets);
  }

  lemma SoloEnter(s: State, u: Tid, trace: Frames, size: u64) returns (labels: seq<Label>, p: Probe)
    requires Reachable(s) && s.sh.mask != 0 && At(s, u) == Idle && trace.Valid() && trace.count > 0
    ensures |Table(s.sh)| > 0
    ensures var s' := Run(s, labels);
            && s'.sh == s.sh && At(s', u) == LoadHash(p) && |s'.hist.events| == |s.hist.events| + 1
            && p.ev == |s.hist.events| && p.trace == trace && p.mask != 0
            && p.start == p.idx == Home(p.h, |Table(s.sh)|) && p.h == Hash(trace.frames, trace.count)
            && Reachable(s')
  {
    PublishedMask(s);
    Masked(Hash(trace.frames, trace.count), s.sh.mask, |Table(s.sh)|);
    hide Run, Hash, And, Reachable, Table;
    labels := EnterNow(s, u, trace, size);
    p := FirstProbe(s, trace, size);
    RunReachable(s, labels);
  }

  lemma PublishedMask(s: State)
    requires Reachable(s) && s.sh.mask != 0
    ensures s.sh.base.Some? && GoodSize(|Table(s.sh)|) && s.sh.mask == |Table(s.sh)| - 1
  {
    ReachableOk(s);
    assert SharedOk(s.sh);
  }

  lemma FourSteps(s: State, l: seq<Label>)
    requires |l| == 4
    ensures Run(s, l) == Next(Next(Next(Next(s, l[0]), l[1]), l[2]), l[3])
  {
    hide Next;
    assert l == (([] + [l[0]] + [l[1]]) + [l[2]]) + [l[3]];
    RunOne(s, [], l[0]);
    RunOne(s, [] + [l[0]], l[1]);
    RunOne(s, [] + [l[0]] + [l[1]], l[2]);
    RunOne(s, [] + [l[0]] + [l[1]] + [l[2]], l[3]);
  }

  // The event has landed on slot j, which holds its hash; no other bucket's hash has changed.
  ghost predicate LandsOn(s: State, s': State, j: nat, h: u64) {
    var a, b := Table(s.sh), Table(s'.sh);
    && |b| == |a| && j < |b| && b[j].hash == h
    && (forall i :: 0 <= i < |a| && i != j ==> b[i].hash == a[i].hash)
    && var ev := |s.hist.events|;
       && ev < |s'.hist.events| && s'.hist.events[ev].trace.Valid() && s'.hist.events[ev].Key() == h
       && s'.hist.events[ev].fate.Landed? && s'.hist.events[ev].fate.slot == j
  }

  // What the last look of a solo call does.
  ghost predicate Stopped(s: State, s': State, p: Probe) {
    var a, b := Table(s.sh), Table(s'.sh);
    && |b| == |a| && p.idx < |b| && b[p.idx].hash == p.h
    && (forall i :: 0 <= i < |a| && i != p.idx ==> b[i].hash == a[i].hash)
    && p.ev < |s'.hist.events| && s'.hist.events[p.ev].trace.Valid() && s'.hist.events[p.ev].Key() == p.h
    && s'.hist.events[p.ev].fate == Landed(p.idx, false, false)
  }

  lemma StopHit(s: State, u: Tid, p: Probe)
    requires Inv(s) && At(s, u) == LoadHash(p) && p.idx < |Table(s.sh)| && Table(s.sh)[p.idx].hash == p.h
    ensures Stopped(s, Next(s, Label(u, Go)), p)
  {
    RecordingAccess(s, u, p);
    assert ProbeIs(s.sh, s.hist, u, p, Waiting);
    hide Inv, ThreadOk, Hash, Advance, Claim;
  }

  lemma StopLook(s: State, u: Tid, p: Probe)
    requires Inv(s) && At(s, u) == LoadHash(p) && p.idx < |Table(s.sh)| && Table(s.sh)[p.idx].hash == 0
    ensures Next(s, Label(u, Go)) == Goto(s, u, CasHash(p))
  {
    RecordingAccess(s, u, p);
    hide Inv, ThreadOk, Hash, Advance, Hit, Table, CellAt;
  }

  // The step of a thread that finds its bucket empty and claims it.
  lemma StopCas(s: State, u: Tid, p: Probe)
    requires Inv(s) && At(s, u) == CasHash(p) && p.idx < |Table(s.sh)| && Table(s.sh)[p.idx].hash == 0
    ensures Stopped(s, Next(s, Label(u, Go)), p)
  {
    RecordingAccess(s, u, p);
    DataIs(s);
    assert ProbeIs(s.sh, s.hist, u, p, Waiting);
    PutShared(s.sh, s.hist.owners, p.idx, Table(s.sh)[p.idx].(hash := p.h));
    hide Inv, ThreadOk, Hash, Advance, Hit, DataOk, SharedOk, RegionsOk, Accessible, CellAt, PutCell;
  }

  lemma StopClaim(s: State, u: Tid, p: Probe)
    requires Reachable(s) && At(s, u) == LoadHash(p) && p.idx < |Table(s.sh)| && Table(s.sh)[p.idx].hash == 0
    ensures Stopped(s, Next(Next(s, Label(u, Go)), Label(u, Go)), p)
  {
    ReachableOk(s);
    hide Inv, Next, Reachable, Stopped;
    StopLook(s, u, p);
    var s1 := Next(s, Label(u, Go));
    NextOk(s, Label(u, Go));
    KeepsInv(s, s1);
    StopCas(s1, u, p);
    SameStop(s, s1, Next(s1, Label(u, Go)), p);
  }

  lemma SameStop(s: State, s1: State, s2: State, p: Probe)
    requires s1.sh == s.sh && Stopped(s1, s2, p)
    ensures Stopped(s, s2, p)
  {
    hide Hash;
  }

  lemma SoloStop(s: State, u: Tid, p: Probe) returns (labels: seq<Label>)
    requires Reachable(s) && At(s, u) == LoadHash(p) && p.idx < |Table(s.sh)|
    requires !Other(Table(s.sh), p.h, p.idx)
    ensures Stopped(s, Run(s, labels), p)
  {
    ReachableOk(s);
    if Table(s.sh)[p.idx].hash == p.h {
      labels := [Label(u, Go)];
      OneLabel(s, Label(u, Go));
      hide *;
      StopHit(s, u, p);
    } else {
      labels := [Label(u, Go)] + [Label(u, Go)];
      OneLabel(s, Label(u, Go));
      RunOne(s, [Label(u, Go)], Label(u, Go));
      assert Table(s.sh)[p.idx].hash == 0;
      hide *;
      StopClaim(s, u, p);
    }
  }

  /**
   Once the mask is published, a record call that runs without interference lands on the first slot of its probe path
   that is empty or holds its hash, if there is one.
   */
  lemma SoloLands(s: State, u: Tid, trace: Frames, size: u64) returns (labels: seq<Label>, j: nat)
    requires Reachable(s) && s.sh.mask != 0 && At(s, u) == Idle && trace.Valid() && trace.count > 0
    requires !AllOther(Table(s.sh), Hash(trace.frames, trace.count))
    ensures j < |Table(s.sh)| && Covered(Table(s.sh), Hash(trace.frames, trace.count), j)
    ensures !Other(Table(s.sh), Hash(trace.frames, trace.count), j)
    ensures LandsOn(s, Run(s, labels), j, Hash(trace.frames, trace.count))
  {
    var h := Hash(trace.frames, trace.count);
    hide Run, Next, Hash;
    var first, p := SoloEnter(s, u, trace, size);
    var s1 := Run(s, first);
    j := FirstStop(Table(s.sh), h, p.start);
    var second := SoloWalk(s1, u, p, j);
    var s2 := Run(s1, second);
    RunReachable(s1, second);
    var third := SoloStop(s2, u, p.(idx := j));
    labels := first + second + third;
    RunTwice(s, first, second);
    RunTwice(s, first + second, third);
  }

  // While the window is open, the thread that installed the table can close it.

  // The descriptor is published; the table and the claims are as they were, and thread u is still between calls.
  ghost predicate Closed(s: State, s': State, u: Tid) {
    && Reachable(s') && Later(s, s') && s'.sh.mask != 0 && Table(s'.sh) == Table(s.sh)
    && s'.hist.claims == s.hist.claims && At(s', u) == Idle
  }

  lemma WinnerIs(s: State)
    requires Reachable(s) && s.sh.base.Some?
    ensures s.sh.base.value < |s.hist.owners| && GoodSize(|Table(s.sh)|)
    ensures var pc := At(s, s.hist.owners[s.sh.base.value]);
            && (s.sh.buckets == 0 ==> pc.StoreBuckets? && pc.n == |Table(s.sh)|)
            && (s.sh.buckets != 0 && s.sh.mask == 0 ==> pc.StoreMask? && pc.n == |Table(s.sh)|)
  {
    ReachableOk(s);
    LinkedIs(s);
    DataIs(s);
    var t := s.hist.owners[s.sh.base.value];
    if s.sh.mask == 0 {
      JobKnown(s, t);
    }
    hide Inv;
  }

  // A store of the descriptor changes nothing else.
  lemma StoreKeeps(s: State, t: Tid, u: Tid)
    requires At(s, u) == Idle && (At(s, t).StoreBuckets? || At(s, t).StoreMask?)
    ensures var s' := Next(s, Label(t, Go)); s'.hist.claims == s.hist.claims && At(s', u) == Idle
  {
    Reports.NextHands(s, Label(t, Go));
    hide Hash, And;
  }

  lemma StoreMaskCloses(s: State, u: Tid) returns (l: Label)
    requires Reachable(s) && s.sh.base.Some? && s.sh.buckets != 0 && s.sh.mask == 0 && At(s, u) == Idle
    ensures Closed(s, Run(s, [l]), u)
  {
    WinnerIs(s);
    var t := s.hist.owners[s.sh.base.value];
    l := Label(t, Go);
    hide Run, Next, Reachable, Later, Keeps;
    OneLabel(s, l);
    RunReachable(s, [l]);
    Reports.NextHands(s, l);
    StoreKeeps(s, t, u);
    Code.LastStep(s, t, At(s, t));
    KeptLater(s, Run(s, [l]));
  }

  lemma KeptLater(s: State, s': State)
    requires Keeps(s, s')
    ensures Later(s, s')
  {
    hide Inv;
  }

  lemma StoreBucketsNext(s: State, u: Tid) returns (l: Label)
    requires Reachable(s) && s.sh.base.Some? && s.sh.buckets == 0 && At(s, u) == Idle
    ensures var s' := Run(s, [l]);
            && Reachable(s') && Later(s, s') && s'.sh.base == s.sh.base && s'.sh.buckets != 0 && s'.sh.mask == s.sh.mask
            && Table(s'.sh) == Table(s.sh) && s'.hist.claims == s.hist.claims && At(s', u) == Idle
  {
    WinnerIs(s);
    var t := s.hist.owners[s.sh.base.value];
    l := Label(t, Go);
    hide Run, Next, Reachable, Later, Keeps;
    OneLabel(s, l);
    RunReachable(s, [l]);
    StoreKeeps(s, t, u);
    Code.RaceStep(s, t, At(s, t));
    KeptLater(s, Run(s, [l]));
  }

  lemma CloseWindow(s: State, u: Tid) returns (labels: seq<Label>)
    requires Reachable(s) && s.sh.base.Some? && At(s, u) == Idle
    ensures Closed(s, Run(s, labels), u)
  {
    EmptyRun(s);
    if s.sh.mask != 0 {
      labels := [];
      LaterSelf(s, s);
    } else {
      UnmaskedCount(s);
      hide Run, Reachable, Later;
      var first := [];
      if s.sh.buckets == 0 {
        var l := StoreBucketsNext(s, u);
        first := [l];
      } else {
        LaterSelf(s, s);
      }
      var mid := Run(s, first);
      var last := StoreMaskCloses(mid, u);
      labels := first + [last];
      RunTwice(s, first, [last]);
      LaterTwice(s, mid, Run(s, labels));
    }
  }

  // An unpublished count goes with an unpublished mask.
  lemma UnmaskedCount(s: State)
    requires Reachable(s)
    ensures s.sh.buckets == 0 ==> s.sh.mask == 0
  {
    ReachableOk(s);
    DataIs(s);
    hide Inv;
  }

  // Uniqueness: exactly when a stale claim leads to a duplicate.

  ghost predicate Duplicated(s: State) {
    var table := Table(s.sh);
    exists j :: 0 < j < |table| && table[j].hash == table[0].hash && table[j].hash != 0
  }

  // Between the home slot of h and the end of the table there is an empty bucket.
  ghost predicate RoomAhead(table: seq<Bucket>, h: u64) {
    table != [] && Home(h, |table|) != 0 && exists j :: Home(h, |table|) <= j < |table| && table[j].hash == 0
  }

  /**
   When bucket 0 has been claimed with a stale mask and no other bucket holds its hash yet, some continuation of the
   run duplicates the hash if and only if its home slot is not 0 and there is an empty bucket from the home slot on.
   This holds while the window is open, and after.
   */
  lemma DuplicatesExactlyWhen(s: State, u: Tid)
    requires Reachable(s) && StaleClaim(s) && At(s, u) == Idle && !Duplicated(s)
    requires Table(s.sh) != []
    ensures (exists labels :: Duplicated(Run(s, labels))) <==> RoomAhead(Table(s.sh), Table(s.sh)[0].hash)
  {
    if labels :| Duplicated(Run(s, labels)) {
      DuplicateNeedsRoom(s, labels);
    }
    if RoomAhead(Table(s.sh), Table(s.sh)[0].hash) {
      hide *;
      TableInstalled(s);
      var first := CloseWindow(s, u);
      var mid := Run(s, first);
      ClosedKeeps(s, mid, u);
      var more := RoomGivesDuplicate(mid, u);
      RunTwice(s, first, more);
      assert Duplicated(Run(s, first + more));
    }
  }

  lemma TableInstalled(s: State)
    requires Table(s.sh) != []
    ensures s.sh.base.Some?
  {
  }

  lemma ClosedKeeps(s: State, s': State, u: Tid)
    requires Closed(s, s', u)
    ensures Reachable(s') && s'.sh.mask != 0 && At(s', u) == Idle && Table(s'.sh) == Table(s.sh) && Later(s, s')
    ensures StaleClaim(s) ==> StaleClaim(s')
    ensures Duplicated(s') == Duplicated(s)
  {
    hide Reachable, Table;
  }

  lemma ClaimOfZero(s: State)
    requires Reachable(s) && StaleClaim(s) && Table(s.sh) != []
    ensures var e := s.hist.events[s.hist.claims[0]];
            && e.trace.Valid() && e.trace.count > 0 && Table(s.sh)[0].hash == Hash(e.trace.frames, e.trace.count) != 0
  {
    ReachableOk(s);
    assert CellOk(Table(s.sh), s.hist.events, s.hist.claims, 0);
  }

  lemma DuplicateNeedsRoom(s: State, labels: seq<Label>)
    requires Reachable(s) && StaleClaim(s) && !Duplicated(s) && Table(s.sh) != [] && Duplicated(Run(s, labels))
    ensures RoomAhead(Table(s.sh), Table(s.sh)[0].hash)
  {
    var s' := Run(s, labels);
    RunReachable(s, labels);
    ClaimOfZero(s);
    hide Run, Hash;
    var a, b := Table(s.sh), Table(s'.sh);
    var j :| 0 < j < |b| && b[j].hash == b[0].hash && b[j].hash != 0;
    ProbePathHeld(s', j, []);
    assert s' == Run(s', []) by { EmptyRun(s'); }
    ProbePathHeld(s, 0, labels);
    var h, n := a[0].hash, |a|;
    assert !Other(b, h, 0);
    assert CellGrows(a[j], b[j]);
  }

  lemma EmptyRun(s: State)
    ensures Run(s, []) == s
  {
  }

  lemma RoomGivesDuplicate(s: State, u: Tid) returns (labels: seq<Label>)
    requires Reachable(s) && s.sh.mask != 0 && StaleClaim(s) && At(s, u) == Idle && !Duplicated(s)
    requires Table(s.sh) != [] && RoomAhead(Table(s.sh), Table(s.sh)[0].hash)
    ensures Duplicated(Run(s, labels))
  {
    ClaimOfZero(s);
    var table, e := Table(s.sh), s.hist.events[s.hist.claims[0]];
    var h := table[0].hash;
    assert !Other(table, h, 0);
    hide Run, Hash;
    var j;
    labels, j := SoloLands(s, u, e.trace, e.size);
    var i :| Home(h, |table|) <= i < |table| && table[i].hash == 0;
    assert !Other(table, h, i);
  }

  // All-or-nothing drops: exactly when a drop is final.

  ghost predicate NeverTallied(s: State, h: u64) {
    forall labels, m :: 0 <= m < |Run(s, labels).hist.events| ==> !LandsWith(Run(s, labels).hist.events[m], h)
  }

  ghost predicate LandsWith(e: Event, h: u64) {
    e.fate.Landed? && e.trace.Valid() && e.Key() == h
  }

  /**
   When an event has been dropped, its hash is never tallied, before or in any continuation, if and only if the
   table is full of other hashes; this holds while the window is open, and after. A drop that used the published
   mask always meets the condition; one that used a stale mask may not.
   */
  lemma DropIsFinalExactlyWhen(s: State, k: nat, u: Tid)
    requires Reachable(s) && At(s, u) == Idle
    requires k < |s.hist.events| && s.hist.events[k].fate == Dropped && s.hist.events[k].trace.Valid()
    ensures NeverTallied(s, s.hist.events[k].Key()) <==> AllOther(Table(s.sh), s.hist.events[k].Key())
    ensures s.hist.events[k].mask != Some(0) ==> AllOther(Table(s.sh), s.hist.events[k].Key())
  {
    var e := s.hist.events[k];
    var h := e.Key();
    EventReached(s, k);
    AllOtherIs(Table(s.sh), e);
    DropIs(Table(s.sh), e);
    hide EventOk, Hash, Run;
    if AllOther(Table(s.sh), h) {
      forall labels, m | 0 <= m < |Run(s, labels).hist.events| ensures !LandsWith(Run(s, labels).hist.events[m], h) {
        FullStaysFull(s, h, labels, m);
      }
    } else {
      TableInstalled(s);
      hide *;
      var labels, m := TallyLater(s, e, u);
      Tallied(s, h, labels, m);
    }
  }

  lemma DropIs(table: seq<Bucket>, e: Event)
    requires EventOk(table, e) && e.fate == Dropped
    ensures e.trace.Valid() && e.trace.count > 0 && table != [] && e.Key() == Hash(e.trace.frames, e.trace.count)
  {
    hide AllOther, Other, Hash;
  }

  lemma Tallied(s: State, h: u64, labels: seq<Label>, m: nat)
    requires m < |Run(s, labels).hist.events| && LandsWith(Run(s, labels).hist.events[m], h)
    ensures !NeverTallied(s, h)
  {
    hide Run, LandsWith;
  }

  // Unless the table is full of other hashes, the window can be closed and an event with the hash tallied.
  lemma TallyLater(s: State, e: Event, u: Tid) returns (labels: seq<Label>, m: nat)
    requires Reachable(s) && s.sh.base.Some? && At(s, u) == Idle && e.trace.Valid() && e.trace.count > 0
    requires !AllOther(Table(s.sh), Hash(e.trace.frames, e.trace.count))
    ensures m < |Run(s, labels).hist.events|
    ensures LandsWith(Run(s, labels).hist.events[m], Hash(e.trace.frames, e.trace.count))
  {
    var h := Hash(e.trace.frames, e.trace.count);
    hide *;
    var first := CloseWindow(s, u);
    var mid := Run(s, first);
    ClosedKeeps(s, mid, u);
    var more, j := SoloLands(mid, u, e.trace, e.size);
    labels := first + more;
    RunTwice(s, first, more);
    m := |mid.hist.events|;
    LandedLast(mid, Run(s, labels), j, h);
  }

  lemma LandedLast(s: State, s': State, j: nat, h: u64)
    requires LandsOn(s, s', j, h)
    ensures |s.hist.events| < |s'.hist.events| && LandsWith(s'.hist.events[|s.hist.events|], h)
  {
    hide Hash, Table;
  }

  lemma FullStaysFull(s: State, h: u64, labels: seq<Label>, m: nat)
    requires Reachable(s) && Table(s.sh) != [] && AllOther(Table(s.sh), h) && m < |Run(s, labels).hist.events|
    ensures !LandsWith(Run(s, labels).hist.events[m], h)
  {
    var s' := Run(s, labels);
    RunReachable(s, labels);
    hide Run;
    EventReached(s', m);
    AllOtherIs(Table(s'.sh), s'.hist.events[m]);
    AllOtherStays(Table(s.sh), Table(s'.sh), h);
    hide EventOk, Reachable, Hash;
    if s'.hist.events[m].fate.Landed? {
      assert Other(Table(s'.sh), h, s'.hist.events[m].fate.slot);
    }
  }

  // A run in which the window matters. Thread 0 installs a table of 64 buckets and is held up before it stores the mask;
  // meanwhile thread 1 claims bucket 0 with mask 0, and thread 2 is dropped although 63 buckets are empty.

  const ONE := Frames([1, 0, 0, 0, 0, 0, 0, 0], 1)
  const TWO := Frames([2, 0, 0, 0, 0, 0, 0, 0], 1)
  const KEY_ONE: u64 := K
  const KEY_TWO: u64 := 0xa2f9_836e_4e44_152a

  lemma Keys()
    ensures Hash(ONE.frames, 1) == KEY_ONE && Hash(TWO.frames, 1) == KEY_TWO
  {
    assert RawHash(ONE.frames, 0) == 0 && RawHash(TWO.frames, 0) == 0;
    assert Xor(0, 1) == 1 && Xor(0, 2) == 2;
    assert RawHash(ONE.frames, 1) == MulK(1) && RawHash(TWO.frames, 1) == MulK(2);
  }

  ghost function Cells(first: u64): seq<Bucket> {
    seq(64, i => EMPTY)[0 := EMPTY.(hash := first)]
  }

  ghost function Window(cells: seq<Bucket>, mask: nat): Shared {
    Shared(Some(0), 64, mask, [Region(cells, true)])
  }

  ghost function Job0(): Job {
    RecordJob(0, ONE, 1)
  }

  ghost function Opened(): State {
    State(Window(seq(64, i => EMPTY), 0), map[0 := StoreMask(Job0(), 0, 64)],
          Hist([Event(0, ONE, 1, None, Waiting)], map[], [0], []), false)
  }

  const OPENING := [Label(0, Record(ONE, 1)), Label(0, Go), Label(0, Map(Parsed(64), true)), Label(0, Go)]

  // The states on the way to the open window.
  ghost function Opening(sh: Shared, owners: seq<Tid>, pc: PC): State {
    State(sh, map[0 := pc], Hist([Event(0, ONE, 1, None, Waiting)], map[], owners, []), false)
  }

  lemma OpenStart()
    ensures Next(Next(Init(), Label(0, Record(ONE, 1))), Label(0, Go)) ==
            Opening(Shared(None, 0, 0, []), [], MapPages(Job0()))
  {
    var s1 := Next(Init(), Label(0, Record(ONE, 1)));
    assert s1 == Opening(Shared(None, 0, 0, []), [], LoadBase(Job0()));
    assert Next(s1, Label(0, Go)).pcs == map[0 := MapPages(Job0())];
  }

  lemma OpenMap(s: State)
    requires s == Opening(Shared(None, 0, 0, []), [], MapPages(Job0()))
    ensures Next(s, Label(0, Map(Parsed(64), true))) ==
            Opening(Shared(None, 0, 0, [Region(seq(64, i => EMPTY), true)]), [0], CasBase(Job0(), 0, 64))
  {
    Limits();
    NextPowerIsLeast(64, 64);
    hide NextPowerOfTwo;
    assert Next(s, Label(0, Map(Parsed(64), true))).pcs == map[0 := CasBase(Job0(), 0, 64)];
  }

  lemma OpenInstall(s: State)
    requires s == Opening(Shared(None, 0, 0, [Region(seq(64, i => EMPTY), true)]), [0], CasBase(Job0(), 0, 64))
    ensures Next(Next(s, Label(0, Go)), Label(0, Go)) == Opened()
  {
    var s1 := Next(s, Label(0, Go));
    assert s1.pcs == map[0 := StoreBuckets(Job0(), 0, 64)];
    assert Next(s1, Label(0, Go)).pcs == map[0 := StoreMask(Job0(), 0, 64)];
  }

  lemma OpenWindow()
    ensures Run(Init(), OPENING + [Label(0, Go)]) == Opened()
  {
    FourSteps(Init(), OPENING);
    RunOne(Init(), OPENING, Label(0, Go));
    hide *;
    OpenStart();
    OpenMap(Opening(Shared(None, 0, 0, []), [], MapPages(Job0())));
    OpenInstall(Opening(Shared(None, 0, 0, [Region(seq(64, i => EMPTY), true)]), [0], CasBase(Job0(), 0, 64)));
  }

  // A call that obtains the table inside the window looks at bucket 0, with mask 0.
  ghost function StaleProbe(ev: nat, trace: Frames, h: u64): Probe {
    Probe(ev, trace, 1, 0, 0, h, 0, 0)
  }

  lemma EnterStale(s: State, u: Tid, trace: Frames, h: u64) returns (labels: seq<Label>)
    requires s.sh.base == Some(0) && s.sh.mask == 0 && At(s, u) == Idle
    requires trace.Valid() && trace.count > 0 && h == Hash(trace.frames, trace.count)
    ensures Run(s, labels) == Goto(WithEvent(s, Event(u, trace, 1, Some(0), Waiting)), u,
                                   LoadHash(StaleProbe(|s.hist.events|, trace, h)))
  {
    AndMask(h, 0);
    assert Pow2(0) == 1;
    hide Run, Hash, And;
    labels := EnterNow(s, u, trace, 1);
  }

  lemma StaleClaims(s: State, u: Tid, ev: nat, trace: Frames, h: u64)
    requires s.sh == Window(seq(64, i => EMPTY), 0) && At(s, u) == LoadHash(StaleProbe(ev, trace, h)) && h != 0
    ensures var s' := Next(Next(s, Label(u, Go)), Label(u, Go));
            && s'.sh == Window(Cells(h), 0) && s'.hist.claims == s.hist.claims[0 := ev]
            && s'.hist.events == SetFate(s, ev, Landed(0, false, false)).hist.events
            && (forall v :: v != u ==> At(s', v) == At(s, v))
  {
    var p, cells := StaleProbe(ev, trace, h), seq(64, i => EMPTY);
    assert Accessible(s.sh, 0, 0) && CellAt(s.sh, 0, 0) == EMPTY;
    var s1 := Next(s, Label(u, Go));
    assert s1 == Goto(s, u, CasHash(p));
    hide Hash;
    assert PutCell(s1.sh, 0, 0, EMPTY.(hash := h)) == Window(cells[0 := EMPTY.(hash := h)], 0);
  }

  lemma StaleDrops(s: State, u: Tid, ev: nat, trace: Frames, h: u64, first: u64)
    requires s.sh == Window(Cells(first), 0) && At(s, u) == LoadHash(StaleProbe(ev, trace, h)) && h != first && first != 0
    ensures Next(s, Label(u, Go)) == Goto(SetFate(s, ev, Dropped), u, Idle)
  {
    assert Accessible(s.sh, 0, 0) && CellAt(s.sh, 0, 0).hash == first;
    assert And(1, 0) == 0;
    hide And, Hash;
  }

  lemma WindowCloses(s: State, cells: seq<Bucket>)
    requires s.sh == Window(cells, 0) && At(s, 0) == StoreMask(Job0(), 0, 64) && |s.hist.events| > 0
    ensures var s' := Next(s, Label(0, Go));
            && s'.sh == Window(cells, 63) && s'.hist.claims == s.hist.claims && |s'.hist.events| == |s.hist.events|
            && (forall k :: 0 < k < |s.hist.events| ==> s'.hist.events[k] == s.hist.events[k])
            && (forall v :: v != 0 ==> At(s', v) == At(s, v))
  {
    hide And, Hash;
  }

  // After the window closes: bucket 0 was claimed with a stale mask, event 2 was dropped, and 63 buckets are empty.
  ghost predicate AfterWindow(s: State) {
    && Reachable(s) && s.sh == Window(Cells(KEY_ONE), 63) && StaleClaim(s)
    && At(s, 3) == Idle && |s.hist.events| > 2
    && s.hist.events[2] == Event(2, TWO, 1, Some(0), Dropped)
  }

  // Thread 1 has entered inside the window.
  ghost function Entered(): State {
    Goto(WithEvent(Opened(), Event(1, ONE, 1, Some(0), Waiting)), 1, LoadHash(StaleProbe(1, ONE, KEY_ONE)))
  }

  lemma EnteredIs()
    ensures Entered().sh == Window(seq(64, i => EMPTY), 0) && Entered().hist.claims == map[]
    ensures At(Entered(), 1) == LoadHash(StaleProbe(1, ONE, KEY_ONE)) && At(Entered(), 0) == StoreMask(Job0(), 0, 64)
    ensures At(Entered(), 2) == Idle && At(Entered(), 3) == Idle
    ensures SetFate(Entered(), 1, Landed(0, false, false)).hist.events ==
            [Event(0, ONE, 1, None, Waiting), Event(1, ONE, 1, Some(0), Landed(0, false, false))]
  {
  }

  lemma EnterOpened() returns (labels: seq<Label>)
    ensures Run(Init(), labels) == Entered()
  {
    OpenWindow();
    Keys();
    var enter := EnterStale(Opened(), 1, ONE, KEY_ONE);
    labels := OPENING + [Label(0, Go)] + enter;
    hide Run, Hash, Goto, WithEvent;
    RunTwice(Init(), OPENING + [Label(0, Go)], enter);
  }

  lemma ClaimInWindow() returns (labels: seq<Label>)
    ensures var s := Run(Init(), labels);
            && s.sh == Window(Cells(KEY_ONE), 0) && s.hist.claims == map[0 := 1]
            && s.hist.events == [Event(0, ONE, 1, None, Waiting), Event(1, ONE, 1, Some(0), Landed(0, false, false))]
            && At(s, 0) == StoreMask(Job0(), 0, 64) && At(s, 2) == Idle && At(s, 3) == Idle
  {
    var before := EnterOpened();
    EnteredIs();
    assert map[][0 := 1] == map[0 := 1];
    assert KEY_ONE != 0;
    hide *;
    RunOne(Init(), before, Label(1, Go));
    RunOne(Init(), before + [Label(1, Go)], Label(1, Go));
    StaleClaims(Entered(), 1, 1, ONE, KEY_ONE);
    labels := before + [Label(1, Go)] + [Label(1, Go)];
  }

  lemma DropInWindow() returns (labels: seq<Label>)
    ensures AfterWindow(Run(Init(), labels))
  {
    var before := ClaimInWindow();
    var s := Run(Init(), before);
    Keys();
    hide Run, Hash, Next;
    var enter := EnterStale(s, 2, TWO, KEY_TWO);
    RunTwice(Init(), before, enter);
    var s1 := Run(Init(), before + enter);
    RunOne(Init(), before + enter, Label(2, Go));
    RunOne(Init(), before + enter + [Label(2, Go)], Label(0, Go));
    StaleDrops(s1, 2, 2, TWO, KEY_TWO, KEY_ONE);
    WindowCloses(Next(s1, Label(2, Go)), Cells(KEY_ONE));
    labels := before + enter + [Label(2, Go)] + [Label(0, Go)];
    assert Reachable(Run(Init(), labels));
  }

  /** Uniqueness fails in some run: two buckets hold the same hash. */
  lemma UniquenessFails() returns (labels: seq<Label>)
    ensures Duplicated(Run(Init(), labels))
  {
    var first := DropInWindow();
    var s := Run(Init(), first);
    var table := Table(s.sh);
    hide Run;
    assert |table| == 64 && table[0].hash == KEY_ONE && table[21] == EMPTY;
    assert Home(KEY_ONE, 64) == 21;
    assert !Duplicated(s);
    assert RoomAhead(table, KEY_ONE);
    var more := RoomGivesDuplicate(s, 3);
    RunTwice(Init(), first, more);
    labels := first + more;
  }

  /** All-or-nothing drops fail in some run: an event is dropped, and another with its hash is tallied later. */
  lemma DropsAreNotAlwaysFinal() returns (labels: seq<Label>)
    ensures var s := Run(Init(), labels);
            && |s.hist.events| > 2 && s.hist.events[2].fate == Dropped && s.hist.events[2].trace.Valid()
            && !NeverTallied(s, s.hist.events[2].Key())
  {
    labels := DropInWindow();
    var s := Run(Init(), labels);
    hide Run, Hash;
    assert Table(s.sh)[1] == EMPTY;
    assert !Other(Table(s.sh), s.hist.events[2].Key(), 1);
    DropIsFinalExactlyWhen(s, 2, 3);
  }
}
