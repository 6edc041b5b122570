/** What a thread knows survives the steps of the other threads. */
module TableStable {
  import opened Words
  import opened TableSize
  import opened TableMachine
  import opened TableInvariant

  lemma CoveredStays(a: seq<Bucket>, b: seq<Bucket>, h: u64, slot: nat)
    requires TableGrows(a, b) && slot < |a| && Covered(a, h, slot)
    ensures Covered(b, h, slot)
  {
    var home := Home(h, |a|);
    forall i: nat | i < |b| && Distance(home, i, |b|) < Distance(home, slot, |b|) ensures Other(b, h, i) {
      assert Other(a, h, i) && CellGrows(a[i], b[i]);
    }
  }

  lemma AllOtherStays(a: seq<Bucket>, b: seq<Bucket>, h: u64)
    requires TableGrows(a, b) && a != [] && AllOther(a, h)
    ensures AllOther(b, h)
  {
    forall i: nat | i < |b| ensures Other(b, h, i) {
      assert Other(a, h, i) && CellGrows(a[i], b[i]);
    }
  }

  lemma EventStays(a: seq<Bucket>, b: seq<Bucket>, e: Event)
    requires TableGrows(a, b) && EventOk(a, e)
    ensures EventOk(b, e)
  {
    match e.fate
    case Dropped =>
      if e.mask.value == 0 {
        assert CellGrows(a[0], b[0]);
      } else {
        AllOtherStays(a, b, e.Key());
      }
    case Landed(slot, _, _) => assert CellGrows(a[slot], b[slot]);
    case _ =>
  }

  // A bucket that did not change stays in order when its tally did not change either.
  lemma CellStays(a: seq<Bucket>, b: seq<Bucket>, e: seq<Event>, f: seq<Event>, c: map<nat, nat>, d: map<nat, nat>, i: nat)
    requires TableGrows(a, b) && EventsGrow(e, f) && i < |a| && a[i] == b[i]
    requires i in c <==> i in d
    requires i in c ==> d[i] == c[i]
    requires Tally(f, i) == Tally(e, i) && Sum(f, i) == Sum(e, i)
    requires CellOk(a, e, c, i)
    ensures CellOk(b, f, d, i)
  {
    if a[i].hash != 0 {
      assert EventGrows(e[c[i]], f[c[i]]);
      if e[c[i]].mask.value != 0 || i != 0 {
        CoveredStays(a, b, a[i].hash, i);
      }
    }
  }

  lemma TableGrowsTwice(a: seq<Bucket>, b: seq<Bucket>, c: seq<Bucket>)
    requires TableGrows(a, b) && TableGrows(b, c)
    ensures TableGrows(a, c)
  {
    if a != [] {
      forall i | 0 <= i < |a| ensures CellGrows(a[i], c[i]) {
        assert CellGrows(a[i], b[i]) && CellGrows(b[i], c[i]);
      }
    }
  }

  lemma EventsGrowTwice(a: seq<Event>, b: seq<Event>, c: seq<Event>)
    requires EventsGrow(a, b) && EventsGrow(b, c)
    ensures EventsGrow(a, c)
  {
    forall k | 0 <= k < |a| ensures EventGrows(a[k], c[k]) {
      assert EventGrows(a[k], b[k]) && EventGrows(b[k], c[k]);
    }
  }

  lemma LaterTwice(s: State, s1: State, s2: State)
    requires Later(s, s1) && Later(s1, s2)
    ensures Later(s, s2)
  {
    TableGrowsTwice(Table(s.sh), Table(s1.sh), Table(s2.sh));
    EventsGrowTwice(s.hist.events, s1.hist.events, s2.hist.events);
  }

  lemma PastStays(s: State, s': State, since: Past)
    requires Later(s, s') && PastOk(s.sh, s.hist, since)
    ensures PastOk(s'.sh, s'.hist, since)
  {
    TableGrowsTwice(since.table, Table(s.sh), Table(s'.sh));
    EventsGrowTwice(since.events, s.hist.events, s'.hist.events);
  }

  lemma RowsStay(a: seq<Bucket>, b: seq<Bucket>, e: seq<Event>, f: seq<Event>, since: Past, found: seq<Found>, n: nat)
    requires TableGrows(a, b) && EventsGrow(e, f)
    requires RowsOk(a, e, since, found, n)
    ensures RowsOk(b, f, since, found, n)
  {
    forall k | 0 <= k < |found| ensures FoundOk(b, f, since, found[k]) && found[k].slot < n {
      var x := found[k];
      assert FoundOk(a, e, since, x);
      assert CellGrows(a[x.slot], b[x.slot]);
      TallyGrows(e, f, x.slot);
    }
  }

  lemma ReportsStay(s: State, s': State)
    requires Later(s, s') && ReportsOk(s.sh, s.hist)
    ensures forall k :: 0 <= k < |s.hist.reports| ==> ReportOk(Table(s'.sh), s'.hist.events, s.hist.reports[k])
    ensures forall k :: 0 <= k < |s.hist.reports| && s.hist.reports[k].found != [] ==> s'.sh.buckets != 0
  {
    var a, b := Table(s.sh), Table(s'.sh);
    forall k | 0 <= k < |s.hist.reports| ensures ReportOk(b, s'.hist.events, s.hist.reports[k]) {
      var r := s.hist.reports[k];
      assert ReportOk(a, s.hist.events, r);
      RowsStay(a, b, s.hist.events, s'.hist.events, r.since, r.found, |a|);
    }
  }

  // One lemma for each family of program counters. In all of them u is another thread than t.

  lemma JobStays(s: State, s': State, t: Tid, u: Tid, job: Job)
    requires Evolves(s, s', t) && u != t && JobOk(s.sh, s.hist, u, job)
    ensures JobOk(s'.sh, s'.hist, u, job)
  {
    match job
    case RecordJob(ev, _, _) => assert s'.hist.events[ev] == s.hist.events[ev];
    case ReportJob(since) => PastStays(s, s', since);
  }

  lemma InitStays(s: State, s': State, t: Tid, u: Tid, pc: PC)
    requires Evolves(s, s', t) && u != t && ThreadOk(s.sh, s.hist, u, pc) && SharedOk(s.sh)
    requires !Recording(pc) && !Scanning(pc)
    ensures ThreadOk(s'.sh, s'.hist, u, pc)
  {
    if !pc.Idle? {
      JobStays(s, s', t, u, pc.job);
    }
  }

  lemma ProbeStays(s: State, s': State, t: Tid, u: Tid, p: Probe, fate: Fate)
    requires Evolves(s, s', t) && u != t && ProbeIs(s.sh, s.hist, u, p, fate)
    ensures ProbeIs(s'.sh, s'.hist, u, p, fate)
    ensures CellGrows(Table(s.sh)[p.idx], Table(s'.sh)[p.idx])
  {
    assert s'.hist.events[p.ev] == s.hist.events[p.ev];
  }

  lemma ClaimingStays(s: State, s': State, t: Tid, u: Tid, p: Probe, fate: Fate, k: nat)
    requires Evolves(s, s', t) && u != t && Claiming(s.sh, s.hist, u, p, fate, k)
    ensures Claiming(s'.sh, s'.hist, u, p, fate, k)
  {
    ProbeStays(s, s', t, u, p, fate);
    assert s.hist.events[s.hist.claims[p.idx]].owner == u;
    assert Table(s'.sh)[p.idx].frames == Table(s.sh)[p.idx].frames;
  }

  lemma RecordingStays(s: State, s': State, t: Tid, u: Tid, pc: PC)
    requires Evolves(s, s', t) && u != t && ThreadOk(s.sh, s.hist, u, pc)
    requires Recording(pc)
    ensures ThreadOk(s'.sh, s'.hist, u, pc)
  {
    var p := pc.p;
    match pc
    case LoadHash(_) => SearchingStays(s, s', t, u, p);
    case CasHash(_) => SearchingStays(s, s', t, u, p);
    case StoreFrame(_, k) => ClaimingStays(s, s', t, u, p, Landed(p.idx, false, false), k);
    case ClaimCount(_) => ClaimingStays(s, s', t, u, p, Landed(p.idx, false, false), p.trace.count);
    case ClaimBytes(_) => ClaimingStays(s, s', t, u, p, Landed(p.idx, true, false), p.trace.count);
    case Publish(_) => ClaimingStays(s, s', t, u, p, Landed(p.idx, true, true), p.trace.count);
    case HitCount(_) => ProbeStays(s, s', t, u, p, Landed(p.idx, false, false));
    case HitBytes(_) => ProbeStays(s, s', t, u, p, Landed(p.idx, true, false));
  }

  lemma SearchingStays(s: State, s': State, t: Tid, u: Tid, p: Probe)
    requires Evolves(s, s', t) && u != t && ProbeIs(s.sh, s.hist, u, p, Waiting) && Searching(s.sh, p)
    ensures ProbeIs(s'.sh, s'.hist, u, p, Waiting) && Searching(s'.sh, p)
  {
    ProbeStays(s, s', t, u, p, Waiting);
    if p.mask != 0 {
      CoveredStays(Table(s.sh), Table(s'.sh), p.h, p.idx);
    }
  }

  lemma ScanStays(s: State, s': State, r: Scan)
    requires Later(s, s') && ScanOk(s.sh, s.hist, r)
    ensures ScanOk(s'.sh, s'.hist, r)
    ensures CellGrows(Table(s.sh)[r.i], Table(s'.sh)[r.i])
  {
    PastStays(s, s', r.since);
    RowsStay(Table(s.sh), Table(s'.sh), s.hist.events, s'.hist.events, r.since, r.found, r.i);
  }

  lemma ScanningStays(s: State, s': State, t: Tid, u: Tid, pc: PC)
    requires Evolves(s, s', t) && u != t && ThreadOk(s.sh, s.hist, u, pc)
    requires Scanning(pc)
    ensures ThreadOk(s'.sh, s'.hist, u, pc)
  {
    ScanStays(s, s', pc.r);
    TallyGrows(s.hist.events, s'.hist.events, pc.r.i);
  }

  lemma ThreadStays(s: State, s': State, t: Tid, u: Tid)
    requires Evolves(s, s', t) && u != t && SharedOk(s.sh) && ThreadOk(s.sh, s.hist, u, At(s, u))
    ensures ThreadOk(s'.sh, s'.hist, u, At(s', u))
  {
    var pc := At(s, u);
    if Recording(pc) {
      RecordingStays(s, s', t, u, pc);
    } else if Scanning(pc) {
      ScanningStays(s, s', t, u, pc);
    } else {
      InitStays(s, s', t, u, pc);
    }
  }
}
