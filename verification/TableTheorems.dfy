/** What holds in every run of the table machine. */
module TableTheorems {
  import opened Wrappers
  import opened Words
  import opened FrameHash
  import opened StackWalk
  import opened TableSize
  import opened TableMachine
  import opened TableInvariant
  import opened TableStable
  import opened TablePreserve
  import opened TableScanSteps
  import opened TableInitSteps

  /** Some interleaving of some threads' steps leads here from process start. */
  ghost predicate Reachable(s: State) {
    exists labels :: s == Run(Init(), labels)
  }

  lemma ReachableOk(s: State)
    requires Reachable(s)
    ensures Inv(s)
  {
    var labels :| s == Run(Init(), labels);
    hide Run;
    InitOk();
    RunOk(Init(), labels);
    hide Inv;
  }

  lemma RunReachable(s: State, labels: seq<Label>)
    requires Reachable(s)
    ensures Reachable(Run(s, labels)) && Keeps(s, Run(s, labels))
  {
    var before :| s == Run(Init(), before);
    hide Run;
    RunTwice(Init(), before, labels);
    ReachableOk(s);
    hide Inv, Keeps;
    RunOk(s, labels);
  }

  // Memory safety and the installed region.

  // The buckets a thread may touch next lie inside the installed region, whatever mask it holds.
  ghost predicate InBounds(sh: Shared, pc: PC) {
    && (Recording(pc) ==>
          && sh.base == Some(pc.p.base) && pc.p.idx <= |Table(sh)| - 1
          && (pc.p.mask == 0 || pc.p.mask == |Table(sh)| - 1))
    && (Scanning(pc) ==> sh.base == Some(pc.r.base) && pc.r.i < |Table(sh)|)
  }

  /**
   No access is ever out of bounds or to a freed region, and no region is freed twice; this includes threads that
   obtained the table while its descriptor was only partly published.
   */
  lemma MemorySafe(s: State, t: Tid)
    requires Reachable(s)
    ensures !s.fault && InBounds(s.sh, At(s, t))
    ensures s.sh.base.Some? ==>
              && s.sh.base.value < |s.sh.regions| && s.sh.regions[s.sh.base.value].live
              && GoodSize(|Table(s.sh)|) && (s.sh.mask == 0 || s.sh.mask == |Table(s.sh)| - 1)
  {
    ReachableOk(s);
    SharedIs(s);
    assert ThreadOk(s.sh, s.hist, t, At(s, t));
    hide Inv, Reachable, ThreadOk, Table;
    ThreadInBounds(s.sh, s.hist, t, At(s, t));
  }

  lemma ThreadInBounds(sh: Shared, hist: Hist, t: Tid, pc: PC)
    requires ThreadOk(sh, hist, t, pc)
    ensures InBounds(sh, pc)
  {
    hide Table, Covered, RowsOk, PastOk, Hash, Pad;
  }

  /** When no call is in progress, the installed region is the only one still mapped; it stays installed for good. */
  lemma OneRegionAtRest(s: State, r: nat, labels: seq<Label>)
    requires Reachable(s) && Quiescent(s) && r < |s.sh.regions|
    ensures s.sh.base.Some?
    ensures s.sh.regions[r].live <==> s.sh.base == Some(r)
    ensures var s' := Run(s, labels); s'.sh.base == s.sh.base && s'.sh.base.value < |s'.sh.regions|
    ensures var s' := Run(s, labels); s'.sh.regions[s'.sh.base.value].live
  {
    ReachableOk(s);
    RunReachable(s, labels);
    hide Run;
    assert SharedOk(Run(s, labels).sh);
    assert At(s, s.hist.owners[r]) == Idle;
    assert s.sh.base.None? ==> RegionOf(At(s, s.hist.owners[r])) == Some(r);
  }

  // Where hashes sit.

  // Bucket 0 was claimed by a thread that read the mask before it was published.
  ghost predicate StaleClaim(s: State) {
    && 0 in s.hist.claims && s.hist.claims[0] < |s.hist.events|
    && s.hist.events[s.hist.claims[0]].mask == Some(0)
  }

  // Every event that obtained the table obtained its published mask.
  ghost predicate NoStaleMask(events: seq<Event>) {
    forall k :: 0 <= k < |events| ==> events[k].mask != Some(0)
  }

  /**
   A claimed bucket keeps its hash, and, unless it is bucket 0 claimed with a stale mask, every bucket cyclically
   between its home slot and itself holds another hash, now and in every continuation of the run.
   */
  lemma ProbePathHeld(s: State, i: nat, labels: seq<Label>)
    requires Reachable(s) && i < |Table(s.sh)| && Table(s.sh)[i].hash != 0
    ensures var after := Table(Run(s, labels).sh);
            && |after| == |Table(s.sh)| && after[i].hash == Table(s.sh)[i].hash
            && (i != 0 || !StaleClaim(s) ==> Covered(after, Table(s.sh)[i].hash, i))
  {
    ReachableOk(s);
    RunReachable(s, labels);
    hide Run;
    var before, after := Table(s.sh), Table(Run(s, labels).sh);
    assert CellOk(before, s.hist.events, s.hist.claims, i);
    assert CellGrows(before[i], after[i]);
    if i != 0 || !StaleClaim(s) {
      CoveredStays(before, after, before[i].hash, i);
    }
  }

  /**
   In every run, two buckets hold the same hash only if one of them is bucket 0 and it was claimed with a stale mask. So
   with published masks every hash occupies at most one bucket.
   */
  lemma AtMostOneBucket(s: State, i: nat, j: nat)
    requires Reachable(s) && i < j < |Table(s.sh)|
    requires Table(s.sh)[i].hash == Table(s.sh)[j].hash != 0
    ensures i == 0 && StaleClaim(s)
    ensures !NoStaleMask(s.hist.events)
  {
    ProbePathHeld(s, i, []);
    ProbePathHeld(s, j, []);
    hide Covered;
    NotBoth(Table(s.sh), i, j);
  }

  lemma NotBoth(table: seq<Bucket>, i: nat, j: nat)
    requires i < |table| && j < |table| && i != j && table[i].hash == table[j].hash
    ensures !(Covered(table, table[i].hash, i) && Covered(table, table[j].hash, j))
  {
    var h, n := table[i].hash, |table|;
    var home := Home(h, n);
    assert Distance(home, i, n) != Distance(home, j, n);
    assert !Other(table, h, i) && !Other(table, h, j);
  }

  // Drops.

  lemma EventReached(s: State, k: nat)
    requires Reachable(s) && k < |s.hist.events|
    ensures EventOk(Table(s.sh), s.hist.events[k])
  {
    ReachableOk(s);
  }

  /**
   Drops are all or nothing per hash: when an event that used the published mask has been dropped, the table is full of
   other hashes, and neither before nor in any continuation is an event with its hash ever tallied.
   */
  lemma DropsAreFinal(s: State, k: nat, labels: seq<Label>, m: nat)
    requires Reachable(s) && k < |s.hist.events|
    requires s.hist.events[k].fate == Dropped && s.hist.events[k].mask != Some(0)
    requires m < |Run(s, labels).hist.events|
    ensures s.hist.events[k].trace.Valid() && AllOther(Table(s.sh), s.hist.events[k].Key())
    ensures var e := Run(s, labels).hist.events[m];
            e.trace.Valid() && (e.Key() == s.hist.events[k].Key() ==> !e.fate.Landed?)
  {
    EventReached(s, k);
    RunReachable(s, labels);
    var s' := Run(s, labels);
    hide Run;
    EventReached(s', m);
    var h := s.hist.events[k].Key();
    hide Reachable, EventOk, Inv;
    AllOtherIs(Table(s.sh), s.hist.events[k]);
    AllOtherIs(Table(s'.sh), s'.hist.events[m]);
    AllOtherStays(Table(s.sh), Table(s'.sh), h);
    if s'.hist.events[m].fate.Landed? {
      assert Other(Table(s'.sh), h, s'.hist.events[m].fate.slot);
    }
  }

  lemma AllOtherIs(table: seq<Bucket>, e: Event)
    requires EventOk(table, e)
    ensures e.trace.Valid()
    ensures e.fate == Dropped && e.mask != Some(0) ==> table != [] && AllOther(table, e.Key())
    ensures e.fate.Landed? ==> e.fate.slot < |table| && table[e.fate.slot].hash == e.Key()
  {
  }

  // Conservation.

  function LandedOn(events: seq<Event>, slot: nat): nat {
    if events == [] then 0
    else
      var n := |events| - 1;
      LandedOn(events[..n], slot) + if events[n].fate.Landed? && events[n].fate.slot == slot then 1 else 0
  }

  function BytesOn(events: seq<Event>, slot: nat): nat {
    if events == [] then 0
    else
      var n := |events| - 1;
      BytesOn(events[..n], slot) + if events[n].fate.Landed? && events[n].fate.slot == slot then events[n].size else 0
  }

  // How many events ended in each way.
  function Fates(events: seq<Event>): (int, int, int) {
    if events == [] then (0, 0, 0)
    else
      var n := |events| - 1;
      var f, (landed, dropped, unplaced) := events[n].fate, Fates(events[..n]);
      (landed + if f.Landed? then 1 else 0, dropped + if f.Dropped? then 1 else 0,
       unplaced + if f.Unplaced? then 1 else 0)
  }

  ghost predicate AllSettled(events: seq<Event>) {
    forall k :: 0 <= k < |events| ==> Settled(events[k].fate)
  }

  lemma {:induction false} SettledTallies(events: seq<Event>, slot: nat)
    requires AllSettled(events)
    ensures Tally(events, slot) == LandedOn(events, slot) && Sum(events, slot) == BytesOn(events, slot)
    ensures var (landed, dropped, unplaced) := Fates(events); landed + dropped + unplaced == |events|
  {
    if events != [] {
      SettledTallies(events[..|events| - 1], slot);
    }
  }

  lemma QuietEvents(s: State)
    requires Reachable(s) && Quiescent(s)
    ensures AllSettled(s.hist.events)
    ensures forall i: nat :: i < |Table(s.sh)| && Table(s.sh)[i].hash != 0 ==> Table(s.sh)[i].frameCount != 0
  {
    ReachableOk(s);
    forall k: nat | k < |s.hist.events| ensures Settled(s.hist.events[k].fate) {
      assert At(s, s.hist.events[k].owner) == Idle;
    }
    var table := Table(s.sh);
    forall i: nat | i < |table| && table[i].hash != 0 ensures table[i].frameCount != 0 {
      assert CellOk(table, s.hist.events, s.hist.claims, i);
      assert At(s, s.hist.events[s.hist.claims[i]].owner) == Idle;
    }
  }

  /**
   No increment is lost. When no call is in progress, each bucket's count and byte total are, modulo 2^64, the number
   and the byte sum of exactly the events that landed on it, and every event has landed, was dropped, or found no table.
   */
  lemma NothingLost(s: State, i: nat)
    requires Reachable(s) && Quiescent(s)
    ensures i < |Table(s.sh)| ==>
              && Table(s.sh)[i].count == Wrap(LandedOn(s.hist.events, i))
              && Table(s.sh)[i].bytes == Wrap(BytesOn(s.hist.events, i))
              && (Table(s.sh)[i].hash != 0 ==> Table(s.sh)[i].frameCount != 0)
    ensures var (landed, dropped, unplaced) := Fates(s.hist.events);
            landed + dropped + unplaced == |s.hist.events|
  {
    ReachableOk(s);
    QuietEvents(s);
    SettledTallies(s.hist.events, i);
    if i < |Table(s.sh)| {
      assert CellOk(Table(s.sh), s.hist.events, s.hist.claims, i);
    }
  }

  /**
   At every moment, in every interleaving, each bucket's words are the tallies of what has been added to it so far.
   */
  lemma TalliesHeld(s: State, i: nat)
    requires Reachable(s) && i < |Table(s.sh)|
    ensures Table(s.sh)[i].count == Wrap(Tally(s.hist.events, i))
    ensures Table(s.sh)[i].bytes == Wrap(Sum(s.hist.events, i))
    ensures Table(s.sh)[i].frameCount != 0 ==> Tally(s.hist.events, i) >= 1
  {
    ReachableOk(s);
    assert CellOk(Table(s.sh), s.hist.events, s.hist.claims, i);
    hide Reachable, Inv, Wrap;
    if Table(s.sh)[i].frameCount != 0 {
      TallyOne(s.hist.events, s.hist.claims[i], i);
    }
  }

  // The table as a map from hashes to tallies.

  ghost predicate Keyed(events: seq<Event>) {
    forall k :: 0 <= k < |events| ==> events[k].trace.Valid()
  }

  // Events with hash h that obtained a table: how many, and how many bytes.

  ghost function CountOf(events: seq<Event>, h: u64): nat
    requires Keyed(events)
  {
    if events == [] then 0
    else
      var n := |events| - 1;
      CountOf(events[..n], h) + if events[n].Key() == h && events[n].fate != Unplaced then 1 else 0
  }

  ghost function BytesOf(events: seq<Event>, h: u64): nat
    requires Keyed(events)
  {
    if events == [] then 0
    else
      var n := |events| - 1;
      BytesOf(events[..n], h) + if events[n].Key() == h && events[n].fate != Unplaced then events[n].size else 0
  }

  // Exactly the placed events with hash h landed on slot i.
  ghost predicate AllOn(events: seq<Event>, h: u64, i: nat)
    requires Keyed(events)
  {
    forall k :: 0 <= k < |events| ==>
      (events[k].fate.Landed? && events[k].fate.slot == i <==> events[k].Key() == h && events[k].fate != Unplaced)
  }

  lemma {:induction false} AllOnTallies(events: seq<Event>, h: u64, i: nat)
    requires Keyed(events) && AllOn(events, h, i)
    ensures LandedOn(events, i) == CountOf(events, h) && BytesOn(events, i) == BytesOf(events, h)
  {
    if events != [] {
      AllOnTallies(events[..|events| - 1], h, i);
    }
  }

  /**
   With published masks, the table at rest is the exact aggregate of everything recorded: the bucket that holds hash h
   counts every event with hash h that obtained the table, and their bytes, modulo 2^64. And if no bucket holds h, then
   every such event was dropped, which happens only when the table is full.
   */
  lemma ExactAggregate(s: State, h: u64, i: nat, k: nat)
    requires Reachable(s) && Quiescent(s) && NoStaleMask(s.hist.events) && h != 0
    ensures Keyed(s.hist.events)
    ensures i < |Table(s.sh)| && Table(s.sh)[i].hash == h ==>
              && Table(s.sh)[i].count == Wrap(CountOf(s.hist.events, h))
              && Table(s.sh)[i].bytes == Wrap(BytesOf(s.hist.events, h))
    ensures k < |s.hist.events| && s.hist.events[k].Key() == h && s.hist.events[k].fate != Unplaced &&
            (forall j: nat :: j < |Table(s.sh)| ==> Table(s.sh)[j].hash != h) ==>
              s.hist.events[k].fate == Dropped && AllOther(Table(s.sh), h)
  {
    var table, events := Table(s.sh), s.hist.events;
    QuietEvents(s);
    forall m: nat | m < |events| ensures EventOk(table, events[m]) {
      EventReached(s, m);
    }
    assert Keyed(events) by {
      forall m: nat | m < |events| ensures events[m].trace.Valid() {
        assert EventOk(table, events[m]);
      }
    }
    if i < |table| && table[i].hash == h {
      LandsOnly(s, h, i);
      AllOnTallies(events, h, i);
      NothingLost(s, i);
    }
    if k < |events| {
      assert EventOk(table, events[k]);
    }
  }

  // Events that have landed are on bucket i exactly if they have hash h, and none with hash h was dropped.
  ghost predicate Sorted(events: seq<Event>, h: u64, i: nat)
    requires Keyed(events)
  {
    forall k :: 0 <= k < |events| ==>
      && (events[k].fate.Landed? ==> (events[k].fate.slot == i <==> events[k].Key() == h))
      && (events[k].fate.Dropped? ==> events[k].Key() != h)
  }

  lemma SortedHolds(s: State, h: u64, i: nat)
    requires Reachable(s) && NoStaleMask(s.hist.events) && Keyed(s.hist.events)
    requires i < |Table(s.sh)| && Table(s.sh)[i].hash == h && h != 0
    ensures Sorted(s.hist.events, h, i)
  {
    var table, events := Table(s.sh), s.hist.events;
    forall k: nat | k < |events|
      ensures events[k].fate.Landed? ==> (events[k].fate.slot == i <==> events[k].Key() == h)
      ensures events[k].fate.Dropped? ==> events[k].Key() != h
    {
      EventReached(s, k);
      AllOtherIs(table, events[k]);
      hide EventOk, Reachable;
      assert AllOther(table, h) ==> Other(table, h, i);
      if events[k].Key() == h && events[k].fate.Landed? && events[k].fate.slot != i {
        var j := events[k].fate.slot;
        AtMostOneBucket(s, if i < j then i else j, if i < j then j else i);
      }
    }
  }

  lemma LandsOnly(s: State, h: u64, i: nat)
    requires Reachable(s) && NoStaleMask(s.hist.events) && AllSettled(s.hist.events)
    requires Keyed(s.hist.events) && i < |Table(s.sh)| && Table(s.sh)[i].hash == h && h != 0
    ensures AllOn(s.hist.events, h, i)
  {
    SortedHolds(s, h, i);
    hide Reachable;
  }

  // In every run, stale masks or not.

  // How many events with hash h have landed, and how many bytes they have.

  ghost function LandedWith(events: seq<Event>, h: u64): nat
    requires Keyed(events)
  {
    if events == [] then 0
    else
      var n := |events| - 1;
      LandedWith(events[..n], h) + if events[n].Key() == h && events[n].fate.Landed? then 1 else 0
  }

  ghost function BytesWith(events: seq<Event>, h: u64): nat
    requires Keyed(events)
  {
    if events == [] then 0
    else
      var n := |events| - 1;
      BytesWith(events[..n], h) + if events[n].Key() == h && events[n].fate.Landed? then events[n].size else 0
  }

  // Events landed on bucket 0 or i if they have hash h, and only then on those of the two that hold h.
  ghost predicate OnTwo(events: seq<Event>, h: u64, i: nat, zero: bool, other: bool)
    requires Keyed(events)
  {
    forall k :: 0 <= k < |events| && events[k].fate.Landed? ==>
      (events[k].Key() == h <==> (events[k].fate.slot == 0 && zero) || (events[k].fate.slot == i && other))
  }

  lemma {:induction false} OnTwoTallies(events: seq<Event>, h: u64, i: nat, zero: bool, other: bool)
    requires Keyed(events) && i != 0 && OnTwo(events, h, i, zero, other)
    ensures (if zero then LandedOn(events, 0) else 0) + (if other then LandedOn(events, i) else 0) ==
            LandedWith(events, h)
    ensures (if zero then BytesOn(events, 0) else 0) + (if other then BytesOn(events, i) else 0) ==
            BytesWith(events, h)
  {
    if events != [] {
      OnTwoTallies(events[..|events| - 1], h, i, zero, other);
    }
  }

  lemma AllKeyed(s: State)
    requires Reachable(s)
    ensures Keyed(s.hist.events)
  {
    forall k: nat | k < |s.hist.events| ensures s.hist.events[k].trace.Valid() {
      EventReached(s, k);
    }
    hide Reachable;
  }

  // The only bucket other than 0 that may hold h.
  lemma OtherBucket(s: State, h: u64) returns (i: nat)
    requires Reachable(s) && Table(s.sh) != [] && h != 0
    ensures 0 < i < |Table(s.sh)|
    ensures forall j: nat :: 0 < j < |Table(s.sh)| && Table(s.sh)[j].hash == h ==> j == i
  {
    MemorySafe(s, 0);
    var table := Table(s.sh);
    if j: nat :| 0 < j < |table| && table[j].hash == h {
      i := j;
      forall k: nat | 0 < k < |table| && table[k].hash == h ensures k == i {
        if k != i {
          AtMostOneBucket(s, if i < k then i else k, if i < k then k else i);
        }
      }
    } else {
      i := 1;
    }
  }

  // What a bucket contributes to hash h.

  function CountFor(c: Bucket, h: u64): u64 {
    if c.hash == h then c.count else 0
  }

  function BytesFor(c: Bucket, h: u64): u64 {
    if c.hash == h then c.bytes else 0
  }

  /**
   In every run, also when masks were stale: the events with hash h landed on at most two buckets, one of them bucket 0;
   and at rest what those two hold adds up to all of them, and to all their bytes, modulo 2^64.
   */
  lemma TwoBucketsHoldAll(s: State, h: u64) returns (i: nat)
    requires Reachable(s) && Quiescent(s) && Table(s.sh) != [] && h != 0
    ensures 0 < i < |Table(s.sh)| && Keyed(s.hist.events)
    ensures forall j: nat :: 0 < j < |Table(s.sh)| && Table(s.sh)[j].hash == h ==> j == i
    ensures forall k :: 0 <= k < |s.hist.events| && s.hist.events[k].fate.Landed? && s.hist.events[k].Key() == h ==>
              s.hist.events[k].fate.slot == 0 || s.hist.events[k].fate.slot == i
    ensures Wrap(CountFor(Table(s.sh)[0], h) + CountFor(Table(s.sh)[i], h)) == Wrap(LandedWith(s.hist.events, h))
    ensures Wrap(BytesFor(Table(s.sh)[0], h) + BytesFor(Table(s.sh)[i], h)) == Wrap(BytesWith(s.hist.events, h))
  {
    hide *;
    i := OtherBucket(s, h);
    AllKeyed(s);
    NothingLost(s, 0);
    NothingLost(s, i);
    OnTwoHolds(s, h, i);
    var table, events := Table(s.sh), s.hist.events;
    var zero, other := table[0].hash == h, table[i].hash == h;
    OnTwoSlots(events, h, i, zero, other);
    OnTwoTallies(events, h, i, zero, other);
    Together(table[0], table[i], h, LandedOn(events, 0), LandedOn(events, i), BytesOn(events, 0), BytesOn(events, i));
  }

  lemma Together(c: Bucket, d: Bucket, h: u64, m: nat, n: nat, x: nat, y: nat)
    requires c.count == Wrap(m) && c.bytes == Wrap(x) && d.count == Wrap(n) && d.bytes == Wrap(y)
    ensures Wrap(CountFor(c, h) + CountFor(d, h)) ==
            Wrap((if c.hash == h then m else 0) + if d.hash == h then n else 0)
    ensures Wrap(BytesFor(c, h) + BytesFor(d, h)) ==
            Wrap((if c.hash == h then x else 0) + if d.hash == h then y else 0)
  {
    hide Wrap;
    WrapSum(if c.hash == h then m else 0, if d.hash == h then n else 0);
    WrapSum(if c.hash == h then x else 0, if d.hash == h then y else 0);
    Contribution(c, h, m, x);
    Contribution(d, h, n, y);
  }

  lemma OnTwoHolds(s: State, h: u64, i: nat)
    requires Reachable(s) && Keyed(s.hist.events) && 0 < i < |Table(s.sh)| && h != 0
    requires forall j: nat :: 0 < j < |Table(s.sh)| && Table(s.sh)[j].hash == h ==> j == i
    ensures OnTwo(s.hist.events, h, i, Table(s.sh)[0].hash == h, Table(s.sh)[i].hash == h)
  {
    var table, events := Table(s.sh), s.hist.events;
    forall k: nat | k < |events| && events[k].fate.Landed?
      ensures events[k].fate.slot < |table| && table[events[k].fate.slot].hash == events[k].Key()
    {
      EventReached(s, k);
      AllOtherIs(table, events[k]);
      hide EventOk, Reachable;
    }
    hide Reachable, Table;
  }

  lemma OnTwoSlots(events: seq<Event>, h: u64, i: nat, zero: bool, other: bool)
    requires Keyed(events) && OnTwo(events, h, i, zero, other)
    ensures forall k :: 0 <= k < |events| && events[k].fate.Landed? && events[k].Key() == h ==>
              events[k].fate.slot == 0 || events[k].fate.slot == i
  {
  }

  lemma WrapSum(x: nat, y: nat)
    ensures Wrap(Wrap(x) + Wrap(y)) == Wrap(x + y)
  {
    var q, r := (Wrap(x) + Wrap(y)) / TWO_64, Wrap(Wrap(x) + Wrap(y));
    ModUnique(x + y, TWO_64, x / TWO_64 + y / TWO_64 + q, r);
  }

  lemma Contribution(c: Bucket, h: u64, count: nat, bytes: nat)
    requires c.count == Wrap(count) && c.bytes == Wrap(bytes)
    ensures CountFor(c, h) == Wrap(if c.hash == h then count else 0)
    ensures BytesFor(c, h) == Wrap(if c.hash == h then bytes else 0)
  {
  }
}
