/** From recorded events to the document: what the report pipeline delivers end to end. */
module DhatReport {
  import opened Wrappers
  import opened Words
  import opened FrameHash
  import opened TableSize
  import opened TableMachine
  import opened TableInvariant
  import opened TablePreserve
  import opened TableTheorems
  import opened TableReports
  import opened TableCodeSteps
  import opened TableCode
  import Lossless = DhatLossless
  import Frames = DhatFrames

  // What was settled stays as it was.

  lemma {:induction false} SettledStays(a: seq<Event>, b: seq<Event>, slot: nat)
    requires EventsGrow(a, b) && |a| == |b| && AllSettled(a)
    ensures Tally(a, slot) == Tally(b, slot) && Sum(a, slot) == Sum(b, slot) && AllSettled(b)
  {
    if a != [] {
      var n := |a| - 1;
      SettledStays(a[..n], b[..n], slot);
      assert EventGrows(a[n], b[n]) && Settled(a[n].fate);
    }
  }

  lemma {:induction false} CountsStay(a: seq<Event>, b: seq<Event>, h: u64)
    requires Keyed(a) && Keyed(b) && EventsGrow(a, b) && |a| == |b| && AllSettled(a)
    ensures CountOf(a, h) == CountOf(b, h) && BytesOf(a, h) == BytesOf(b, h)
  {
    if a != [] {
      var n := |a| - 1;
      CountsStay(a[..n], b[..n], h);
      assert EventGrows(a[n], b[n]) && Settled(a[n].fate);
    }
  }

  lemma SortedBefore(a: seq<Event>, b: seq<Event>, h: u64, i: nat)
    requires Keyed(a) && Keyed(b) && EventsGrow(a, b) && AllSettled(a) && Sorted(b, h, i)
    ensures AllOn(a, h, i)
  {
    forall k | 0 <= k < |a|
      ensures a[k].fate.Landed? && a[k].fate.slot == i <==> a[k].Key() == h && a[k].fate != Unplaced
    {
      assert EventGrows(a[k], b[k]) && Settled(a[k].fate);
    }
  }

  // Tallies of a bucket come from events with its hash.
  lemma {:induction false} TalliesCount(events: seq<Event>, h: u64, i: nat)
    requires Keyed(events) && Sorted(events, h, i)
    ensures Tally(events, i) <= CountOf(events, h) && Sum(events, i) <= BytesOf(events, h)
  {
    if events != [] {
      TalliesCount(events[..|events| - 1], h, i);
    }
  }

  // The row shows at least everything recorded with its hash in a, and at most everything in b.
  ghost predicate ShowsBetween(a: seq<Event>, b: seq<Event>, row: CallSiteStats, n: nat, bytes: nat) {
    && Keyed(a) && Keyed(b) && |row.frames| == MAX_FRAMES
    && row.count == Wrap(n) && row.totalBytes == Wrap(bytes)
    && var h := Hash(row.frames, row.frameCount);
       CountOf(a, h) <= n <= CountOf(b, h) && BytesOf(a, h) <= bytes <= BytesOf(b, h)
  }

  lemma RowBetween(table: seq<Bucket>, a: seq<Event>, b: seq<Event>, since: Past, f: Found, h: u64)
    requires FoundOk(table, b, since, f) && since.events == a && AllSettled(a) && EventsGrow(a, b)
    requires Keyed(a) && Keyed(b) && Sorted(b, h, f.slot)
    requires |f.row.frames| == MAX_FRAMES && Hash(f.row.frames, f.row.frameCount) == h
    ensures ShowsBetween(a, b, f.row, f.tally, f.sum)
  {
    SortedBefore(a, b, h, f.slot);
    SettledTallies(a, f.slot);
    AllOnTallies(a, h, f.slot);
    TalliesCount(b, h, f.slot);
    hide Tally, Sum, CountOf, BytesOf, LandedOn, BytesOn, EventsGrow, AllSettled, Keyed, Sorted, AllOn, Hash, Wrap;
  }

  /**
   A report that begins while no call is in progress, while recorders race with it: each row counts, modulo 2^64, all
   events recorded before with the hash of its frames that obtained a table, and beyond them only such events recorded
   meanwhile; and likewise their bytes.
   */
  lemma ReportWhileRacing(before: State, labels: seq<Label>, j: nat, m: nat)
    requires Reachable(before) && Quiescent(before) && NoStaleMask(Run(before, labels).hist.events)
    requires var s := Run(before, labels);
             j < |s.hist.reports| && s.hist.reports[j].since == Begin(before) && m < |s.hist.reports[j].found|
    ensures var s := Run(before, labels);
            var f := s.hist.reports[j].found[m];
            ShowsBetween(before.hist.events, s.hist.events, f.row, f.tally, f.sum)
  {
    var s := Run(before, labels);
    RunReachable(before, labels);
    KeepsLater(before, s);
    QuietEvents(before);
    var f := s.hist.reports[j].found[m];
    RowReached(s, j, m);
    RowIsCoherent(s, j, m);
    AllKeyed(before);
    AllKeyed(s);
    hide *;
    SinceIs(before);
    var h := Table(s.sh)[f.slot].hash;
    FoundClaimed(Table(s.sh), s.hist.events, s.hist.reports[j].since, f);
    SortedHolds(s, h, f.slot);
    RowBetween(Table(s.sh), before.hist.events, s.hist.events, s.hist.reports[j].since, f, h);
  }

  lemma FoundClaimed(table: seq<Bucket>, events: seq<Event>, since: Past, f: Found)
    requires FoundOk(table, events, since, f)
    ensures f.slot < |table| && table[f.slot].hash != 0
  {
  }

  lemma SinceIs(s: State)
    ensures Begin(s).events == s.hist.events
  {
  }

  // The row shows everything recorded with its hash.
  ghost predicate ShowsAll(events: seq<Event>, row: CallSiteStats) {
    && Keyed(events) && |row.frames| == MAX_FRAMES
    && var h := Hash(row.frames, row.frameCount);
       row.count == Wrap(CountOf(events, h)) && row.totalBytes == Wrap(BytesOf(events, h))
  }

  /** In particular, if nothing is recorded meanwhile, the rows are the exact aggregate of everything recorded. */
  lemma ReportIsAggregate(before: State, labels: seq<Label>, j: nat, m: nat)
    requires Reachable(before) && Quiescent(before) && NoStaleMask(Run(before, labels).hist.events)
    requires |Run(before, labels).hist.events| == |before.hist.events|
    requires var s := Run(before, labels);
             j < |s.hist.reports| && s.hist.reports[j].since == Begin(before) && m < |s.hist.reports[j].found|
    ensures var s := Run(before, labels); ShowsAll(s.hist.events, s.hist.reports[j].found[m].row)
  {
    ReportWhileRacing(before, labels, j, m);
    var s := Run(before, labels);
    RunReachable(before, labels);
    KeepsLater(before, s);
    QuietEvents(before);
    hide *;
    var f := s.hist.reports[j].found[m];
    ShowsSame(before.hist.events, s.hist.events, f.row, f.tally, f.sum);
  }

  lemma ShowsSame(a: seq<Event>, b: seq<Event>, row: CallSiteStats, n: nat, bytes: nat)
    requires ShowsBetween(a, b, row, n, bytes) && EventsGrow(a, b) && |a| == |b| && AllSettled(a)
    ensures ShowsAll(b, row)
  {
    CountsStay(a, b, Hash(row.frames, row.frameCount));
    hide EventsGrow, AllSettled, CountOf, BytesOf, Keyed, Hash, Wrap;
  }

  lemma KeepsLater(s: State, s': State)
    requires Keeps(s, s')
    ensures Later(s, s') && EventsGrow(s.hist.events, s'.hist.events)
  {
    hide Inv;
  }

  lemma PublishedAtRest(s: State)
    requires Reachable(s) && Quiescent(s) && s.sh.base.Some?
    ensures s.sh.buckets != 0
  {
    ReachableOk(s);
    LinkedIs(s);
    assert At(s, s.hist.owners[s.sh.base.value]) == Idle;
    hide Inv;
  }

  /** And it is complete: every event that landed, of whichever thread, is behind a row with its hash. */
  lemma ReportIsComplete(before: State, labels: seq<Label>, j: nat, e: nat) returns (m: nat)
    requires Reachable(before) && Quiescent(before)
    requires var s := Run(before, labels); j < |s.hist.reports| && s.hist.reports[j].since == Begin(before)
    requires e < |before.hist.events| && before.hist.events[e].fate.Landed?
    ensures var s := Run(before, labels);
            && m < |s.hist.reports[j].found| && before.hist.events[e].trace.Valid()
            && var row := s.hist.reports[j].found[m].row;
               |row.frames| == MAX_FRAMES && Hash(row.frames, row.frameCount) == before.hist.events[e].Key()
  {
    var s := Run(before, labels);
    RunReachable(before, labels);
    hide Run;
    var slot, r := before.hist.events[e].fate.slot, s.hist.reports[j];
    KeepsLater(before, s);
    EventReached(before, e);
    QuietEvents(before);
    PublishedAtRest(before);
    ReachableOk(s);
    assert ReportOk(Table(s.sh), s.hist.events, r);
    hide Reachable, Inv, Keeps, CellOk;
    assert Lists(r.found, slot);
    m :| 0 <= m < |r.found| && r.found[m].slot == slot;
    RowIsCoherent(s, j, m);
    assert CellGrows(Table(before.sh)[slot], Table(s.sh)[slot]);
    hide Hash;
  }

  // A report's rows have the shape that the document builder expects.
  lemma ReportRows(m: State, since: Past, found: seq<Found>)
    requires Reachable(m) && Reported(m, since, found)
    ensures Frames.AreRows(Rows(found)) && |Rows(found)| <= MAX_BUCKETS
  {
    var k: nat := |m.hist.reports| - 1;
    RowsAreFew(m, k, 0, 0);
    forall i: nat | i < |found| ensures Frames.IsRow(Rows(found)[i]) {
      RowIsCoherent(m, k, i);
    }
    hide Reachable;
  }

  /**
   dhat_json_string, report and rendering together: the text determines exactly the rows of a report that began with the
   call, while the other threads went on recording.
   */
  method DhatJsonString(
    table: CallSiteTable, ghost t: Tid, setting: Setting, available: bool, cmd: string, pid: nat)
    returns (text: string, ghost found: seq<Found>)
    requires table.Valid() && At(table.m, t) == Idle
    modifies table
    ensures table.Valid() && At(table.m, t) == Idle && Later(old(table.m), table.m)
    ensures Reported(table.m, Begin(old(table.m)), found)
    ensures Frames.AreRows(Rows(found)) && Lossless.Decode(text) == Some(Lossless.RowSites(Rows(found)))
  {
    hide Run, Later, Reported, Begin;
    var rows;
    rows, found := table.CallSitesReport(t, setting, available);
    ReachableAfter(table.run);
    ReportRows(table.m, Begin(old(table.m)), found);
    text := Lossless.DhatJsonString(rows, cmd, pid);
  }
}
