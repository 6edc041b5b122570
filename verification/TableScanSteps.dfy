/** The steps of a report keep the invariant: what is read while recorders race is coherent. */
module TableScanSteps {
  import opened Words
  import opened FrameHash
  import opened StackWalk
  import opened TableMachine
  import opened TableInvariant
  import opened TablePreserve

  // A report holds no event, no claim and no region.
  lemma ScanMoved(s: State, t: Tid, next: PC)
    requires Inv(s) && Scanning(At(s, t)) && Scanning(next)
    requires ThreadOk(s.sh, s.hist, t, next)
    ensures Keeps(s, Goto(s, t, next))
  {
    hide Inv, Keeps, ThreadOk;
    Moved(s, t, next);
  }

  lemma ScanFinished(s: State, t: Tid, r: Scan, found: seq<Found>)
    requires Inv(s) && Scanning(At(s, t)) && ScanOk(s.sh, s.hist, r)
    requires RowsOk(Table(s.sh), s.hist.events, r.since, found, r.i + 1) && r.i + 1 == r.buckets
    ensures Keeps(s, Finish(s, t, r.since, found))
  {
    hide Inv, Keeps, RowsOk;
    FinishedOk(s, t, r.since, found);
  }

  // Bucket i was skipped or its row was added: the scan goes on to bucket i + 1.
  lemma ScanOnOk(s: State, t: Tid, r: Scan, found: seq<Found>)
    requires Inv(s) && Scanning(At(s, t)) && ScanOk(s.sh, s.hist, r)
    requires RowsOk(Table(s.sh), s.hist.events, r.since, found, r.i + 1)
    ensures Keeps(s, ScanOn(s, t, r.(found := found)))
  {
    if r.i + 1 < r.buckets {
      var q := r.(found := found, i := r.i + 1);
      assert ScanOk(s.sh, s.hist, q) by {
        hide RowsOk, PastOk;
      }
      hide *;
      ScanMoves(s.sh, s.hist, t, q);
      ScanMoved(s, t, ScanHash(q));
      ScanOnIs(s, t, r, found);
    } else {
      hide Inv, Keeps, RowsOk;
      ScanFinished(s, t, r, found);
    }
  }

  lemma ScanMoves(sh: Shared, hist: Hist, t: Tid, q: Scan)
    requires ScanOk(sh, hist, q)
    ensures ThreadOk(sh, hist, t, ScanHash(q)) && Scanning(ScanHash(q))
  {
  }

  lemma ScanOnIs(s: State, t: Tid, r: Scan, found: seq<Found>)
    requires r.i + 1 < r.buckets
    ensures ScanOn(s, t, r.(found := found)) == Goto(s, t, ScanHash(r.(found := found, i := r.i + 1)))
  {
  }

  // A bucket that is not published now was not published when the report began.
  lemma SkipOk(s: State, t: Tid, r: Scan)
    requires Inv(s) && Scanning(At(s, t)) && ScanOk(s.sh, s.hist, r)
    requires Table(s.sh)[r.i].frameCount == 0
    ensures Keeps(s, ScanOn(s, t, r))
  {
    SkipRows(s.sh, s.hist, r);
    hide *;
    ScanOnOk(s, t, r, r.found);
    SameScan(r);
  }

  lemma SameScan(r: Scan)
    ensures r.(found := r.found) == r
  {
  }

  lemma SkipRows(sh: Shared, hist: Hist, r: Scan)
    requires ScanOk(sh, hist, r) && Table(sh)[r.i].frameCount == 0
    ensures RowsOk(Table(sh), hist.events, r.since, r.found, r.i + 1)
  {
    var table, past := Table(sh), r.since.table;
    assert r.i < |past| ==> CellGrows(past[r.i], table[r.i]);
  }

  // An unclaimed bucket is not published.
  lemma Unclaimed(s: State, i: nat)
    requires Inv(s) && i < |Table(s.sh)| && Table(s.sh)[i].hash == 0
    ensures Table(s.sh)[i].frameCount == 0
  {
    assert CellOk(Table(s.sh), s.hist.events, s.hist.claims, i);
  }

  // A published bucket holds between 1 and 8 frames, and at least one event has been counted in it.
  lemma PublishedRow(s: State, i: nat)
    requires Inv(s) && i < |Table(s.sh)| && Table(s.sh)[i].frameCount != 0
    ensures 0 < Table(s.sh)[i].frameCount <= MAX_FRAMES && |Table(s.sh)[i].frames| == MAX_FRAMES
    ensures Table(s.sh)[i].frames == Pad(Table(s.sh)[i].frames[..Table(s.sh)[i].frameCount])
    ensures Table(s.sh)[i].hash != 0
    ensures Tally(s.hist.events, i) >= 1
    ensures Table(s.sh)[i].count == Wrap(Tally(s.hist.events, i))
    ensures Table(s.sh)[i].bytes == Wrap(Sum(s.hist.events, i))
  {
    var c := Table(s.sh)[i];
    assert CellOk(Table(s.sh), s.hist.events, s.hist.claims, i);
    hide Inv;
    var k := s.hist.claims[i];
    TallyOne(s.hist.events, k, i);
    PrefixOf(s.hist.events[k].trace, c.frames);
  }

  lemma PrefixOf(trace: Frames, frames: seq<u64>)
    requires trace.Valid() && frames == Prefix(trace, trace.count)
    ensures frames == Pad(frames[..trace.count]) && |frames| == MAX_FRAMES
  {
    assert frames[..trace.count] == trace.frames[..trace.count];
  }

  // The read of one more frame.
  lemma FrameRead(c: Bucket, n: nat, j: nat, frames: seq<u64>)
    requires |c.frames| == MAX_FRAMES && j < n <= MAX_FRAMES && frames == Pad(c.frames[..j])
    ensures |frames| == MAX_FRAMES && frames[j := c.frames[j]] == Pad(c.frames[..j + 1])
  {
    PadNext(c.frames[..j], c.frames[j]);
    assert c.frames[..j] + [c.frames[j]] == c.frames[..j + 1];
  }

  lemma ScanHashOk(s: State, t: Tid, r: Scan)
    requires Inv(s) && At(s, t) == ScanHash(r) && ScanOk(s.sh, s.hist, r)
    ensures Keeps(s, if Table(s.sh)[r.i].hash == 0 then ScanOn(s, t, r) else Goto(s, t, ScanFrameCount(r)))
  {
    hide Inv, Keeps;
    if Table(s.sh)[r.i].hash == 0 {
      Unclaimed(s, r.i);
      SkipOk(s, t, r);
    } else {
      ScanMoved(s, t, ScanFrameCount(r));
    }
  }

  lemma ScanFrameCountOk(s: State, t: Tid, r: Scan)
    requires Inv(s) && At(s, t) == ScanFrameCount(r) && ScanOk(s.sh, s.hist, r)
    ensures var c := Table(s.sh)[r.i];
            Keeps(s, if c.frameCount == 0 then ScanOn(s, t, r)
                     else Goto(s, t, ScanFrame(r, Clamp8(c.frameCount), 0, ZEROS)))
  {
    hide Inv, Keeps;
    var c := Table(s.sh)[r.i];
    if c.frameCount == 0 {
      SkipOk(s, t, r);
    } else {
      PublishedRow(s, r.i);
      assert Pad(c.frames[..0]) == ZEROS;
      ScanMoved(s, t, ScanFrame(r, Clamp8(c.frameCount), 0, ZEROS));
    }
  }

  lemma ScanFrameOk(s: State, t: Tid, r: Scan, n: nat, j: nat, frames: seq<u64>)
    requires Inv(s) && At(s, t) == ScanFrame(r, n, j, frames) && ThreadOk(s.sh, s.hist, t, At(s, t))
    ensures r.i < |Table(s.sh)|
    ensures j < n && j < |frames| && j < |Table(s.sh)[r.i].frames|
    ensures var read := frames[j := Table(s.sh)[r.i].frames[j]];
            Keeps(s, Goto(s, t, if j + 1 < n then ScanFrame(r, n, j + 1, read) else ScanCount(r, n, read)))
  {
    hide Inv, Keeps, Pad;
    var c := Table(s.sh)[r.i];
    FrameRead(c, n, j, frames);
    var read := frames[j := c.frames[j]];
    ScanMoved(s, t, if j + 1 < n then ScanFrame(r, n, j + 1, read) else ScanCount(r, n, read));
  }

  lemma ScanCountOk(s: State, t: Tid, r: Scan, n: nat, frames: seq<u64>)
    requires Inv(s) && At(s, t) == ScanCount(r, n, frames) && ThreadOk(s.sh, s.hist, t, At(s, t))
    ensures r.i < |Table(s.sh)|
    ensures Keeps(s, Goto(s, t, ScanBytes(r, n, frames, Table(s.sh)[r.i].count, Tally(s.hist.events, r.i))))
  {
    hide Inv, Keeps, Pad;
    PublishedRow(s, r.i);
    TallyGrows(r.since.events, s.hist.events, r.i);
    ScanMoved(s, t, ScanBytes(r, n, frames, Table(s.sh)[r.i].count, Tally(s.hist.events, r.i)));
  }

  // The new row is sound and completes the rows below bucket i + 1.
  lemma RowAdded(table: seq<Bucket>, events: seq<Event>, since: Past, found: seq<Found>, i: nat, f: Found)
    requires RowsOk(table, events, since, found, i) && FoundOk(table, events, since, f) && f.slot == i
    ensures RowsOk(table, events, since, found + [f], i + 1)
  {
    var all := found + [f];
    forall k: nat | k < i + 1 && k < |since.table| && since.table[k].frameCount != 0 ensures Lists(all, k) {
      if k == i {
        assert all[|found|].slot == k;
      } else {
        assert Lists(found, k);
        var m :| 0 <= m < |found| && found[m].slot == k;
        assert all[m].slot == k;
      }
    }
  }

  lemma RowFound(s: State, t: Tid, r: Scan, n: nat, frames: seq<u64>, count: u64, tally: nat)
    requires Inv(s) && At(s, t) == ScanBytes(r, n, frames, count, tally) && ThreadOk(s.sh, s.hist, t, At(s, t))
    ensures r.i < |Table(s.sh)|
    ensures var row := CallSiteStats(frames, n, count, Table(s.sh)[r.i].bytes);
            FoundOk(Table(s.sh), s.hist.events, r.since, Found(r.i, row, tally, Sum(s.hist.events, r.i)))
  {
    hide Inv, RowsOk, Pad;
    PublishedRow(s, r.i);
    TallyGrows(r.since.events, s.hist.events, r.i);
  }

  lemma ScanBytesOk(s: State, t: Tid, r: Scan, n: nat, frames: seq<u64>, count: u64, tally: nat)
    requires Inv(s) && At(s, t) == ScanBytes(r, n, frames, count, tally) && ThreadOk(s.sh, s.hist, t, At(s, t))
    ensures r.i < |Table(s.sh)|
    ensures var row := CallSiteStats(frames, n, count, Table(s.sh)[r.i].bytes);
            var f := Found(r.i, row, tally, Sum(s.hist.events, r.i));
            Keeps(s, ScanOn(s, t, r.(found := r.found + [f])))
  {
    RowFound(s, t, r, n, frames, count, tally);
    ScanningKnows(s, t, r);
    var rows := r.found;
    assert RowsOk(Table(s.sh), s.hist.events, r.since, rows, r.i);
    hide *;
    var f := Found(r.i, CallSiteStats(frames, n, count, Table(s.sh)[r.i].bytes), tally, Sum(s.hist.events, r.i));
    RowAdded(Table(s.sh), s.hist.events, r.since, r.found, r.i, f);
    ScanOnOk(s, t, r, r.found + [f]);
  }

  lemma ScanningKnows(s: State, t: Tid, r: Scan)
    requires Inv(s) && Scanning(At(s, t)) && At(s, t).r == r
    ensures Accessible(s.sh, r.base, r.i)
    ensures r.i < |Table(s.sh)| && CellAt(s.sh, r.base, r.i) == Table(s.sh)[r.i]
    ensures ThreadOk(s.sh, s.hist, t, At(s, t)) && ScanOk(s.sh, s.hist, r)
  {
    assert ThreadOk(s.sh, s.hist, t, At(s, t));
    hide Inv, RowsOk, PastOk;
    assert SharedOk(s.sh) by { SharedIs(s); }
  }

  lemma SharedIs(s: State)
    requires Inv(s)
    ensures SharedOk(s.sh) && !s.fault
  {
  }

  lemma ScanStepOk(s: State, t: Tid)
    requires Inv(s) && Scanning(At(s, t))
    ensures var r := At(s, t).r; Accessible(s.sh, r.base, r.i)
    ensures var r := At(s, t).r; Keeps(s, ScanStep(s, t, At(s, t), r, CellAt(s.sh, r.base, r.i)))
  {
    var pc := At(s, t);
    ScanningKnows(s, t, pc.r);
    if pc.ScanHash? || pc.ScanFrameCount? {
      LookStepOk(s, t, pc, pc.r);
    } else {
      ReadStepOk(s, t, pc, pc.r);
    }
  }

  lemma LookStepOk(s: State, t: Tid, pc: PC, r: Scan)
    requires Inv(s) && At(s, t) == pc && ScanOk(s.sh, s.hist, r) && (pc == ScanHash(r) || pc == ScanFrameCount(r))
    ensures Accessible(s.sh, r.base, r.i) ==> Keeps(s, ScanStep(s, t, pc, r, Table(s.sh)[r.i]))
  {
    hide Inv, Keeps, ThreadOk, ScanOn, Accessible, Table, At, Goto, PastOk, RowsOk;
    if pc == ScanHash(r) {
      ScanHashOk(s, t, r);
    } else {
      ScanFrameCountOk(s, t, r);
    }
  }

  lemma ReadStepOk(s: State, t: Tid, pc: PC, r: Scan)
    requires Inv(s) && At(s, t) == pc && Scanning(pc) && pc.r == r && ThreadOk(s.sh, s.hist, t, pc)
    requires !pc.ScanHash? && !pc.ScanFrameCount? && r.i < |Table(s.sh)|
    ensures Accessible(s.sh, r.base, r.i) ==> Keeps(s, ScanStep(s, t, pc, r, Table(s.sh)[r.i]))
  {
    hide Inv, Keeps, ThreadOk, ScanOn, Accessible, Table, At, Goto;
    match pc
    case ScanFrame(_, n, j, frames) => ScanFrameOk(s, t, r, n, j, frames);
    case ScanCount(_, n, frames) => ScanCountOk(s, t, r, n, frames);
    case ScanBytes(_, n, frames, count, tally) => ScanBytesOk(s, t, r, n, frames, count, tally);
  }
}
