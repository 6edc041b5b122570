/**
 The frame table of the DHAT document: frame descriptions, each stored once, and program points that refer to them.
 */
module DhatFrames {
  import opened Wrappers
  import opened Words
  import opened FrameHash
  import opened TableSize
  import opened TableMachine
  import opened Numerals

  const TWO_32 := 0x1_0000_0000

  const ROOT := "[root]"

  const UNRESOLVED := ": <unresolved>"

  function FormatRawFrame(addr: u64): string {
    "0x" + Hex(addr) + UNRESOLVED
  }

  // The address a raw frame description shows.
  function AddressOf(frame: string): Option<nat> {
    if |frame| >= 2 + |UNRESOLVED| && frame[..2] == "0x" && frame[|frame| - |UNRESOLVED|..] == UNRESOLVED then
      Some(Value(frame[2..|frame| - |UNRESOLVED|], 16))
    else None
  }

  /** The description determines the address. */
  lemma AddressOfFrame(addr: u64)
    ensures AddressOf(FormatRawFrame(addr)) == Some(addr)
  {
    var s, digits := FormatRawFrame(addr), Hex(addr);
    assert s[..2] == "0x" && s[2..|s| - |UNRESOLVED|] == digits && s[|s| - |UNRESOLVED|..] == UNRESOLVED;
    ValueOfDigits(addr, 16);
  }

  /**
   The text of a frame: 0x, the hexadecimal digits of the address in lower case without leading zeros, and that it is
   unresolved. Digit i from the right is that of weight 16 to the i.
   */
  lemma FrameTextIs(addr: u64, i: nat)
    ensures var s, n := FormatRawFrame(addr), |FormatRawFrame(addr)| - 16;
            && n >= 1 && s[..2] == "0x" && s[2 + n..] == ": <unresolved>"
            && (i < n ==> s[n + 1 - i] == "0123456789abcdef"[Shifted(addr, 16, i) % 16])
            && Shifted(addr, 16, n) == 0 && (n > 1 ==> Shifted(addr, 16, n - 1) > 0)
  {
    var s, digits := FormatRawFrame(addr), Hex(addr);
    assert s[..2] == "0x" && s[2..|s| - 14] == digits && s[|s| - 14..] == ": <unresolved>";
    DigitAt(addr, 16, i);
    hide Digits, Shifted;
    assert i < |digits| ==> s[2..|s| - 14][|digits| - 1 - i] == s[|digits| + 1 - i];
  }

  // The different strings of a list, in order of first use.
  function FirstUses(frames: seq<string>): seq<string> {
    if frames == [] then []
    else
      var before, last := FirstUses(frames[..|frames| - 1]), frames[|frames| - 1];
      if last in before then before else before + [last]
  }

  /** First uses are distinct, are the strings of the list and no others, and keep their positions as the list grows. */
  lemma {:induction false} FirstUsesAre(frames: seq<string>, more: seq<string>)
    ensures forall i, j :: 0 <= i < j < |FirstUses(frames)| ==> FirstUses(frames)[i] != FirstUses(frames)[j]
    ensures forall f :: f in FirstUses(frames) <==> f in frames
    ensures |FirstUses(frames)| <= |frames|
    ensures FirstUses(frames) <= FirstUses(frames + more)
    decreases |frames| + |more|
  {
    if more != [] {
      var n := |more| - 1;
      FirstUsesAre(frames, more[..n]);
      assert (frames + more)[..|frames| + n] == frames + more[..n];
    } else {
      assert frames + more == frames;
      if frames != [] {
        FirstUsesAre(frames[..|frames| - 1], []);
      }
    }
  }

  // An index that was issued for a frame: its position, truncated to 32 bits.
  ghost predicate Points(entries: seq<string>, idx: nat, frame: string) {
    exists pos: nat :: 1 <= pos < |entries| && entries[pos] == frame && idx == pos % 0x1_0000_0000
  }

  // The frame is stored after the root.
  ghost predicate Known(entries: seq<string>, frame: string) {
    exists pos :: 1 <= pos < |entries| && entries[pos] == frame
  }

  // What a map from interned frames to their indices should be.
  ghost predicate Sound(entries: seq<string>, index: map<string, nat>) {
    && entries != [] && entries[0] == ROOT
    && (forall f :: f in index ==> Known(entries, f))
    && (forall i, j :: 1 <= i < j < |entries| ==> entries[i] != entries[j])
    && (forall i :: 1 <= i < |entries| ==> entries[i] in index && index[entries[i]] == i % TWO_32)
  }

  class FrameTable {
    var entries: seq<string>
    var index: map<string, nat>

    ghost predicate Valid()
      reads this
    {
      Sound(entries, index)
    }

    constructor ()
      ensures Valid() && entries == ["[root]"]
    {
      entries, index := [ROOT], map[];
    }

    /** The index of a frame, stored first if it is new. Entries never move, so earlier indices keep their meaning. */
    method Intern(frame: string) returns (idx: nat)
      requires Valid()
      modifies this
      ensures Valid() && entries == Interned(old(entries), frame)
      ensures idx < 0x1_0000_0000 && Points(entries, idx, frame)
      ensures |entries| <= 0x1_0000_0000 ==> 1 <= idx < |entries| && entries[idx] == frame
    {
      hide Sound, Known, Points, Interned;
      if frame in index {
        KnownFrame(entries, index, frame);
        idx := index[frame];
        return;
      }
      AppendSound(entries, index, frame);
      idx := |entries| % TWO_32;
      entries := entries + [frame];
      index := index[frame := idx];
    }
  }

  // The entries after a frame has been interned.
  ghost function Interned(entries: seq<string>, frame: string): seq<string> {
    if Known(entries, frame) then entries else entries + [frame]
  }

  lemma KnownFrame(entries: seq<string>, index: map<string, nat>, frame: string)
    requires Sound(entries, index) && frame in index
    ensures Interned(entries, frame) == entries && index[frame] < TWO_32 && Points(entries, index[frame], frame)
    ensures |entries| <= TWO_32 ==> 1 <= index[frame] < |entries| && entries[index[frame]] == frame
  {
    assert Known(entries, frame);
    var pos :| 1 <= pos < |entries| && entries[pos] == frame;
    assert index[frame] == pos % TWO_32;
    hide Sound, Known;
  }

  lemma AppendSound(entries: seq<string>, index: map<string, nat>, frame: string)
    requires Sound(entries, index) && frame !in index
    ensures Sound(entries + [frame], index[frame := |entries| % TWO_32])
    ensures Interned(entries, frame) == entries + [frame]
    ensures Points(entries + [frame], |entries| % TWO_32, frame)
    ensures 1 <= |entries| && (|entries| < TWO_32 ==> |entries| % TWO_32 == |entries|)
  {
    var after := entries + [frame];
    assert after[|entries|] == frame;
    assert !Known(entries, frame);
    KnownLonger(entries, frame);
    hide Known, Interned;
  }

  lemma KnownLonger(entries: seq<string>, frame: string)
    requires entries != []
    ensures forall f :: Known(entries + [frame], f) <==> Known(entries, f) || f == frame
  {
    var after := entries + [frame];
    forall f ensures Known(after, f) <==> Known(entries, f) || f == frame {
      if Known(entries, f) {
        var pos :| 1 <= pos < |entries| && entries[pos] == f;
        assert after[pos] == f;
      }
      assert after[|entries|] == frame;
    }
  }

  // Building the table from a report.

  datatype ProgramPoint = ProgramPoint(totalBytes: u64, count: u64, frameIndices: seq<nat>)

  // A row as reports have them.
  predicate IsRow(row: CallSiteStats) {
    |row.frames| == MAX_FRAMES && row.frameCount <= MAX_FRAMES
  }

  predicate AreRows(rows: seq<CallSiteStats>) {
    forall k :: 0 <= k < |rows| ==> IsRow(rows[k])
  }

  function Formats(frames: seq<u64>, n: nat): (r: seq<string>)
    requires n <= |frames|
    ensures |r| == n && forall i :: 0 <= i < n ==> r[i] == FormatRawFrame(frames[i])
  {
    if n == 0 then [] else Formats(frames, n - 1) + [FormatRawFrame(frames[n - 1])]
  }

  // Every frame of every row, in order.
  function AllFrames(rows: seq<CallSiteStats>): seq<string>
    requires AreRows(rows)
  {
    if rows == [] then []
    else
      var last := rows[|rows| - 1];
      AllFrames(rows[..|rows| - 1]) + Formats(last.frames, last.frameCount)
  }

  lemma {:induction false} FramesAreFew(rows: seq<CallSiteStats>)
    requires AreRows(rows)
    ensures |AllFrames(rows)| <= MAX_FRAMES * |rows|
  {
    if rows != [] {
      FramesAreFew(rows[..|rows| - 1]);
    }
  }

  // These are indices issued for the first n frames.
  ghost predicate Lead(entries: seq<string>, indices: seq<nat>, frames: seq<u64>, n: nat) {
    |indices| == n <= |frames| && forall j :: 0 <= j < n ==> Points(entries, indices[j], FormatRawFrame(frames[j]))
  }

  // The program point shows the row, and its indices lead to the row's frames.
  ghost predicate Shows(entries: seq<string>, pp: ProgramPoint, row: CallSiteStats)
    requires IsRow(row)
  {
    && pp.totalBytes == row.totalBytes && pp.count == row.count
    && Lead(entries, pp.frameIndices, row.frames, row.frameCount)
  }

  lemma ShowsStays(a: seq<string>, b: seq<string>, pp: ProgramPoint, row: CallSiteStats)
    requires IsRow(row) && Shows(a, pp, row) && a <= b
    ensures Shows(b, pp, row)
  {
    LeadStays(a, b, pp.frameIndices, row.frames, row.frameCount);
  }

  lemma PointsStay(a: seq<string>, b: seq<string>, idx: nat, frame: string)
    requires Points(a, idx, frame) && a <= b
    ensures Points(b, idx, frame)
  {
    var pos: nat :| 1 <= pos < |a| && a[pos] == frame && idx == pos % TWO_32;
    assert b[pos] == frame;
  }

  // The table holds the frames seen so far, each once.
  ghost predicate Holds(entries: seq<string>, seen: seq<string>) {
    entries == [ROOT] + FirstUses(seen)
  }

  lemma NextUse(before: seq<string>, seen: seq<string>, frame: string)
    requires Holds(before, seen)
    ensures Holds(Interned(before, frame), seen + [frame]) && before <= Interned(before, frame)
  {
    assert (seen + [frame])[..|seen|] == seen;
    var uses := FirstUses(seen);
    hide FirstUses;
    if frame in uses {
      var i :| 0 <= i < |uses| && uses[i] == frame;
      assert before[i + 1] == frame;
    } else {
      assert !Known(before, frame);
      assert before + [frame] == [ROOT] + (uses + [frame]);
    }
  }

  lemma FormatsNext(seen: seq<string>, frames: seq<u64>, i: nat)
    requires i < |frames|
    ensures seen + Formats(frames, i + 1) == seen + Formats(frames, i) + [FormatRawFrame(frames[i])]
  {
  }

  // The indices of one row.
  method InternRow(table: FrameTable, row: CallSiteStats, ghost seen: seq<string>) returns (indices: seq<nat>)
    requires table.Valid() && IsRow(row) && Holds(table.entries, seen)
    modifies table
    ensures table.Valid() && old(table.entries) <= table.entries
    ensures Holds(table.entries, seen + Formats(row.frames, row.frameCount))
    ensures Lead(table.entries, indices, row.frames, row.frameCount)
  {
    assert row.frameCount <= |row.frames|;
    assert Formats(row.frames, 0) == [] && seen + [] == seen;
    indices := [];
    assert Lead(table.entries, indices, row.frames, 0);
    hide *;
    for i := 0 to row.frameCount
      invariant table.Valid() && old(table.entries) <= table.entries
      invariant Holds(table.entries, seen + Formats(row.frames, i))
      invariant Lead(table.entries, indices, row.frames, i)
    {
      ghost var before := table.entries;
      var frame := FormatRawFrame(row.frames[i]);
      var idx := table.Intern(frame);
      FormatsNext(seen, row.frames, i);
      NextUse(before, seen + Formats(row.frames, i), frame);
      LeadNext(before, table.entries, indices, row.frames, i, idx);
      indices := indices + [idx];
    }
  }

  lemma LeadStays(a: seq<string>, b: seq<string>, indices: seq<nat>, frames: seq<u64>, n: nat)
    requires Lead(a, indices, frames, n) && a <= b
    ensures Lead(b, indices, frames, n)
  {
    hide Points, FormatRawFrame;
    forall j | 0 <= j < n ensures Points(b, indices[j], FormatRawFrame(frames[j])) {
      PointsStay(a, b, indices[j], FormatRawFrame(frames[j]));
    }
  }

  lemma LeadNext(a: seq<string>, b: seq<string>, indices: seq<nat>, frames: seq<u64>, i: nat, idx: nat)
    requires Lead(a, indices, frames, i) && a <= b && i < |frames| && Points(b, idx, FormatRawFrame(frames[i]))
    ensures Lead(b, indices + [idx], frames, i + 1)
  {
    LeadStays(a, b, indices, frames, i);
    hide Points, FormatRawFrame;
  }

  // The table and the program points of some rows: the entries after the root are the rows' frames, each once, in order
  // of first use, and there is one program point for each row, in order.
  ghost predicate Built(entries: seq<string>, pps: seq<ProgramPoint>, rows: seq<CallSiteStats>) {
    && AreRows(rows) && Holds(entries, AllFrames(rows)) && |pps| == |rows|
    && forall k :: 0 <= k < |rows| ==> Shows(entries, pps[k], rows[k])
  }

  lemma NoRows()
    ensures Built([ROOT], [], [])
  {
  }

  lemma RowNext(rows: seq<CallSiteStats>, k: nat)
    requires AreRows(rows) && k < |rows|
    ensures AreRows(rows[..k]) && IsRow(rows[k]) && rows[..k + 1] == rows[..k] + [rows[k]]
    ensures AllFrames(rows[..k + 1]) == AllFrames(rows[..k]) + Formats(rows[k].frames, rows[k].frameCount)
  {
    assert rows[..k + 1][..k] == rows[..k];
    hide Formats;
  }

  lemma BuiltNext(
    a: seq<string>, b: seq<string>, pps: seq<ProgramPoint>, rows: seq<CallSiteStats>, row: CallSiteStats,
    indices: seq<nat>)
    requires Built(a, pps, rows) && IsRow(row) && a <= b && AreRows(rows + [row])
    requires Holds(b, AllFrames(rows + [row])) && Lead(b, indices, row.frames, row.frameCount)
    ensures Built(b, pps + [ProgramPoint(row.totalBytes, row.count, indices)], rows + [row])
  {
    hide Holds, AllFrames, Lead;
    forall k | 0 <= k < |rows| ensures Shows(b, pps[k], rows[k]) {
      ShowsStays(a, b, pps[k], rows[k]);
    }
  }

  /** The frame table and the program points of a report. */
  method Build(rows: seq<CallSiteStats>) returns (table: FrameTable, pps: seq<ProgramPoint>)
    requires AreRows(rows)
    ensures fresh(table) && table.Valid() && Built(table.entries, pps, rows)
  {
    table := new FrameTable();
    pps := [];
    NoRows();
    assert rows[..0] == [];
    hide *;
    for k := 0 to |rows|
      invariant fresh(table) && table.Valid() && Built(table.entries, pps, rows[..k])
    {
      ghost var before := table.entries;
      var row := rows[k];
      RowNext(rows, k);
      BuiltHolds(before, pps, rows[..k]);
      var indices := InternRow(table, row, AllFrames(rows[..k]));
      RowsUpTo(rows, k + 1);
      BuiltNext(before, table.entries, pps, rows[..k], row, indices);
      pps := pps + [ProgramPoint(row.totalBytes, row.count, indices)];
    }
    assert rows[..|rows|] == rows;
  }

  lemma BuiltHolds(entries: seq<string>, pps: seq<ProgramPoint>, rows: seq<CallSiteStats>)
    requires Built(entries, pps, rows)
    ensures AreRows(rows) && Holds(entries, AllFrames(rows))
  {
  }

  lemma RowsUpTo(rows: seq<CallSiteStats>, k: nat)
    requires AreRows(rows) && k <= |rows|
    ensures AreRows(rows[..k])
  {
  }

  /**
   The cast to 32 bits never truncates: a report has at most 2^20 rows of at most 8 frames, so every index issued
   for it is the position of its frame.
   */
  lemma IndicesAreExact(entries: seq<string>, pps: seq<ProgramPoint>, rows: seq<CallSiteStats>, k: nat, j: nat)
    requires Built(entries, pps, rows) && |rows| <= MAX_BUCKETS && k < |rows| && j < rows[k].frameCount
    ensures |pps| == |rows| && IsRow(rows[k]) && |pps[k].frameIndices| == rows[k].frameCount
    ensures 1 <= pps[k].frameIndices[j] < |entries|
    ensures entries[pps[k].frameIndices[j]] == FormatRawFrame(rows[k].frames[j])
  {
    PointsAt(entries, pps, rows, k, j);
    FewEntries(entries, rows);
    hide *;
    ExactPosition(entries, pps[k].frameIndices[j], FormatRawFrame(rows[k].frames[j]));
  }

  lemma PointsAt(entries: seq<string>, pps: seq<ProgramPoint>, rows: seq<CallSiteStats>, k: nat, j: nat)
    requires Built(entries, pps, rows) && k < |rows| && j < rows[k].frameCount
    ensures |pps| == |rows| && IsRow(rows[k]) && |pps[k].frameIndices| == rows[k].frameCount
    ensures Points(entries, pps[k].frameIndices[j], FormatRawFrame(rows[k].frames[j]))
    ensures AreRows(rows) && Holds(entries, AllFrames(rows))
  {
    assert Shows(entries, pps[k], rows[k]);
    hide Points, FormatRawFrame, Holds;
  }

  lemma FewEntries(entries: seq<string>, rows: seq<CallSiteStats>)
    requires |rows| <= MAX_BUCKETS && AreRows(rows) && Holds(entries, AllFrames(rows))
    ensures |entries| < TWO_32
  {
    FirstUsesAre(AllFrames(rows), []);
    FramesAreFew(rows);
    hide FirstUses, AllFrames;
  }

  lemma ExactPosition(entries: seq<string>, idx: nat, frame: string)
    requires Points(entries, idx, frame) && |entries| < TWO_32
    ensures 1 <= idx < |entries| && entries[idx] == frame
  {
  }
}
