/** The DHAT document is lossless: reading its text and following the indices gives the report's rows back. */
module DhatLossless {
  import opened Wrappers
  import opened Words
  import opened TableSize
  import opened TableMachine
  import opened JsonText
  import opened Numerals
  import opened JsonPrint
  import opened DhatFrames
  import opened DhatDocument

  // What a reader of the document is after.
  datatype Site = Site(addresses: seq<nat>, count: nat, totalBytes: nat)

  // Reading a document, knowing only its schema.

  function Lookup(members: seq<Member>, key: string): Option<Json> {
    if members == [] then None
    else if members[0].key == key then Some(members[0].value)
    else Lookup(members[1..], key)
  }

  predicate AllDigits(s: string) {
    s != "" && forall i :: 0 <= i < |s| ==> IsDigit(s[i])
  }

  function NaturalOf(v: Json): Option<nat> {
    if v.Num? && AllDigits(v.lexeme) then Some(Value(v.lexeme, 10)) else None
  }

  // The address behind one index into the frame table.
  function Follow(ftbl: seq<Json>, index: Json): Option<nat> {
    match NaturalOf(index)
    case Some(i) => if i < |ftbl| && ftbl[i].Str? then AddressOf(ftbl[i].s) else None
    case None => None
  }

  function FollowAll(ftbl: seq<Json>, indices: seq<Json>): Option<seq<nat>> {
    if indices == [] then Some([])
    else
      match (FollowAll(ftbl, indices[..|indices| - 1]), Follow(ftbl, indices[|indices| - 1]))
      case (Some(before), Some(last)) => Some(before + [last])
      case _ => None
  }

  function SiteOf(ftbl: seq<Json>, pp: Json): Option<Site> {
    if !pp.Obj? then None
    else
      match (Lookup(pp.members, "tb"), Lookup(pp.members, "tbk"), Lookup(pp.members, "fs"))
      case (Some(tb), Some(tbk), Some(Arr(fs))) =>
        (match (NaturalOf(tb), NaturalOf(tbk), FollowAll(ftbl, fs))
         case (Some(bytes), Some(count), Some(addresses)) => Some(Site(addresses, count, bytes))
         case _ => None)
      case _ => None
  }

  function SitesOf(ftbl: seq<Json>, pps: seq<Json>): Option<seq<Site>> {
    if pps == [] then Some([])
    else
      match (SitesOf(ftbl, pps[..|pps| - 1]), SiteOf(ftbl, pps[|pps| - 1]))
      case (Some(before), Some(last)) => Some(before + [last])
      case _ => None
  }

  function Recover(doc: Json): Option<seq<Site>> {
    if !doc.Obj? then None
    else
      match (Lookup(doc.members, "pps"), Lookup(doc.members, "ftbl"))
      case (Some(Arr(pps)), Some(Arr(ftbl))) => SitesOf(ftbl, pps)
      case _ => None
  }

  function Decode(text: string): Option<seq<Site>> {
    match ReadText(text)
    case Some(doc) => Recover(doc)
    case None => None
  }

  // What the rows say.
  function RowSite(row: CallSiteStats): Site
    requires IsRow(row)
  {
    Site(row.frames[..row.frameCount], row.count, row.totalBytes)
  }

  function RowSites(rows: seq<CallSiteStats>): seq<Site>
    requires AreRows(rows)
  {
    seq(|rows|, k requires 0 <= k < |rows| => RowSite(rows[k]))
  }

  // The document is proper JSON.

  lemma NaturalIs(n: nat)
    ensures Proper(Natural(n)) && NaturalOf(Natural(n)) == Some(n)
  {
    var s := Decimal(n);
    DecimalIsNumber(n);
    ValueOfDigits(n, 10);
    forall i: nat | i < |s| ensures IsDigit(s[i]) {
      DigitsAreDigits(n, 10, i);
    }
    hide IsNumber, Value, Digits;
  }

  lemma LiteralsProper()
    ensures Proper(Num("0")) && Proper(Num("2"))
  {
    DecimalIsNumber(0);
    DecimalIsNumber(2);
    assert Decimal(0) == "0" && Decimal(2) == "2";
    hide IsNumber;
  }

  lemma NaturalsProper(ns: seq<nat>)
    ensures Proper(Arr(Naturals(ns)))
  {
    var items := Naturals(ns);
    forall i: nat | i < |items| ensures Proper(items[i]) {
      NaturalIs(ns[i]);
    }
    hide Natural;
  }

  lemma PpMemberProper(pp: ProgramPoint, k: nat)
    requires k < |PpJson(pp).members|
    ensures Proper(PpJson(pp).members[k].value)
  {
    NaturalIs(pp.totalBytes);
    NaturalIs(pp.count);
    LiteralsProper();
    NaturalsProper(pp.frameIndices);
    hide Natural, Naturals, IsNumber;
  }

  lemma PpProper(pp: ProgramPoint)
    ensures Proper(PpJson(pp))
  {
    var v := PpJson(pp);
    assert v.Obj?;
    forall k: nat | k < |v.members| ensures Proper(v.members[k].value) {
      PpMemberProper(pp, k);
    }
    hide PpJson;
  }

  lemma PpsProper(pps: seq<ProgramPoint>)
    ensures Proper(Arr(PpsJson(pps)))
  {
    var items := PpsJson(pps);
    forall i: nat | i < |items| ensures Proper(items[i]) {
      PpProper(pps[i]);
    }
    hide PpJson;
  }

  lemma HeaderProper(cmd: string, pid: nat, k: nat)
    requires k < |Header(cmd, pid)|
    ensures Proper(Header(cmd, pid)[k].value)
  {
    NaturalIs(pid);
    LiteralsProper();
    hide Natural, IsNumber;
  }

  lemma DocumentProper(entries: seq<string>, pps: seq<ProgramPoint>, cmd: string, pid: nat)
    ensures Proper(Document(entries, pps, cmd, pid))
  {
    var doc := Document(entries, pps, cmd, pid);
    PpsProper(pps);
    var n := |Header(cmd, pid)|;
    forall k: nat | k < |doc.members| ensures Proper(doc.members[k].value) {
      if k < n {
        HeaderProper(cmd, pid, k);
      }
    }
    hide Header, PpsJson;
  }

  // Looking members up.

  lemma {:induction false} LookupPast(before: seq<Member>, after: seq<Member>, key: string)
    requires forall i :: 0 <= i < |before| ==> before[i].key != key
    ensures Lookup(before + after, key) == Lookup(after, key)
  {
    if before == [] {
      assert before + after == after;
    } else {
      LookupPast(before[1..], after, key);
      assert (before + after)[1..] == before[1..] + after;
    }
  }

  lemma HeaderKeys(cmd: string, pid: nat)
    ensures forall i :: 0 <= i < |Header(cmd, pid)| ==>
              Header(cmd, pid)[i].key != "pps" && Header(cmd, pid)[i].key != "ftbl"
  {
  }

  lemma DocumentMembers(entries: seq<string>, pps: seq<ProgramPoint>, cmd: string, pid: nat)
    ensures var doc := Document(entries, pps, cmd, pid);
            && Lookup(doc.members, "pps") == Some(Arr(PpsJson(pps)))
            && Lookup(doc.members, "ftbl") == Some(Arr(Strings(entries)))
  {
    var tail := [Member("pps", Arr(PpsJson(pps))), Member("ftbl", Arr(Strings(entries)))];
    HeaderKeys(cmd, pid);
    LookupPast(Header(cmd, pid), tail, "pps");
    LookupPast(Header(cmd, pid), tail, "ftbl");
    assert tail[1..] == [Member("ftbl", Arr(Strings(entries)))];
    hide Header, PpsJson, Strings;
  }

  lemma PpMembers(pp: ProgramPoint)
    ensures PpJson(pp).Obj?
    ensures var ms := PpJson(pp).members;
            && Lookup(ms, "tb") == Some(Natural(pp.totalBytes)) && Lookup(ms, "tbk") == Some(Natural(pp.count))
            && Lookup(ms, "fs") == Some(Arr(Naturals(pp.frameIndices)))
  {
    var ms := PpJson(pp).members;
    hide Natural, Naturals;
    LookupPast(ms[..1], ms[1..], "tbk");
    LookupPast(ms[..4], ms[4..], "fs");
    assert ms[..1] + ms[1..] == ms && ms[..4] + ms[4..] == ms;
  }

  // Following indices.

  lemma FollowIndex(entries: seq<string>, idx: nat, addr: u64)
    requires idx < |entries| && entries[idx] == FormatRawFrame(addr)
    ensures Follow(Strings(entries), Natural(idx)) == Some(addr)
  {
    NaturalIs(idx);
    AddressOfFrame(addr);
    hide NaturalOf, Natural, AddressOf, FormatRawFrame;
  }

  // The indices are positions of the frames.
  ghost predicate LeadExactly(entries: seq<string>, indices: seq<nat>, frames: seq<u64>, n: nat) {
    |indices| == n <= |frames| &&
    forall j :: 0 <= j < n ==> indices[j] < |entries| && entries[indices[j]] == FormatRawFrame(frames[j])
  }

  lemma {:induction false} FollowIndices(entries: seq<string>, indices: seq<nat>, frames: seq<u64>, n: nat)
    requires LeadExactly(entries, indices, frames, n)
    ensures FollowAll(Strings(entries), Naturals(indices)) == Some(frames[..n])
    decreases n
  {
    if n > 0 {
      var last := n - 1;
      FollowIndices(entries, indices[..last], frames, last);
      FollowIndex(entries, indices[last], frames[last]);
      var items := Naturals(indices);
      assert items[..last] == Naturals(indices[..last]) && items[last] == Natural(indices[last]);
      assert frames[..n] == frames[..last] + [frames[last]];
      hide Follow, Strings, Naturals, FormatRawFrame;
    } else {
      assert Naturals(indices) == [];
    }
  }

  // A program point's text gives its row back.
  lemma SiteIs(entries: seq<string>, pp: ProgramPoint, row: CallSiteStats)
    requires IsRow(row) && pp.totalBytes == row.totalBytes && pp.count == row.count
    requires LeadExactly(entries, pp.frameIndices, row.frames, row.frameCount)
    ensures SiteOf(Strings(entries), PpJson(pp)) == Some(RowSite(row))
  {
    PpMembers(pp);
    NaturalIs(pp.totalBytes);
    NaturalIs(pp.count);
    FollowIndices(entries, pp.frameIndices, row.frames, row.frameCount);
    hide PpJson, Strings, Naturals, Natural, NaturalOf, FollowAll, Lookup, LeadExactly;
  }

  // These program points show these rows.
  ghost predicate ShowsAll(entries: seq<string>, pps: seq<ProgramPoint>, rows: seq<CallSiteStats>)
    requires AreRows(rows)
  {
    && |pps| == |rows|
    && forall k :: 0 <= k < |rows| ==>
         && pps[k].totalBytes == rows[k].totalBytes && pps[k].count == rows[k].count
         && LeadExactly(entries, pps[k].frameIndices, rows[k].frames, rows[k].frameCount)
  }

  lemma ShowsParts(entries: seq<string>, pps: seq<ProgramPoint>, rows: seq<CallSiteStats>)
    requires AreRows(rows) && ShowsAll(entries, pps, rows) && rows != []
    ensures var n := |rows| - 1;
            && |pps| == |rows| && AreRows(rows[..n]) && ShowsAll(entries, pps[..n], rows[..n]) && IsRow(rows[n])
            && pps[n].totalBytes == rows[n].totalBytes && pps[n].count == rows[n].count
            && LeadExactly(entries, pps[n].frameIndices, rows[n].frames, rows[n].frameCount)
  {
    hide LeadExactly;
  }

  lemma PpsLast(pps: seq<ProgramPoint>)
    requires pps != []
    ensures var n := |pps| - 1;
            PpsJson(pps) != [] && PpsJson(pps)[..|PpsJson(pps)| - 1] == PpsJson(pps[..n]) &&
            PpsJson(pps)[|PpsJson(pps)| - 1] == PpJson(pps[n])
  {
    hide PpJson;
  }

  lemma RowSitesLast(rows: seq<CallSiteStats>)
    requires AreRows(rows) && rows != []
    ensures var n := |rows| - 1;
            AreRows(rows[..n]) && IsRow(rows[n]) && RowSites(rows) == RowSites(rows[..n]) + [RowSite(rows[n])]
  {
    hide RowSite;
  }

  lemma SitesLast(ftbl: seq<Json>, pps: seq<Json>, before: seq<Site>, last: Site)
    requires pps != [] && SitesOf(ftbl, pps[..|pps| - 1]) == Some(before) && SiteOf(ftbl, pps[|pps| - 1]) == Some(last)
    ensures SitesOf(ftbl, pps) == Some(before + [last])
  {
    hide SiteOf;
  }

  lemma {:induction false} SitesAre(entries: seq<string>, pps: seq<ProgramPoint>, rows: seq<CallSiteStats>)
    requires AreRows(rows) && ShowsAll(entries, pps, rows)
    ensures SitesOf(Strings(entries), PpsJson(pps)) == Some(RowSites(rows))
    decreases |rows|
  {
    if rows == [] {
      assert PpsJson(pps) == [] && RowSites(rows) == [];
    } else {
      hide *;
      var n := |rows| - 1;
      ShowsParts(entries, pps, rows);
      SitesAre(entries, pps[..n], rows[..n]);
      SiteIs(entries, pps[n], rows[n]);
      PpsLast(pps);
      RowSitesLast(rows);
      SitesLast(Strings(entries), PpsJson(pps), RowSites(rows[..n]), RowSite(rows[n]));
    }
  }

  lemma BuiltShows(entries: seq<string>, pps: seq<ProgramPoint>, rows: seq<CallSiteStats>)
    requires Built(entries, pps, rows) && |rows| <= MAX_BUCKETS
    ensures AreRows(rows) && ShowsAll(entries, pps, rows)
  {
    forall k: nat | k < |rows| ensures LeadExactly(entries, pps[k].frameIndices, rows[k].frames, rows[k].frameCount) {
      RowShown(entries, pps, rows, k);
    }
    hide Holds, Lead, LeadExactly;
  }

  lemma RowShown(entries: seq<string>, pps: seq<ProgramPoint>, rows: seq<CallSiteStats>, k: nat)
    requires Built(entries, pps, rows) && |rows| <= MAX_BUCKETS && k < |rows|
    ensures |pps| == |rows| && LeadExactly(entries, pps[k].frameIndices, rows[k].frames, rows[k].frameCount)
  {
    assert Shows(entries, pps[k], rows[k]) && IsRow(rows[k]);
    assert |pps[k].frameIndices| == rows[k].frameCount;
    hide Built, Shows, FormatRawFrame;
    forall j: nat | j < rows[k].frameCount
      ensures pps[k].frameIndices[j] < |entries|
      ensures entries[pps[k].frameIndices[j]] == FormatRawFrame(rows[k].frames[j])
    {
      IndicesAreExact(entries, pps, rows, k, j);
    }
  }

  /**
   The document is lossless: for every report, reading the printed document by RFC 8259 and following every index
   into the frame table gives exactly the rows' addresses, counts and byte totals, in order.
   */
  lemma DocumentIsLossless(
    entries: seq<string>, pps: seq<ProgramPoint>, rows: seq<CallSiteStats>, cmd: string, pid: nat)
    requires Built(entries, pps, rows) && |rows| <= MAX_BUCKETS
    ensures AreRows(rows) && Decode(Print(Document(entries, pps, cmd, pid))) == Some(RowSites(rows))
  {
    hide *;
    BuiltShows(entries, pps, rows);
    SitesAre(entries, pps, rows);
    DocumentProper(entries, pps, cmd, pid);
    TextRead(Document(entries, pps, cmd, pid));
    Decoded(entries, pps, cmd, pid);
  }

  lemma Decoded(entries: seq<string>, pps: seq<ProgramPoint>, cmd: string, pid: nat)
    requires ReadText(Print(Document(entries, pps, cmd, pid))) == Some(Document(entries, pps, cmd, pid))
    ensures Decode(Print(Document(entries, pps, cmd, pid))) == SitesOf(Strings(entries), PpsJson(pps))
  {
    DocumentMembers(entries, pps, cmd, pid);
    assert Document(entries, pps, cmd, pid).Obj?;
    hide Document, Print, SitesOf, PpsJson, Strings, ReadText;
  }

  // The members before pps as they are spelled.
  ghost predicate IsHeader(ms: seq<Member>, cmd: string, pid: nat) {
    && |ms| == 15
    && ms[..8] == [
         Member("dhatFileVersion", Num("2")), Member("mode", Str("rust-heap")), Member("verb", Str("Allocated")),
         Member("bklt", Bool(false)), Member("bkacc", Bool(false)),
         Member("bu", Str("byte")), Member("bsu", Str("bytes")), Member("bksu", Str("blocks"))]
    && ms[8..12] == [
         Member("tu", Str("instrs")), Member("Mtu", Str("Minstr")), Member("tuth", Num("0")), Member("cmd", Str(cmd))]
    && ms[12].key == "pid" && NaturalOf(ms[12].value) == Some(pid)
    && ms[13..] == [Member("tg", Num("0")), Member("te", Num("0"))]
  }

  lemma HeaderFits(cmd: string, pid: nat)
    ensures IsHeader(Header(cmd, pid), cmd, pid)
  {
    NaturalIs(pid);
    hide Natural, NaturalOf;
  }

  // An array of these strings.
  ghost predicate IsTable(v: Json, entries: seq<string>) {
    v.Arr? && |v.items| == |entries| && forall k :: 0 <= k < |entries| ==> v.items[k] == Str(entries[k])
  }

  lemma DocumentParts(entries: seq<string>, pps: seq<ProgramPoint>, cmd: string, pid: nat)
    ensures var doc, points := Document(entries, pps, cmd, pid), Member("pps", Arr(PpsJson(pps)));
            doc.Obj? && doc.members == Header(cmd, pid) + [points] + [Member("ftbl", Arr(Strings(entries)))]
    ensures IsTable(Arr(Strings(entries)), entries)
  {
    hide Header, PpsJson;
  }

  /**
   What a reader of the document finds: an object of seventeen members, first those of the header with the command line
   and the process number, then the program points, then the frames.
   */
  lemma HeaderIsRead(entries: seq<string>, pps: seq<ProgramPoint>, cmd: string, pid: nat)
    ensures var doc := ReadText(Print(Document(entries, pps, cmd, pid)));
            && doc.Some? && doc.value.Obj? && |doc.value.members| == 17
            && var ms := doc.value.members;
               && IsHeader(ms[..15], cmd, pid)
               && ms[15].key == "pps" && ms[15].value.Arr? && |ms[15].value.items| == |pps|
               && ms[16].key == "ftbl" && IsTable(ms[16].value, entries)
  {
    DocumentProper(entries, pps, cmd, pid);
    TextRead(Document(entries, pps, cmd, pid));
    assert |PpsJson(pps)| == |pps|;
    HeaderFits(cmd, pid);
    assert |Header(cmd, pid)| == 15;
    hide *;
    DocumentParts(entries, pps, cmd, pid);
  }

  lemma PointFits(pp: ProgramPoint)
    ensures PpJson(pp).Obj?
    ensures var ms := PpJson(pp).members;
            && |ms| == 5
            && ms[0].key == "tb" && NaturalOf(ms[0].value) == Some(pp.totalBytes)
            && ms[1].key == "tbk" && NaturalOf(ms[1].value) == Some(pp.count)
            && ms[2..4] == [Member("eb", Num("0")), Member("ebk", Num("0"))]
            && ms[4].key == "fs" && ms[4].value == Arr(Naturals(pp.frameIndices))
  {
    NaturalIs(pp.totalBytes);
    NaturalIs(pp.count);
    hide Natural, NaturalOf, Naturals;
  }

  /** And in every program point: its five members in this order, of which two are always zero. */
  lemma PointIsRead(entries: seq<string>, pps: seq<ProgramPoint>, cmd: string, pid: nat, k: nat)
    requires k < |pps|
    ensures var doc := ReadText(Print(Document(entries, pps, cmd, pid)));
            && doc.Some? && doc.value.Obj? && Lookup(doc.value.members, "pps").Some?
            && var points := Lookup(doc.value.members, "pps").value;
               && points.Arr? && |points.items| == |pps| && points.items[k].Obj?
               && var ms := points.items[k].members;
                  && |ms| == 5
                  && ms[0].key == "tb" && NaturalOf(ms[0].value) == Some(pps[k].totalBytes)
                  && ms[1].key == "tbk" && NaturalOf(ms[1].value) == Some(pps[k].count)
                  && ms[2..4] == [Member("eb", Num("0")), Member("ebk", Num("0"))]
                  && ms[4].key == "fs" && ms[4].value == Arr(Naturals(pps[k].frameIndices))
  {
    DocumentProper(entries, pps, cmd, pid);
    TextRead(Document(entries, pps, cmd, pid));
    assert PpsJson(pps)[k] == PpJson(pps[k]) && Document(entries, pps, cmd, pid).Obj?;
    hide *;
    DocumentMembers(entries, pps, cmd, pid);
    PointFits(pps[k]);
  }

  /** dhat_json_string for a report, a command line and a process number. */
  method DhatJsonString(rows: seq<CallSiteStats>, cmd: string, pid: nat) returns (text: string)
    requires AreRows(rows) && |rows| <= MAX_BUCKETS
    ensures Decode(text) == Some(RowSites(rows))
    ensures exists entries, pps :: Built(entries, pps, rows) && text == Print(Document(entries, pps, cmd, pid))
  {
    var table, pps := Build(rows);
    var writer := new JsonWriter();
    writer.Render(table.entries, pps, cmd, pid);
    text := writer.out;
    DocumentIsLossless(table.entries, pps, rows, cmd, pid);
    hide *;
    assert Built(table.entries, pps, rows) && text == Print(Document(table.entries, pps, cmd, pid));
  }
}
