/**
 The DHAT document: the writer that appends it to a string, the JSON value it stands for, and how to get the rows
 back from its text.
 */
module DhatDocument {
  import opened JsonText
  import opened Numerals
  import opened JsonPrint
  import opened DhatFrames

  // The document as a value.

  function Natural(n: nat): Json {
    Num(Decimal(n))
  }

  function Naturals(ns: seq<nat>): seq<Json> {
    seq(|ns|, i requires 0 <= i < |ns| => Natural(ns[i]))
  }

  function Strings(ss: seq<string>): seq<Json> {
    seq(|ss|, i requires 0 <= i < |ss| => Str(ss[i]))
  }

  function PpJson(pp: ProgramPoint): Json {
    Obj([
      Member("tb", Natural(pp.totalBytes)), Member("tbk", Natural(pp.count)),
      Member("eb", Num("0")), Member("ebk", Num("0")), Member("fs", Arr(Naturals(pp.frameIndices)))
    ])
  }

  function PpsJson(pps: seq<ProgramPoint>): seq<Json> {
    seq(|pps|, i requires 0 <= i < |pps| => PpJson(pps[i]))
  }

  function Header(cmd: string, pid: nat): seq<Member> {
    [
      Member("dhatFileVersion", Num("2")), Member("mode", Str("rust-heap")), Member("verb", Str("Allocated")),
      Member("bklt", Bool(false)), Member("bkacc", Bool(false)),
      Member("bu", Str("byte")), Member("bsu", Str("bytes")), Member("bksu", Str("blocks")),
      Member("tu", Str("instrs")), Member("Mtu", Str("Minstr")), Member("tuth", Num("0")),
      Member("cmd", Str(cmd)), Member("pid", Natural(pid)), Member("tg", Num("0")), Member("te", Num("0"))
    ]
  }

  function Document(entries: seq<string>, pps: seq<ProgramPoint>, cmd: string, pid: nat): Json {
    Obj(Header(cmd, pid) + [Member("pps", Arr(PpsJson(pps))), Member("ftbl", Arr(Strings(entries)))])
  }

  // Lists with commas, from the front.

  function Joined(parts: seq<string>): string {
    if parts == [] then ""
    else if |parts| == 1 then parts[0]
    else Joined(parts[..|parts| - 1]) + "," + parts[|parts| - 1]
  }

  function Comma(k: nat): string {
    if k == 0 then "" else ","
  }

  lemma JoinedNext(parts: seq<string>, part: string)
    ensures Joined(parts + [part]) == Joined(parts) + Comma(|parts|) + part
  {
    assert (parts + [part])[..|parts|] == parts;
  }

  function ItemTexts(items: seq<Json>): (r: seq<string>)
    ensures |r| == |items| && forall i :: 0 <= i < |items| ==> r[i] == Print(items[i])
  {
    seq(|items|, i requires 0 <= i < |items| => Print(items[i]))
  }

  function MemberTexts(members: seq<Member>): (r: seq<string>)
    ensures |r| == |members| && forall i :: 0 <= i < |members| ==> r[i] == MemberText(members[i])
  {
    seq(|members|, i requires 0 <= i < |members| => MemberText(members[i]))
  }

  // The printer goes from front to back; the writer adds at the end.

  function Before(k: nat, n: nat): string {
    if 0 < k < n then "," else ""
  }

  lemma Regroup(a: string, c: string, t: string, d: string, p: string)
    ensures a + c + (t + d + p) == (a + c + t) + d + p
  {
  }

  lemma ItemsStep(v: Json, k: nat)
    requires v.Arr? && k < |v.items|
    ensures PrintItems(v, k) == Print(v.items[k]) + Before(k + 1, |v.items|) + PrintItems(v, k + 1)
  {
    hide Print;
  }

  lemma MembersStep(v: Json, k: nat)
    requires v.Obj? && k < |v.members|
    ensures PrintMembers(v, k) == MemberText(v.members[k]) + Before(k + 1, |v.members|) + PrintMembers(v, k + 1)
  {
    hide Print, Quote;
  }

  // One more text in front of what is still to come.
  lemma JoinedShift(texts: seq<string>, k: nat, p: string, q: string, all: string)
    requires k < |texts|
    requires Joined(texts[..k]) + Before(k, |texts|) + p == all && p == texts[k] + Before(k + 1, |texts|) + q
    ensures Joined(texts[..k + 1]) + Before(k + 1, |texts|) + q == all
  {
    JoinedNext(texts[..k], texts[k]);
    assert texts[..k + 1] == texts[..k] + [texts[k]];
    Regroup(Joined(texts[..k]), Before(k, |texts|), texts[k], Before(k + 1, |texts|), q);
    hide Joined;
  }

  lemma {:induction false} ItemsJoined(v: Json, k: nat)
    requires v.Arr? && k <= |v.items|
    ensures Joined(ItemTexts(v.items)[..k]) + Before(k, |v.items|) + PrintItems(v, k) == PrintItems(v, 0)
  {
    var texts := ItemTexts(v.items);
    if k == 0 {
      assert texts[..0] == [];
    } else {
      hide *;
      ItemsJoined(v, k - 1);
      ItemsStep(v, k - 1);
      JoinedShift(texts, k - 1, PrintItems(v, k - 1), PrintItems(v, k), PrintItems(v, 0));
    }
  }

  lemma {:induction false} MembersJoined(v: Json, k: nat)
    requires v.Obj? && k <= |v.members|
    ensures Joined(MemberTexts(v.members)[..k]) + Before(k, |v.members|) + PrintMembers(v, k) == PrintMembers(v, 0)
  {
    var texts := MemberTexts(v.members);
    if k == 0 {
      assert texts[..0] == [];
    } else {
      hide *;
      MembersJoined(v, k - 1);
      MembersStep(v, k - 1);
      JoinedShift(texts, k - 1, PrintMembers(v, k - 1), PrintMembers(v, k), PrintMembers(v, 0));
    }
  }

  lemma ArrJoined(items: seq<Json>)
    ensures Print(Arr(items)) == "[" + Joined(ItemTexts(items)) + "]"
  {
    ItemsJoined(Arr(items), |items|);
    assert ItemTexts(items)[..|items|] == ItemTexts(items);
  }

  lemma ObjJoined(members: seq<Member>)
    ensures Print(Obj(members)) == "{" + Joined(MemberTexts(members)) + "}"
  {
    MembersJoined(Obj(members), |members|);
    assert MemberTexts(members)[..|members|] == MemberTexts(members);
  }

  // The writer.

  class JsonWriter {
    var out: string

    constructor ()
      ensures out == ""
    {
      out := "";
    }

    method Push(s: string)
      modifies this
      ensures out == old(out) + s
    {
      out := out + s;
    }

    // One character of a string literal.
    method WriteChar(c: char)
      modifies this
      ensures out == old(out) + Escape(c)
    {
      match c {
        case '"' => Push("\\\"");
        case '\\' => Push("\\\\");
        case '\n' => Push("\\n");
        case '\r' => Push("\\r");
        case '\t' => Push("\\t");
        case _ =>
          if c < ' ' {
            Push("\\u" + Hex04(c as int));
          } else {
            Push([c]);
          }
      }
    }

    /** A string literal, with quotes and escapes. */
    method WriteJsonString(s: string)
      modifies this
      ensures out == old(out) + Quote(s)
    {
      hide Escape;
      ghost var start := out;
      Push("\"");
      for i := 0 to |s|
        invariant out == start + "\"" + EscapeAll(s[..i])
      {
        WriteChar(s[i]);
        EscapeNext(s[..i], s[i]);
        assert s[..i + 1] == s[..i] + [s[i]];
      }
      assert s[..|s|] == s;
      Push("\"");
      assert out == start + Quote(s);
    }

    method WriteKey(key: string)
      modifies this
      ensures out == old(out) + Quote(key) + ":"
    {
      WriteJsonString(key);
      Push(":");
    }

    // A member whose value is a string, and the comma after it.
    method WriteString(key: string, s: string, ghost start: string, ghost members: seq<Member>)
      requires out == Opened(start, members)
      modifies this
      ensures out == Opened(start, members + [Member(key, Str(s))])
    {
      hide Opened, Quote;
      ghost var m := Member(key, Str(s));
      WriteKey(key);
      WriteJsonString(s);
      Push(",");
      assert out == old(out) + (MemberText(m) + ",");
      OpenedNext(start, members, m);
    }

    // A member whose value is written out as it is, and the comma after it.
    method WriteRaw(key: string, text: string, ghost value: Json, ghost start: string, ghost members: seq<Member>)
      requires out == Opened(start, members) && text == Print(value)
      modifies this
      ensures out == Opened(start, members + [Member(key, value)])
    {
      hide Opened, Quote, Print;
      ghost var m := Member(key, value);
      WriteKey(key);
      Push(text + ",");
      assert out == old(out) + (MemberText(m) + ",");
      OpenedNext(start, members, m);
    }

    // The indices of a program point.
    method WriteIndices(indices: seq<nat>)
      modifies this
      ensures out == old(out) + Print(Arr(Naturals(indices)))
    {
      ghost var start, texts := out, ItemTexts(Naturals(indices));
      Push("[");
      assert texts[..0] == [] && out == start + "[" + Joined([]);
      for i := 0 to |indices|
        invariant out == start + "[" + Joined(texts[..i])
      {
        if i > 0 {
          Push(",");
        }
        Push(Decimal(indices[i]));
        hide *;
        ListNext(start + "[", texts, i);
      }
      Push("]");
      ListEnd(start, Naturals(indices));
    }

    method WritePp(pp: ProgramPoint)
      modifies this
      ensures out == old(out) + Print(PpJson(pp))
    {
      ghost var start := out;
      Literals(pp.totalBytes);
      Literals(pp.count);
      OpenedNone(start);
      hide *;
      Push("{");
      ghost var members: seq<Member> := [];
      WriteRaw("tb", Decimal(pp.totalBytes), Natural(pp.totalBytes), start, members);
      members := members + [Member("tb", Natural(pp.totalBytes))];
      WriteRaw("tbk", Decimal(pp.count), Natural(pp.count), start, members);
      members := members + [Member("tbk", Natural(pp.count))];
      WriteRaw("eb", "0", Num("0"), start, members);
      members := members + [Member("eb", Num("0"))];
      WriteRaw("ebk", "0", Num("0"), start, members);
      members := members + [Member("ebk", Num("0"))];
      WriteKey("fs");
      WriteIndices(pp.frameIndices);
      Push("}");
      OpenedEnd(start, members, Member("fs", Arr(Naturals(pp.frameIndices))));
      PpIs(pp);
    }

    // The program points, with commas between them.
    method WritePps(pps: seq<ProgramPoint>)
      modifies this
      ensures out == old(out) + Print(Arr(PpsJson(pps)))
    {
      ghost var start, texts := out, ItemTexts(PpsJson(pps));
      Push("[");
      assert texts[..0] == [] && out == start + "[" + Joined([]);
      for i := 0 to |pps|
        invariant out == start + "[" + Joined(texts[..i])
      {
        if i > 0 {
          Push(",");
        }
        WritePp(pps[i]);
        hide *;
        ListNext(start + "[", texts, i);
      }
      Push("]");
      ListEnd(start, PpsJson(pps));
    }

    // The frame table, with commas between its entries.
    method WriteEntries(entries: seq<string>)
      modifies this
      ensures out == old(out) + Print(Arr(Strings(entries)))
    {
      ghost var start, texts := out, ItemTexts(Strings(entries));
      Push("[");
      assert texts[..0] == [] && out == start + "[" + Joined([]);
      for i := 0 to |entries|
        invariant out == start + "[" + Joined(texts[..i])
      {
        if i > 0 {
          Push(",");
        }
        WriteJsonString(entries[i]);
        hide *;
        ListNext(start + "[", texts, i);
      }
      Push("]");
      ListEnd(start, Strings(entries));
    }

    // The first part of the header: versions, mode and units.
    method WriteUnits(ghost start: string)
      requires out == Opened(start, [])
      modifies this
      ensures out == Opened(start, Units())
    {
      Literals(0);
      UnitsIs();
      hide *;
      ghost var ms: seq<Member> := [];
      WriteRaw("dhatFileVersion", "2", Num("2"), start, ms);
      ms := ms + [Member("dhatFileVersion", Num("2"))];
      WriteString("mode", "rust-heap", start, ms);
      ms := ms + [Member("mode", Str("rust-heap"))];
      WriteString("verb", "Allocated", start, ms);
      ms := ms + [Member("verb", Str("Allocated"))];
      WriteRaw("bklt", "false", Bool(false), start, ms);
      ms := ms + [Member("bklt", Bool(false))];
      WriteRaw("bkacc", "false", Bool(false), start, ms);
      ms := ms + [Member("bkacc", Bool(false))];
      WriteString("bu", "byte", start, ms);
      ms := ms + [Member("bu", Str("byte"))];
      WriteString("bsu", "bytes", start, ms);
      ms := ms + [Member("bsu", Str("bytes"))];
      WriteString("bksu", "blocks", start, ms);
    }

    // The rest of the header: times, command and process.
    method WriteRun(cmd: string, pid: nat, ghost start: string)
      requires out == Opened(start, Units())
      modifies this
      ensures out == Opened(start, Header(cmd, pid))
    {
      Literals(pid);
      HeaderIs(cmd, pid);
      hide *;
      ghost var ms := Units();
      WriteString("tu", "instrs", start, ms);
      ms := ms + [Member("tu", Str("instrs"))];
      WriteString("Mtu", "Minstr", start, ms);
      ms := ms + [Member("Mtu", Str("Minstr"))];
      WriteRaw("tuth", "0", Num("0"), start, ms);
      ms := ms + [Member("tuth", Num("0"))];
      WriteString("cmd", cmd, start, ms);
      ms := ms + [Member("cmd", Str(cmd))];
      WriteRaw("pid", Decimal(pid), Natural(pid), start, ms);
      ms := ms + [Member("pid", Natural(pid))];
      WriteRaw("tg", "0", Num("0"), start, ms);
      ms := ms + [Member("tg", Num("0"))];
      WriteRaw("te", "0", Num("0"), start, ms);
    }

    /** The whole document. */
    method Render(entries: seq<string>, pps: seq<ProgramPoint>, cmd: string, pid: nat)
      modifies this
      ensures out == old(out) + Print(Document(entries, pps, cmd, pid))
    {
      ghost var start, points, table := out, Member("pps", Arr(PpsJson(pps))), Member("ftbl", Arr(Strings(entries)));
      OpenedNone(start);
      DocumentIs(entries, pps, cmd, pid);
      hide *;
      Push("{");
      WriteUnits(start);
      WriteRun(cmd, pid, start);
      ghost var ms := Header(cmd, pid);
      WriteKey("pps");
      WritePps(pps);
      Push(",");
      ValueNext(start, ms, points);
      WriteKey("ftbl");
      WriteEntries(entries);
      Push("}");
      OpenedEnd(start, ms + [points], table);
    }
  }

  lemma ListNext(start: string, texts: seq<string>, i: nat)
    requires i < |texts|
    ensures start + Joined(texts[..i]) + Comma(i) + texts[i] == start + Joined(texts[..i + 1])
  {
    JoinedNext(texts[..i], texts[i]);
    assert texts[..i + 1] == texts[..i] + [texts[i]];
    hide Joined;
  }

  lemma ListEnd(start: string, items: seq<Json>)
    ensures var texts := ItemTexts(items); start + "[" + Joined(texts[..|items|]) + "]" == start + Print(Arr(items))
  {
    ArrJoined(items);
    assert ItemTexts(items)[..|items|] == ItemTexts(items);
    hide Joined, Print;
  }

  // An object that has been begun: these members, and the comma after them.
  function Opened(start: string, members: seq<Member>): string {
    start + "{" + Joined(MemberTexts(members)) + Comma(|members|)
  }

  lemma TextsNext(members: seq<Member>, m: Member)
    ensures MemberTexts(members + [m]) == MemberTexts(members) + [MemberText(m)]
  {
    hide MemberText;
  }

  lemma OpenedNone(start: string)
    ensures start + "{" == Opened(start, [])
  {
    assert MemberTexts([]) == [];
  }

  lemma OpenedNext(start: string, members: seq<Member>, m: Member)
    ensures Opened(start, members) + (MemberText(m) + ",") == Opened(start, members + [m])
  {
    TextsNext(members, m);
    JoinedNext(MemberTexts(members), MemberText(m));
    hide Joined, MemberText, MemberTexts;
  }

  lemma OpenedEnd(start: string, members: seq<Member>, m: Member)
    ensures Opened(start, members) + Quote(m.key) + ":" + Print(m.value) + "}" == start + Print(Obj(members + [m]))
  {
    TextsNext(members, m);
    JoinedNext(MemberTexts(members), MemberText(m));
    ObjJoined(members + [m]);
    hide Joined, MemberTexts, Print, Quote;
  }

  lemma PpIs(pp: ProgramPoint)
    ensures PpJson(pp) ==
            Obj([] + [Member("tb", Natural(pp.totalBytes))] + [Member("tbk", Natural(pp.count))] +
                [Member("eb", Num("0"))] + [Member("ebk", Num("0"))] + [Member("fs", Arr(Naturals(pp.frameIndices)))])
  {
    hide Natural, Naturals;
  }

  // The header up to the units.
  function Units(): seq<Member> {
    [
      Member("dhatFileVersion", Num("2")), Member("mode", Str("rust-heap")), Member("verb", Str("Allocated")),
      Member("bklt", Bool(false)), Member("bkacc", Bool(false)),
      Member("bu", Str("byte")), Member("bsu", Str("bytes")), Member("bksu", Str("blocks"))
    ]
  }

  lemma UnitsIs()
    ensures Units() ==
            [] + [Member("dhatFileVersion", Num("2"))] + [Member("mode", Str("rust-heap"))] +
            [Member("verb", Str("Allocated"))] + [Member("bklt", Bool(false))] + [Member("bkacc", Bool(false))] +
            [Member("bu", Str("byte"))] + [Member("bsu", Str("bytes"))] + [Member("bksu", Str("blocks"))]
  {
  }

  lemma HeaderIs(cmd: string, pid: nat)
    ensures Header(cmd, pid) ==
            Units() + [Member("tu", Str("instrs"))] + [Member("Mtu", Str("Minstr"))] + [Member("tuth", Num("0"))] +
            [Member("cmd", Str(cmd))] + [Member("pid", Natural(pid))] + [Member("tg", Num("0"))] +
            [Member("te", Num("0"))]
  {
    hide Natural;
  }

  lemma DocumentIs(entries: seq<string>, pps: seq<ProgramPoint>, cmd: string, pid: nat)
    ensures Document(entries, pps, cmd, pid) ==
            Obj(Header(cmd, pid) + [Member("pps", Arr(PpsJson(pps)))] + [Member("ftbl", Arr(Strings(entries)))])
  {
    hide Header, PpsJson, Strings;
  }

  lemma ValueNext(start: string, members: seq<Member>, m: Member)
    ensures Opened(start, members) + Quote(m.key) + ":" + Print(m.value) + "," == Opened(start, members + [m])
  {
    OpenedNext(start, members, m);
    hide Opened, Quote, Print;
  }

  lemma Literals(n: nat)
    ensures Print(Natural(n)) == Decimal(n)
    ensures Print(Num("0")) == "0" && Print(Num("2")) == "2" && Print(Bool(false)) == "false"
  {
  }
}
