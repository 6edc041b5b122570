/** The compact printer of JSON values, and the proof that the reader recovers every value from its printed form. */
module JsonPrint {
  import opened Wrappers
  import opened JsonText
  import opened Numerals

  // Strings as the writer escapes them.

  function Escape(c: char): string {
    match c
    case '"' => "\\\""
    case '\\' => "\\\\"
    case '\n' => "\\n"
    case '\r' => "\\r"
    case '\t' => "\\t"
    case _ => if c < ' ' then "\\u" + Hex04(c as int) else [c]
  }

  function EscapeAll(s: string): string {
    if s == "" then "" else Escape(s[0]) + EscapeAll(s[1..])
  }

  function Quote(s: string): string {
    "\"" + EscapeAll(s) + "\""
  }

  lemma {:induction false} EscapeNext(s: string, c: char)
    ensures EscapeAll(s + [c]) == EscapeAll(s) + Escape(c)
    decreases |s|
  {
    if s != "" {
      assert (s + [c])[1..] == s[1..] + [c];
      EscapeNext(s[1..], c);
    }
  }

  // The letter after the backslash of a short escape.
  function Letter(c: char): char {
    match c
    case '\n' => 'n'
    case '\r' => 'r'
    case '\t' => 't'
    case _ => c
  }

  lemma ReadShort(c: char, rest: string)
    requires c == '"' || c == '\\' || c == '\n' || c == '\r' || c == '\t'
    ensures Escape(c) == ['\\', Letter(c)] && ReadEscape([Letter(c)] + rest) == Some(Parsed(c, rest))
  {
    assert ([Letter(c)] + rest)[1..] == rest;
    hide ReadHex4;
  }

  lemma ReadBackslash(c: char, s: string, rest: string)
    requires ReadEscape(s) == Some(Parsed(c, rest))
    ensures ReadChars("\\" + s) == PutFirst(c, ReadChars(rest))
  {
    assert ("\\" + s)[1..] == s;
    hide ReadEscape;
  }

  lemma ShortEscape(c: char, rest: string)
    requires c == '"' || c == '\\' || c == '\n' || c == '\r' || c == '\t'
    ensures ReadChars(Escape(c) + rest) == PutFirst(c, ReadChars(rest))
  {
    hide *;
    ReadShort(c, rest);
    ReadBackslash(c, [Letter(c)] + rest, rest);
    assert ['\\', Letter(c)] + rest == "\\" + ([Letter(c)] + rest);
  }

  lemma ControlDigits(n: nat)
    requires n < 32
    ensures Hex04(n) == "00" + [DigitChar(n / 16)] + [DigitChar(n % 16)]
  {
    DigitCharIs(n % 16);
    DigitCharIs(n / 16);
    assert n >= 16 ==> n / 16 == 1 && Digits(1, 16) == [DigitChar(1)];
  }

  lemma ReadControl(c: char, rest: string)
    requires c < ' '
    ensures ReadHex4(Hex04(c as int) + rest) == Some(Parsed(c as int, rest))
  {
    var n := c as int;
    ControlDigits(n);
    DigitCharIs(n % 16);
    DigitCharIs(n / 16);
    hide Hex04, DigitChar, Digits;
    var t := Hex04(n) + rest;
    assert t[4..] == rest;
    assert HexValue('0') == Some(0);
  }

  lemma ControlEscape(c: char, rest: string)
    requires c < ' '
    ensures ReadChars("\\u" + Hex04(c as int) + rest) == PutFirst(c, ReadChars(rest))
  {
    var t := Hex04(c as int) + rest;
    hide *;
    ReadControl(c, rest);
    ReadUnicode(c, t, rest);
    ReadBackslash(c, "u" + t, rest);
    RegroupControl(Hex04(c as int), rest);
  }

  lemma ReadUnicode(c: char, t: string, rest: string)
    requires c < ' ' && ReadHex4(t) == Some(Parsed(c as int, rest))
    ensures ReadEscape("u" + t) == Some(Parsed(c, rest))
  {
    assert ("u" + t)[1..] == t;
    hide ReadHex4;
  }

  lemma RegroupControl(digits: string, rest: string)
    ensures "\\u" + digits + rest == "\\" + ("u" + (digits + rest))
  {
  }

  lemma RegroupFour(a: string, b: string, c: string, d: string)
    ensures a + b + c + d == a + (b + c + d)
  {
  }

  lemma EscapeRead(c: char, rest: string)
    ensures ReadChars(Escape(c) + rest) == PutFirst(c, ReadChars(rest))
  {
    if c == '"' || c == '\\' || c == '\n' || c == '\r' || c == '\t' {
      ShortEscape(c, rest);
    } else if c < ' ' {
      ControlEscape(c, rest);
      assert Escape(c) + rest == "\\u" + Hex04(c as int) + rest;
    } else {
      assert ([c] + rest)[1..] == rest;
    }
  }

  lemma PutBack(s: string, rest: string)
    requires s != ""
    ensures PutFirst(s[0], Some(Parsed(s[1..], rest))) == Some(Parsed(s, rest))
  {
    assert [s[0]] + s[1..] == s;
  }

  lemma {:induction false} CharsRead(s: string, rest: string)
    ensures ReadChars(EscapeAll(s) + "\"" + rest) == Some(Parsed(s, rest))
    decreases |s|
  {
    if s == "" {
      assert (EscapeAll(s) + "\"" + rest)[1..] == rest;
    } else {
      assert EscapeAll(s) == Escape(s[0]) + EscapeAll(s[1..]);
      hide *;
      CharsRead(s[1..], rest);
      EscapeRead(s[0], EscapeAll(s[1..]) + "\"" + rest);
      RegroupFour(Escape(s[0]), EscapeAll(s[1..]), "\"", rest);
      PutBack(s, rest);
    }
  }

  /**
   For every string and every following text, the string reader recovers the string and stops at the closing quote.
   */
  lemma QuoteRead(s: string, rest: string)
    ensures ReadString(Quote(s) + rest) == Some(Parsed(s, rest))
  {
    CharsRead(s, rest);
    hide ReadChars, EscapeAll;
    assert (Quote(s) + rest)[1..] == EscapeAll(s) + "\"" + rest;
  }

  /** The escapes as they are spelled: two characters, or \u and four hexadecimal digits, or the character itself. */
  lemma EscapeIs(c: char)
    ensures Escape('"') == "\\\"" && Escape('\\') == "\\\\"
    ensures Escape('\n') == "\\n" && Escape('\r') == "\\r" && Escape('\t') == "\\t"
    ensures c >= ' ' && c != '"' && c != '\\' ==> Escape(c) == [c]
    ensures c < ' ' && c != '\n' && c != '\r' && c != '\t' ==>
              var n := c as int;
              Escape(c) == "\\u00" + ["0123456789abcdef"[n / 16]] + ["0123456789abcdef"[n % 16]]
  {
    if c < ' ' {
      var n := c as int;
      ControlDigits(n);
      DigitCharAt(n / 16);
      DigitCharAt(n % 16);
      hide Hex04, DigitChar;
    }
  }

  lemma EscapeIsPrintable(c: char, i: nat)
    requires i < |Escape(c)|
    ensures Escape(c)[i] >= ' '
  {
    if c < ' ' && |Escape(c)| > 2 {
      var n := c as int;
      DigitCharIs(n % 16);
      DigitCharIs(n / 16);
      assert n >= 16 ==> Digits(n / 16, 16) == [DigitChar(n / 16)];
    }
  }

  /** The printed string holds no raw control character. */
  lemma {:induction false} QuoteIsPrintable(s: string, i: nat)
    requires i < |Quote(s)|
    ensures Quote(s)[i] >= ' '
  {
    if 0 < i < |Quote(s)| - 1 {
      if i - 1 < |Escape(s[0])| {
        EscapeIsPrintable(s[0], i - 1);
      } else {
        var j := i - |Escape(s[0])|;
        assert Quote(s)[i] == Quote(s[1..])[j];
        QuoteIsPrintable(s[1..], j);
      }
    }
  }

  // Values.

  function Print(v: Json): string
    decreases v, 1, 0
  {
    match v
    case Null => "null"
    case Bool(b) => if b then "true" else "false"
    case Num(lexeme) => lexeme
    case Str(s) => Quote(s)
    case Arr(items) => "[" + PrintItems(v, 0) + "]"
    case Obj(members) => "{" + PrintMembers(v, 0) + "}"
  }

  // Items k and on of an array, with commas between them.
  function PrintItems(v: Json, k: nat): string
    requires v.Arr? && k <= |v.items|
    decreases v, 0, |v.items| - k
  {
    if k == |v.items| then ""
    else if k + 1 == |v.items| then Print(v.items[k])
    else Print(v.items[k]) + "," + PrintItems(v, k + 1)
  }

  function PrintMembers(v: Json, k: nat): string
    requires v.Obj? && k <= |v.members|
    decreases v, 0, |v.members| - k
  {
    if k == |v.members| then ""
    else
      var first := Quote(v.members[k].key) + ":" + Print(v.members[k].value);
      if k + 1 == |v.members| then first else first + "," + PrintMembers(v, k + 1)
  }

  // Every number is spelled as the grammar demands.
  predicate Proper(v: Json) {
    match v
    case Num(lexeme) => IsNumber(lexeme)
    case Arr(items) => forall k :: 0 <= k < |items| ==> Proper(items[k])
    case Obj(members) => forall k :: 0 <= k < |members| ==> Proper(members[k].value)
    case _ => true
  }

  // Reading back what was printed.

  // The text after a number does not go on with it.
  predicate Stops(rest: string) {
    rest == "" || !(IsDigit(rest[0]) || rest[0] == '.' || rest[0] == 'e' || rest[0] == 'E')
  }

  lemma {:induction false} DigitsEndAppend(s: string, rest: string, i: nat)
    requires i <= |s| && Stops(rest)
    ensures DigitsEnd(s + rest, i) == DigitsEnd(s, i)
    decreases |s| - i
  {
    if i < |s| && IsDigit(s[i]) {
      DigitsEndAppend(s, rest, i + 1);
    }
  }

  lemma NumberRead(lexeme: string, rest: string)
    requires IsNumber(lexeme) && Stops(rest)
    ensures ReadNumber(lexeme + rest) == Some(Parsed(lexeme, rest))
  {
    var s := lexeme + rest;
    var sign := if lexeme[0] == '-' then 1 else 0;
    var i := IntEnd(lexeme, sign).value;
    var f := FracEnd(lexeme, i).value;
    IntAppend(lexeme, rest, sign);
    FracAppend(lexeme, rest, i);
    ExpAppend(lexeme, rest, f);
    hide IntEnd, FracEnd, ExpEnd;
    assert s[..|lexeme|] == lexeme && s[|lexeme|..] == rest;
  }

  lemma IntAppend(s: string, rest: string, i: nat)
    requires i <= |s| && IntEnd(s, i).Some? && Stops(rest)
    ensures IntEnd(s + rest, i) == IntEnd(s, i)
  {
    DigitsEndAppend(s, rest, i + 1);
    hide DigitsEnd;
  }

  lemma FracAppend(s: string, rest: string, i: nat)
    requires i <= |s| && FracEnd(s, i).Some? && Stops(rest)
    ensures FracEnd(s + rest, i) == FracEnd(s, i)
  {
    if i + 1 <= |s| {
      DigitsEndAppend(s, rest, i + 1);
    }
    hide DigitsEnd;
  }

  lemma ExpAppend(s: string, rest: string, i: nat)
    requires i <= |s| && ExpEnd(s, i).Some? && Stops(rest)
    ensures ExpEnd(s + rest, i) == ExpEnd(s, i)
  {
    if i + 2 <= |s| {
      DigitsEndAppend(s, rest, i + 1);
      DigitsEndAppend(s, rest, i + 2);
    }
    hide DigitsEnd;
  }

  lemma NumberHead(lexeme: string)
    requires IsNumber(lexeme)
    ensures lexeme != "" && (lexeme[0] == '-' || IsDigit(lexeme[0]))
  {
    hide DigitsEnd, FracEnd, ExpEnd;
  }

  lemma PrintHead(v: Json)
    requires Proper(v)
    ensures Print(v) != "" && !IsSpace(Print(v)[0]) && Print(v)[0] != ']' && Print(v)[0] != '}'
  {
    if v.Num? {
      NumberHead(v.lexeme);
    }
    hide EscapeAll, PrintItems, PrintMembers, NumberEnd;
  }

  lemma ScalarRead(v: Json, rest: string)
    requires Proper(v) && (v.Num? ==> Stops(rest)) && (v.Null? || v.Bool? || v.Num?)
    ensures ReadValue(Print(v) + rest) == Some(Parsed(v, rest))
  {
    var s := Print(v) + rest;
    if v.Num? {
      NumberHead(v.lexeme);
      NumberRead(v.lexeme, rest);
    }
    hide NumberEnd, ReadNumber;
    assert s[|Print(v)|..] == rest;
    assert v.Bool? && !v.b ==> s[0] == 'f';
  }

  lemma SkipNothing(s: string)
    requires s != "" && !IsSpace(s[0])
    ensures SkipSpace(s) == s
  {
  }

  // One step of the reader.

  lemma ReadStr(s: string, rest: string)
    ensures ReadValue(Quote(s) + rest) == Some(Parsed(Str(s), rest))
  {
    QuoteRead(s, rest);
    hide ReadChars, EscapeAll;
  }

  lemma ReadEmpty(rest: string)
    ensures ReadValue("[]" + rest) == Some(Parsed(Arr([]), rest))
    ensures ReadValue("{}" + rest) == Some(Parsed(Obj([]), rest))
  {
    var a, o := "[]" + rest, "{}" + rest;
    assert a[1..] == "]" + rest && a[1..][1..] == rest;
    assert o[1..] == "}" + rest && o[1..][1..] == rest;
    SkipNothing(a[1..]);
    SkipNothing(o[1..]);
    hide SkipSpace, ReadItems, ReadMembers;
  }

  lemma ReadArr(inside: string, items: seq<Json>, rest: string)
    requires inside != "" && !IsSpace(inside[0]) && inside[0] != ']'
    requires ReadItems(inside) == Some(Parsed(items, rest))
    ensures ReadValue("[" + inside) == Some(Parsed(Arr(items), rest))
  {
    SkipNothing(inside);
    hide SkipSpace, ReadItems;
    assert ("[" + inside)[1..] == inside;
  }

  lemma ReadObj(inside: string, members: seq<Member>, rest: string)
    requires inside != "" && inside[0] == '"'
    requires ReadMembers(inside) == Some(Parsed(members, rest))
    ensures ReadValue("{" + inside) == Some(Parsed(Obj(members), rest))
  {
    SkipNothing(inside);
    hide SkipSpace, ReadMembers;
    assert ("{" + inside)[1..] == inside;
  }

  lemma LastItem(s: string, item: Json, rest: string)
    requires ReadValue(s) == Some(Parsed(item, "]" + rest))
    ensures ReadItems(s) == Some(Parsed([item], rest))
  {
    SkipNothing("]" + rest);
    hide SkipSpace, ReadValue;
    assert ("]" + rest)[1..] == rest;
  }

  lemma MoreItems(s: string, item: Json, tail: string, items: seq<Json>, rest: string)
    requires ReadValue(s) == Some(Parsed(item, "," + tail)) && tail != "" && !IsSpace(tail[0])
    requires ReadItems(tail) == Some(Parsed(items, rest))
    ensures ReadItems(s) == Some(Parsed([item] + items, rest))
  {
    SkipNothing("," + tail);
    SkipNothing(tail);
    hide SkipSpace, ReadValue;
    assert ("," + tail)[1..] == tail;
  }

  lemma LastMember(s: string, member: Member, rest: string)
    requires ReadMember(s) == Some(Parsed(member, "}" + rest))
    ensures ReadMembers(s) == Some(Parsed([member], rest))
  {
    SkipNothing("}" + rest);
    hide SkipSpace, ReadMember;
    assert ("}" + rest)[1..] == rest;
  }

  lemma MoreMembers(s: string, member: Member, tail: string, members: seq<Member>, rest: string)
    requires ReadMember(s) == Some(Parsed(member, "," + tail)) && tail != "" && tail[0] == '"'
    requires ReadMembers(tail) == Some(Parsed(members, rest))
    ensures ReadMembers(s) == Some(Parsed([member] + members, rest))
  {
    SkipNothing("," + tail);
    SkipNothing(tail);
    hide SkipSpace, ReadMember;
    assert ("," + tail)[1..] == tail;
  }

  // The printed text, taken apart the way the reader does.

  lemma PrintIs(v: Json)
    ensures v.Arr? ==> Print(v) == "[" + PrintItems(v, 0) + "]" && (v.items == [] ==> PrintItems(v, 0) == "")
    ensures v.Obj? ==> Print(v) == "{" + PrintMembers(v, 0) + "}" && (v.members == [] ==> PrintMembers(v, 0) == "")
  {
    hide Quote;
  }

  // The printed text in figures: no space anywhere, colons in members, commas between items and between members.

  lemma ScalarText()
    ensures Print(Null) == "null" && Print(Bool(true)) == "true" && Print(Bool(false)) == "false"
    ensures Quote("") == "\"\""
  {
  }

  lemma TwoItems(a: Json, b: Json)
    ensures Print(Arr([a, b])) == "[" + Print(a) + "," + Print(b) + "]"
  {
    hide *;
    var v := Arr([a, b]);
    PrintIs(v);
    ItemsText(v, 0, "");
    ItemsText(v, 1, "");
    var s := Print(b);
    assert s + "" == s && PrintItems(v, 1) + "" == PrintItems(v, 1) && PrintItems(v, 0) + "" == PrintItems(v, 0);
  }

  lemma TwoMembers(a: Member, b: Member)
    ensures Print(Obj([a, b])) == "{" + MemberText(a) + "," + MemberText(b) + "}"
    ensures MemberText(a) == Quote(a.key) + ":" + Print(a.value)
  {
    assert MemberText(a) == Quote(a.key) + ":" + Print(a.value);
    hide *;
    var v := Obj([a, b]);
    PrintIs(v);
    MembersText(v, 0, "");
    MembersText(v, 1, "");
    var s := MemberText(b);
    assert s + "" == s;
    assert PrintMembers(v, 1) + "" == PrintMembers(v, 1) && PrintMembers(v, 0) + "" == PrintMembers(v, 0);
  }

  lemma ArrText(v: Json, rest: string)
    requires v.Arr?
    ensures Print(v) + rest == if v.items == [] then "[]" + rest else "[" + (PrintItems(v, 0) + ("]" + rest))
  {
    hide *;
    PrintIs(v);
  }

  lemma ObjText(v: Json, rest: string)
    requires v.Obj?
    ensures Print(v) + rest == if v.members == [] then "{}" + rest else "{" + (PrintMembers(v, 0) + ("}" + rest))
  {
    hide *;
    PrintIs(v);
  }

  lemma ItemsText(v: Json, k: nat, rest: string)
    requires v.Arr? && k < |v.items|
    ensures PrintItems(v, k) + rest ==
            Print(v.items[k]) + if k + 1 == |v.items| then rest else "," + (PrintItems(v, k + 1) + rest)
  {
    var first := Print(v.items[k]);
    if k + 1 < |v.items| {
      var tail := PrintItems(v, k + 1);
      assert PrintItems(v, k) == first + "," + tail;
      hide *;
      assert first + "," + tail + rest == first + ("," + (tail + rest));
    }
  }

  function MemberText(m: Member): string {
    Quote(m.key) + ":" + Print(m.value)
  }

  lemma MembersText(v: Json, k: nat, rest: string)
    requires v.Obj? && k < |v.members|
    ensures PrintMembers(v, k) + rest ==
            MemberText(v.members[k]) + if k + 1 == |v.members| then rest else "," + (PrintMembers(v, k + 1) + rest)
    ensures PrintMembers(v, k) != "" && PrintMembers(v, k)[0] == '"'
  {
    var first := MemberText(v.members[k]);
    if k + 1 < |v.members| {
      var tail := PrintMembers(v, k + 1);
      assert PrintMembers(v, k) == first + "," + tail;
      hide Print, PrintMembers, EscapeAll;
      assert first + "," + tail + rest == first + ("," + (tail + rest));
    }
  }

  lemma ProperParts(v: Json, k: nat)
    requires Proper(v)
    ensures v.Arr? && k < |v.items| ==> Proper(v.items[k])
    ensures v.Obj? && k < |v.members| ==> Proper(v.members[k].value)
  {
  }

  lemma TailOf<T>(xs: seq<T>, k: nat)
    requires k < |xs|
    ensures xs[k..] == if k + 1 == |xs| then [xs[k]] else [xs[k]] + xs[k + 1..]
  {
  }

  lemma CloserStops(c: char, rest: string)
    requires c == ']' || c == '}' || c == ','
    ensures Stops([c] + rest)
  {
  }

  /**
   The reader undoes the printer: for every proper value and every following text that does not continue a final number,
   reading the printed value gives the value back and stops right after it.
   */
  lemma {:induction false} ValueRead(v: Json, rest: string)
    requires Proper(v) && (v.Num? ==> Stops(rest))
    ensures ReadValue(Print(v) + rest) == Some(Parsed(v, rest))
    decreases v, 1, 0
  {
    match v
    case Str(s) =>
      ReadStr(s, rest);
      hide ReadValue, Quote;
    case Arr(items) =>
      hide *;
      ArrText(v, rest);
      if items == [] {
        ReadEmpty(rest);
      } else {
        ItemsRead(v, 0, rest);
        ItemsHead(v, 0);
        ReadArr(PrintItems(v, 0) + ("]" + rest), items[0..], rest);
      }
    case Obj(members) =>
      hide *;
      ObjText(v, rest);
      if members == [] {
        ReadEmpty(rest);
      } else {
        MembersRead(v, 0, rest);
        MembersText(v, 0, rest);
        ReadObj(PrintMembers(v, 0) + ("}" + rest), members[0..], rest);
      }
    case _ =>
      hide *;
      ScalarRead(v, rest);
  }

  lemma ItemsHead(v: Json, k: nat)
    requires v.Arr? && Proper(v) && k < |v.items|
    ensures PrintItems(v, k) != "" && !IsSpace(PrintItems(v, k)[0]) && PrintItems(v, k)[0] != ']'
  {
    PrintHead(v.items[k]);
    hide Print;
  }

  lemma {:induction false} ItemsRead(v: Json, k: nat, rest: string)
    requires v.Arr? && Proper(v) && k < |v.items|
    ensures ReadItems(PrintItems(v, k) + ("]" + rest)) == Some(Parsed(v.items[k..], rest))
    decreases v, 0, |v.items| - k
  {
    hide *;
    var first, s, end := v.items[k], PrintItems(v, k) + ("]" + rest), "]" + rest;
    ItemsText(v, k, end);
    ProperParts(v, k);
    TailOf(v.items, k);
    if k + 1 == |v.items| {
      CloserStops(']', rest);
      ValueRead(first, end);
      LastItem(s, first, rest);
    } else {
      var tail := PrintItems(v, k + 1) + end;
      CloserStops(',', tail);
      ValueRead(first, "," + tail);
      ItemsRead(v, k + 1, rest);
      ItemsHead(v, k + 1);
      MoreItems(s, first, tail, v.items[k + 1..], rest);
    }
  }

  lemma KeyThenValue(s: string, member: Member, t: string, rest: string)
    requires ReadString(s) == Some(Parsed(member.key, ":" + t)) && t != "" && !IsSpace(t[0])
    requires ReadValue(t) == Some(Parsed(member.value, rest))
    ensures ReadMember(s) == Some(Parsed(member, rest))
  {
    SkipNothing(":" + t);
    SkipNothing(t);
    hide SkipSpace, ReadString, ReadValue;
    assert (":" + t)[1..] == t;
  }

  lemma MemberSplit(m: Member, rest: string)
    ensures MemberText(m) + rest == Quote(m.key) + (":" + (Print(m.value) + rest))
  {
    hide Quote, Print;
  }

  lemma MemberRead(v: Json, k: nat, rest: string)
    requires v.Obj? && Proper(v) && k < |v.members|
    requires ReadValue(Print(v.members[k].value) + rest) == Some(Parsed(v.members[k].value, rest))
    ensures ReadMember(MemberText(v.members[k]) + rest) == Some(Parsed(v.members[k], rest))
  {
    hide *;
    var m := v.members[k];
    ProperParts(v, k);
    PrintHead(m.value);
    MemberSplit(m, rest);
    QuoteRead(m.key, ":" + (Print(m.value) + rest));
    KeyThenValue(MemberText(m) + rest, m, Print(m.value) + rest, rest);
  }

  lemma {:induction false} MembersRead(v: Json, k: nat, rest: string)
    requires v.Obj? && Proper(v) && k < |v.members|
    ensures ReadMembers(PrintMembers(v, k) + ("}" + rest)) == Some(Parsed(v.members[k..], rest))
    decreases v, 0, |v.members| - k
  {
    hide *;
    var first, s, end := v.members[k], PrintMembers(v, k) + ("}" + rest), "}" + rest;
    MembersText(v, k, end);
    ProperParts(v, k);
    TailOf(v.members, k);
    if k + 1 == |v.members| {
      CloserStops('}', rest);
      ValueRead(first.value, end);
      MemberRead(v, k, end);
      LastMember(s, first, rest);
    } else {
      var tail := PrintMembers(v, k + 1) + end;
      CloserStops(',', tail);
      ValueRead(first.value, "," + tail);
      MemberRead(v, k, "," + tail);
      MembersRead(v, k + 1, rest);
      MembersText(v, k + 1, end);
      MoreMembers(s, first, tail, v.members[k + 1..], rest);
    }
  }

  /** Reading a whole printed text gives the value back. */
  lemma TextRead(v: Json)
    requires Proper(v)
    ensures ReadText(Print(v)) == Some(v)
  {
    ValueRead(v, "");
    PrintHead(v);
    SkipNothing(Print(v));
    hide ReadValue, Print;
    assert Print(v) + "" == Print(v);
  }
}
