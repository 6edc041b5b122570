/**
 JSON texts as RFC 8259 defines them, sections 2 to 7: a value type, a reader for the whole grammar (white space,
 all escapes with surrogate pairs, the number grammar), and the plain printer that the document writer is measured
 against.
 */
module JsonText {
  import opened Wrappers

  datatype Member = Member(key: string, value: Json)

  // A number is kept as it is spelled.
  datatype Json =
    | Null
    | Bool(b: bool)
    | Num(lexeme: string)
    | Str(s: string)
    | Arr(items: seq<Json>)
    | Obj(members: seq<Member>)

  // What was read, and the text after it.
  datatype Parsed<+T> = Parsed(value: T, rest: string)

  // White space (section 2).

  predicate IsSpace(c: char) {
    c == ' ' || c == '\t' || c == '\n' || c == '\r'
  }

  function SkipSpace(s: string): (r: string)
    ensures |r| <= |s|
  {
    if s != "" && IsSpace(s[0]) then SkipSpace(s[1..]) else s
  }

  // The rest of s after word, if s begins with it.
  function Expect(s: string, word: string): (r: Option<string>)
    ensures r.Some? ==> s == word + r.value
  {
    if word <= s then Some(s[|word|..]) else None
  }

  // Strings (section 7).

  function HexValue(c: char): (r: Option<nat>)
    ensures r.Some? ==> r.value < 16
  {
    if '0' <= c <= '9' then Some(c as int - '0' as int)
    else if 'a' <= c <= 'f' then Some(c as int - 'a' as int + 10)
    else if 'A' <= c <= 'F' then Some(c as int - 'A' as int + 10)
    else None
  }

  function Four(a: nat, b: nat, c: nat, d: nat): (r: nat)
    requires a < 16 && b < 16 && c < 16 && d < 16
    ensures r < 0x10000
  {
    ((a * 16 + b) * 16 + c) * 16 + d
  }

  function ReadHex4(s: string): (r: Option<Parsed<nat>>)
    ensures r.Some? ==> |r.value.rest| < |s| && r.value.value < 0x10000
  {
    if |s| < 4 then None
    else
      match (HexValue(s[0]), HexValue(s[1]), HexValue(s[2]), HexValue(s[3]))
      case (Some(a), Some(b), Some(c), Some(d)) => Some(Parsed(Four(a, b, c, d), s[4..]))
      case _ => None
  }

  // The escape after a backslash; a code unit of a surrogate pair must come with the other one.
  function ReadEscape(s: string): (r: Option<Parsed<char>>)
    ensures r.Some? ==> |r.value.rest| < |s|
  {
    if s == "" then None
    else
      match s[0]
      case '"' => Some(Parsed('"', s[1..]))
      case '\\' => Some(Parsed('\\', s[1..]))
      case '/' => Some(Parsed('/', s[1..]))
      case 'b' => Some(Parsed(8 as char, s[1..]))
      case 'f' => Some(Parsed(12 as char, s[1..]))
      case 'n' => Some(Parsed('\n', s[1..]))
      case 'r' => Some(Parsed('\r', s[1..]))
      case 't' => Some(Parsed('\t', s[1..]))
      case 'u' =>
        (match ReadHex4(s[1..])
         case None => None
         case Some(Parsed(u, rest)) =>
           if u < 0xD800 || 0xE000 <= u then Some(Parsed(u as char, rest))
           else if u < 0xDC00 then ReadLow(u, rest)
           else None)
      case _ => None
  }

  function ReadLow(high: nat, s: string): (r: Option<Parsed<char>>)
    requires 0xD800 <= high < 0xDC00
    ensures r.Some? ==> |r.value.rest| < |s|
  {
    match Expect(s, "\\u")
    case None => None
    case Some(t) =>
      match ReadHex4(t)
      case None => None
      case Some(Parsed(low, rest)) =>
        if 0xDC00 <= low < 0xE000 then
          Some(Parsed(((high - 0xD800) * 0x400 + (low - 0xDC00) + 0x10000) as char, rest))
        else None
  }

  // The characters of a string up to and including the closing quote.
  function ReadChars(s: string): (r: Option<Parsed<string>>)
    ensures r.Some? ==> |r.value.rest| < |s|
    decreases |s|
  {
    if s == "" then None
    else if s[0] == '"' then Some(Parsed("", s[1..]))
    else if s[0] == '\\' then
      match ReadEscape(s[1..])
      case None => None
      case Some(Parsed(c, rest)) => PutFirst(c, ReadChars(rest))
    else if s[0] < ' ' then None
    else PutFirst(s[0], ReadChars(s[1..]))
  }

  function PutFirst(c: char, r: Option<Parsed<string>>): Option<Parsed<string>> {
    if r.None? then None else Some(Parsed([c] + r.value.value, r.value.rest))
  }

  function ReadString(s: string): (r: Option<Parsed<string>>)
    ensures r.Some? ==> |r.value.rest| < |s|
  {
    if s != "" && s[0] == '"' then ReadChars(s[1..]) else None
  }

  // Numbers (section 6).

  predicate IsDigit(c: char) {
    '0' <= c <= '9'
  }

  // Where the digits from position i on end.
  function DigitsEnd(s: string, i: nat): (e: nat)
    requires i <= |s|
    ensures i <= e <= |s|
    decreases |s| - i
  {
    if i < |s| && IsDigit(s[i]) then DigitsEnd(s, i + 1) else i
  }

  function IntEnd(s: string, i: nat): (e: Option<nat>)
    requires i <= |s|
    ensures e.Some? ==> i < e.value <= |s|
  {
    if i == |s| || !IsDigit(s[i]) then None
    else if s[i] == '0' then Some(i + 1)
    else Some(DigitsEnd(s, i + 1))
  }

  function FracEnd(s: string, i: nat): (e: Option<nat>)
    requires i <= |s|
    ensures e.Some? ==> i <= e.value <= |s|
  {
    if i == |s| || s[i] != '.' then Some(i)
    else if i + 1 < |s| && IsDigit(s[i + 1]) then Some(DigitsEnd(s, i + 1))
    else None
  }

  function ExpEnd(s: string, i: nat): (e: Option<nat>)
    requires i <= |s|
    ensures e.Some? ==> i <= e.value <= |s|
  {
    if i == |s| || (s[i] != 'e' && s[i] != 'E') then Some(i)
    else
      var j := if i + 1 < |s| && (s[i + 1] == '+' || s[i + 1] == '-') then i + 2 else i + 1;
      if j < |s| && IsDigit(s[j]) then Some(DigitsEnd(s, j)) else None
  }

  function NumberEnd(s: string): (e: Option<nat>)
    ensures e.Some? ==> 0 < e.value <= |s|
  {
    match IntEnd(s, if s != "" && s[0] == '-' then 1 else 0)
    case None => None
    case Some(i) =>
      match FracEnd(s, i)
      case None => None
      case Some(f) => ExpEnd(s, f)
  }

  function ReadNumber(s: string): (r: Option<Parsed<string>>)
    ensures r.Some? ==> |r.value.rest| < |s|
  {
    match NumberEnd(s)
    case None => None
    case Some(e) => Some(Parsed(s[..e], s[e..]))
  }

  predicate IsNumber(lexeme: string) {
    NumberEnd(lexeme) == Some(|lexeme|)
  }

  // Values (sections 3 to 5).

  function ReadValue(s: string): (r: Option<Parsed<Json>>)
    ensures r.Some? ==> |r.value.rest| < |s|
    decreases |s|, 0
  {
    if s == "" then None
    else if s[0] == '"' then
      match ReadChars(s[1..])
      case None => None
      case Some(Parsed(str, rest)) => Some(Parsed(Str(str), rest))
    else if s[0] == '[' then
      var t := SkipSpace(s[1..]);
      if t != "" && t[0] == ']' then Some(Parsed(Arr([]), t[1..]))
      else
        match ReadItems(t)
        case None => None
        case Some(Parsed(items, rest)) => Some(Parsed(Arr(items), rest))
    else if s[0] == '{' then
      var t := SkipSpace(s[1..]);
      if t != "" && t[0] == '}' then Some(Parsed(Obj([]), t[1..]))
      else
        match ReadMembers(t)
        case None => None
        case Some(Parsed(members, rest)) => Some(Parsed(Obj(members), rest))
    else ReadScalar(s)
  }

  function ReadScalar(s: string): (r: Option<Parsed<Json>>)
    ensures r.Some? ==> |r.value.rest| < |s|
  {
    match (Expect(s, "null"), Expect(s, "true"), Expect(s, "false"), ReadNumber(s))
    case (Some(rest), _, _, _) => Some(Parsed(Null, rest))
    case (_, Some(rest), _, _) => Some(Parsed(Bool(true), rest))
    case (_, _, Some(rest), _) => Some(Parsed(Bool(false), rest))
    case (_, _, _, Some(Parsed(lexeme, rest))) => Some(Parsed(Num(lexeme), rest))
    case _ => None
  }

  // The items of an array, from a nonempty rest of them on, with the closing bracket.
  function ReadItems(s: string): (r: Option<Parsed<seq<Json>>>)
    ensures r.Some? ==> |r.value.rest| < |s|
    decreases |s|, 1
  {
    match ReadValue(s)
    case None => None
    case Some(Parsed(item, t)) =>
      var u := SkipSpace(t);
      if u == "" then None
      else if u[0] == ']' then Some(Parsed([item], u[1..]))
      else if u[0] != ',' then None
      else
        match ReadItems(SkipSpace(u[1..]))
        case None => None
        case Some(Parsed(items, rest)) => Some(Parsed([item] + items, rest))
  }

  function ReadMember(s: string): (r: Option<Parsed<Member>>)
    ensures r.Some? ==> |r.value.rest| < |s|
    decreases |s|, 1
  {
    match ReadString(s)
    case None => None
    case Some(Parsed(key, t)) =>
      var u := SkipSpace(t);
      if u == "" || u[0] != ':' then None
      else
        match ReadValue(SkipSpace(u[1..]))
        case None => None
        case Some(Parsed(value, rest)) => Some(Parsed(Member(key, value), rest))
  }

  function ReadMembers(s: string): (r: Option<Parsed<seq<Member>>>)
    ensures r.Some? ==> |r.value.rest| < |s|
    decreases |s|, 2
  {
    match ReadMember(s)
    case None => None
    case Some(Parsed(member, t)) =>
      var u := SkipSpace(t);
      if u == "" then None
      else if u[0] == '}' then Some(Parsed([member], u[1..]))
      else if u[0] != ',' then None
      else
        match ReadMembers(SkipSpace(u[1..]))
        case None => None
        case Some(Parsed(members, rest)) => Some(Parsed([member] + members, rest))
  }

  /** A JSON text: one value with white space around it, and nothing else. */
  function ReadText(s: string): Option<Json> {
    match ReadValue(SkipSpace(s))
    case None => None
    case Some(Parsed(v, rest)) => if SkipSpace(rest) == "" then Some(v) else None
  }
}
