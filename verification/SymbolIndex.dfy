/**
 The Windows symbol index: the public symbols sorted by relative address, one for each address, searched by
 bisection; and the proof that this finds what a scan of the unsorted list finds.
 */
module SymbolIndex {
  import opened Wrappers
  import opened Words

  const TWO_32 := 0x1_0000_0000

  datatype Symbol = Symbol(rva: nat, name: string)

  // What a list says about one address: the name of the first symbol listed at it.
  function First(symbols: seq<Symbol>, rva: nat): Option<string> {
    if symbols == [] then None
    else
      match First(symbols[..|symbols| - 1], rva)
      case Some(name) => Some(name)
      case None => if symbols[|symbols| - 1].rva == rva then Some(symbols[|symbols| - 1].name) else None
  }

  // Two lists say the same.
  ghost predicate Same(a: seq<Symbol>, b: seq<Symbol>) {
    forall rva: nat :: First(a, rva) == First(b, rva)
  }

  ghost predicate Sorted(symbols: seq<Symbol>) {
    forall i, j :: 0 <= i < j < |symbols| ==> symbols[i].rva <= symbols[j].rva
  }

  ghost predicate Ascending(symbols: seq<Symbol>) {
    forall i, j :: 0 <= i < j < |symbols| ==> symbols[i].rva < symbols[j].rva
  }

  lemma {:induction false} FirstSplit(a: seq<Symbol>, b: seq<Symbol>, rva: nat)
    ensures First(a + b, rva) == if First(a, rva).Some? then First(a, rva) else First(b, rva)
    decreases |b|
  {
    if b == [] {
      assert a + b == a;
    } else {
      var n := |b| - 1;
      FirstSplit(a, b[..n], rva);
      assert (a + b)[..|a| + n] == a + b[..n];
    }
  }

  lemma {:induction false} FirstMissing(symbols: seq<Symbol>, rva: nat)
    ensures First(symbols, rva) == None <==> forall i :: 0 <= i < |symbols| ==> symbols[i].rva != rva
  {
    if symbols != [] {
      FirstMissing(symbols[..|symbols| - 1], rva);
    }
  }

  // Sorting.

  // Inserting a symbol behind all that are not above it.
  lemma InsertSame(a: seq<Symbol>, x: Symbol, b: seq<Symbol>)
    requires forall i :: 0 <= i < |b| ==> b[i].rva > x.rva
    ensures Same(a + [x] + b, a + b + [x])
  {
    forall rva: nat ensures First(a + [x] + b, rva) == First(a + b + [x], rva) {
      FirstSplit(a + [x], b, rva);
      FirstSplit(a, [x], rva);
      FirstSplit(a + b, [x], rva);
      FirstSplit(a, b, rva);
      FirstMissing(b, rva);
      FirstMissing([x], rva);
      hide First;
    }
  }

  lemma AppendSame(a: seq<Symbol>, b: seq<Symbol>, x: Symbol)
    requires Same(a, b)
    ensures Same(a + [x], b + [x])
  {
    forall rva: nat ensures First(a + [x], rva) == First(b + [x], rva) {
      FirstSplit(a, [x], rva);
      FirstSplit(b, [x], rva);
      hide First;
    }
  }

  lemma SameTwice(a: seq<Symbol>, b: seq<Symbol>, c: seq<Symbol>)
    requires Same(a, b) && Same(b, c)
    ensures Same(a, c)
  {
    hide First;
  }

  /** A stable sort by relative address: symbols at the same address keep their order. */
  method SortByRva(symbols: seq<Symbol>) returns (out: seq<Symbol>)
    ensures Sorted(out) && Same(out, symbols) && multiset(out) == multiset(symbols)
  {
    hide First;
    out := [];
    for k := 0 to |symbols|
      invariant Sorted(out) && Same(out, symbols[..k]) && multiset(out) == multiset(symbols[..k])
    {
      var x := symbols[k];
      var i := |out|;
      while i > 0 && out[i - 1].rva > x.rva
        invariant 0 <= i <= |out|
        invariant forall j :: i <= j < |out| ==> out[j].rva > x.rva
      {
        i := i - 1;
      }
      Inserted(out, symbols[..k], x, i);
      out := out[..i] + [x] + out[i..];
      assert symbols[..k + 1] == symbols[..k] + [x];
    }
    assert symbols[..|symbols|] == symbols;
  }

  lemma Inserted(out: seq<Symbol>, symbols: seq<Symbol>, x: Symbol, i: nat)
    requires Sorted(out) && Same(out, symbols) && multiset(out) == multiset(symbols) && i <= |out|
    requires forall j :: i <= j < |out| ==> out[j].rva > x.rva
    requires i > 0 ==> out[i - 1].rva <= x.rva
    ensures var put := out[..i] + [x] + out[i..];
            Sorted(put) && Same(put, symbols + [x]) && multiset(put) == multiset(symbols + [x])
  {
    hide *;
    assert out[..i] + out[i..] == out;
    InsertedSorted(out, x, i);
    InsertSame(out[..i], x, out[i..]);
    AppendSame(out, symbols, x);
    SameTwice(out[..i] + [x] + out[i..], out + [x], symbols + [x]);
    InsertedElements(out[..i], out[i..], symbols, x);
  }

  lemma InsertedSorted(out: seq<Symbol>, x: Symbol, i: nat)
    requires Sorted(out) && i <= |out| && (forall j :: i <= j < |out| ==> out[j].rva > x.rva)
    requires i > 0 ==> out[i - 1].rva <= x.rva
    ensures Sorted(out[..i] + [x] + out[i..])
  {
  }

  lemma InsertedElements(a: seq<Symbol>, b: seq<Symbol>, symbols: seq<Symbol>, x: Symbol)
    requires multiset(a + b) == multiset(symbols)
    ensures multiset(a + [x] + b) == multiset(symbols + [x])
  {
  }

  /** Dropping all but the first of the symbols at each address. */
  method DedupByRva(symbols: seq<Symbol>) returns (out: seq<Symbol>)
    requires Sorted(symbols)
    ensures Ascending(out) && Same(out, symbols)
  {
    hide First;
    out := [];
    for k := 0 to |symbols|
      invariant Ascending(out) && Same(out, symbols[..k])
      invariant out == [] <==> k == 0
      invariant k > 0 ==> out[|out| - 1].rva == symbols[k - 1].rva
    {
      var x := symbols[k];
      Kept(out, symbols[..k], x);
      if out == [] || out[|out| - 1].rva != x.rva {
        out := out + [x];
      }
      assert symbols[..k + 1] == symbols[..k] + [x];
    }
    assert symbols[..|symbols|] == symbols;
  }

  lemma Kept(out: seq<Symbol>, symbols: seq<Symbol>, x: Symbol)
    requires Ascending(out) && Same(out, symbols)
    requires out != [] ==> out[|out| - 1].rva <= x.rva
    ensures if out == [] || out[|out| - 1].rva != x.rva then Ascending(out + [x]) && Same(out + [x], symbols + [x])
            else Same(out, symbols + [x])
  {
    AppendSame(out, symbols, x);
    if out != [] && out[|out| - 1].rva == x.rva {
      forall rva: nat ensures First(out, rva) == First(out + [x], rva) {
        FirstSplit(out, [x], rva);
        FirstMissing(out, rva);
        FirstMissing([x], rva);
        hide First;
      }
      SameTwice(out, out + [x], symbols + [x]);
    }
  }

  method Build(symbols: seq<Symbol>) returns (index: seq<Symbol>)
    ensures Ascending(index) && Same(index, symbols)
  {
    var sorted := SortByRva(symbols);
    index := DedupByRva(sorted);
    SameTwice(index, sorted, symbols);
  }

  // Searching.

  datatype Position = Found(i: nat) | Absent(i: nat)

  /** Bisection: where the address is, or where it would have to be put. */
  method BinarySearch(index: seq<Symbol>, rva: nat) returns (p: Position)
    requires Ascending(index)
    ensures match p
            case Found(i) => i < |index| && index[i].rva == rva
            case Absent(i) =>
              && i <= |index| && (forall j :: 0 <= j < i ==> index[j].rva < rva)
              && (forall j :: i <= j < |index| ==> index[j].rva > rva)
  {
    var low, high := 0, |index|;
    while low < high
      invariant low <= high <= |index|
      invariant forall j :: 0 <= j < low ==> index[j].rva < rva
      invariant forall j :: high <= j < |index| ==> index[j].rva > rva
    {
      var mid := (low + high) / 2;
      if index[mid].rva == rva {
        return Found(mid);
      } else if index[mid].rva < rva {
        low := mid + 1;
      } else {
        high := mid;
      }
    }
    p := Absent(low);
  }

  // The low 32 bits of an address.
  function Low32(address: u64): (r: nat)
    ensures r == address % TWO_32
  {
    Low32Mask(address);
    And(address, 0xFFFF_FFFF)
  }

  lemma Low32Mask(address: u64)
    ensures And(address, 0xFFFF_FFFF) == address % TWO_32
  {
    assert Pow2(32) == TWO_32 by {
      Pow2Of32();
    }
    hide *;
    AndMask(address, 32);
  }

  lemma Pow2Of32()
    ensures Pow2(32) == TWO_32
  {
    assert Pow2(4) == 16;
    hide *;
    Pow2Add(4, 4);
    Pow2Add(8, 8);
    Pow2Add(16, 16);
  }

  // This is the name of the first symbol listed at the greatest address not above the target, if there is one.
  ghost predicate Names(symbols: seq<Symbol>, target: nat, name: Option<string>) {
    match name
    case None => forall rva: nat :: rva <= target ==> First(symbols, rva) == None
    case Some(_) => exists rva: nat :: NamesAt(symbols, target, name, rva)
  }

  ghost predicate NamesAt(symbols: seq<Symbol>, target: nat, name: Option<string>, rva: nat) {
    && rva <= target && First(symbols, rva) == name && name.Some?
    && forall above: nat :: rva < above <= target ==> First(symbols, above) == None
  }

  lemma NamesOnce(symbols: seq<Symbol>, target: nat, a: Option<string>, b: Option<string>)
    requires Names(symbols, target, a) && Names(symbols, target, b)
    ensures a == b
  {
    if a.Some? && b.Some? {
      var x: nat :| NamesAt(symbols, target, a, x);
      var y: nat :| NamesAt(symbols, target, b, y);
      assert x < y ==> First(symbols, y) == None;
      assert y < x ==> First(symbols, x) == None;
    }
    hide First;
  }

  // The index looked up.
  method Resolve(index: seq<Symbol>, address: u64) returns (name: Option<string>)
    requires Ascending(index)
    ensures Names(index, Low32(address), name)
  {
    hide First;
    var target := Low32(address);
    var p := BinarySearch(index, target);
    match p
    case Found(i) =>
      FirstAt(index, i);
      name := Some(index[i].name);
      assert NamesAt(index, target, name, target);
    case Absent(i) =>
      if i == 0 {
        name := None;
        NoneBelow(index, target);
      } else {
        FirstAt(index, i - 1);
        NoneBetween(index, i - 1, target);
        name := Some(index[i - 1].name);
        assert NamesAt(index, target, name, index[i - 1].rva);
      }
  }

  lemma FirstAt(index: seq<Symbol>, i: nat)
    requires Ascending(index) && i < |index|
    ensures First(index, index[i].rva) == Some(index[i].name)
  {
    var rva := index[i].rva;
    assert index == index[..i] + ([index[i]] + index[i + 1..]);
    FirstSplit(index[..i], [index[i]] + index[i + 1..], rva);
    FirstSplit([index[i]], index[i + 1..], rva);
    FirstMissing(index[..i], rva);
    assert First([index[i]], rva) == Some(index[i].name) by {
      assert [index[i]][..0] == [];
    }
    hide First;
  }

  lemma NoneBelow(index: seq<Symbol>, target: nat)
    requires forall j :: 0 <= j < |index| ==> index[j].rva > target
    ensures forall rva: nat :: rva <= target ==> First(index, rva) == None
  {
    forall rva: nat | rva <= target ensures First(index, rva) == None {
      FirstMissing(index, rva);
    }
  }

  lemma NoneBetween(index: seq<Symbol>, i: nat, target: nat)
    requires Ascending(index) && i < |index| && forall j :: i < j < |index| ==> index[j].rva > target
    ensures forall rva: nat :: index[i].rva < rva <= target ==> First(index, rva) == None
  {
    forall rva: nat | index[i].rva < rva <= target ensures First(index, rva) == None {
      FirstMissing(index, rva);
    }
  }

  // The plain scan of the list as it comes.

  // The better of what was found so far and one more symbol: a greater address wins, an equal one does not.
  function Better(best: Option<Symbol>, x: Symbol, target: nat): Option<Symbol> {
    if x.rva <= target && (best.None? || best.value.rva < x.rva) then Some(x) else best
  }

  function LinearScan(symbols: seq<Symbol>, target: nat): Option<Symbol> {
    if symbols == [] then None
    else Better(LinearScan(symbols[..|symbols| - 1], target), symbols[|symbols| - 1], target)
  }

  function NameOf(best: Option<Symbol>): Option<string> {
    if best.None? then None else Some(best.value.name)
  }

  // What the scan has found is at the greatest address not above the target, under the name listed first there.
  ghost predicate Scanned(symbols: seq<Symbol>, target: nat, best: Option<Symbol>) {
    if best.None? then forall rva: nat :: rva <= target ==> First(symbols, rva) == None
    else NamesAt(symbols, target, Some(best.value.name), best.value.rva)
  }

  lemma FirstNext(symbols: seq<Symbol>, x: Symbol)
    ensures forall rva: nat {:trigger First(symbols + [x], rva)} ::
              First(symbols + [x], rva) ==
              if First(symbols, rva).Some? then First(symbols, rva) else if x.rva == rva then Some(x.name) else None
  {
    assert (symbols + [x])[..|symbols|] == symbols;
  }

  lemma ScanStep(symbols: seq<Symbol>, x: Symbol, target: nat, best: Option<Symbol>)
    requires Scanned(symbols, target, best)
    ensures Scanned(symbols + [x], target, Better(best, x, target))
  {
    FirstNext(symbols, x);
    hide First;
  }

  lemma ScannedNames(symbols: seq<Symbol>, target: nat, best: Option<Symbol>)
    requires Scanned(symbols, target, best)
    ensures Names(symbols, target, NameOf(best))
  {
    hide First, NamesAt;
  }

  lemma {:induction false} ScanNames(symbols: seq<Symbol>, target: nat)
    ensures Scanned(symbols, target, LinearScan(symbols, target))
    ensures Names(symbols, target, NameOf(LinearScan(symbols, target)))
  {
    if symbols != [] {
      var n := |symbols| - 1;
      ScanNames(symbols[..n], target);
      ScanStep(symbols[..n], symbols[n], target, LinearScan(symbols[..n], target));
      assert symbols[..n] + [symbols[n]] == symbols;
    }
    hide Scanned, Better;
    ScannedNames(symbols, target, LinearScan(symbols, target));
  }

  /**
   Looking an address up in the sorted, deduplicated index finds exactly what a scan of the original list finds: the
   first listed symbol at the greatest address not above the low 32 bits, and nothing if there is no such symbol.
   */
  method LookUp(symbols: seq<Symbol>, address: u64) returns (name: Option<string>)
    ensures name == NameOf(LinearScan(symbols, address % TWO_32))
    ensures name.None? <==> forall i :: 0 <= i < |symbols| ==> symbols[i].rva > address % 0x1_0000_0000
    ensures name.Some? ==> exists i :: Nearest(symbols, address % 0x1_0000_0000, i) && symbols[i].name == name.value
  {
    assert TWO_32 == 0x1_0000_0000;
    hide *;
    var index := Build(symbols);
    name := Resolve(index, address);
    var target := Low32(address);
    ScanNames(symbols, target);
    SameNames(index, symbols, target, name);
    NamesOnce(symbols, target, name, NameOf(LinearScan(symbols, target)));
    NearestIs(symbols, target, name);
  }

  // Symbol i is the first listed at its address, which is the greatest of all that are not above the target.
  ghost predicate Nearest(symbols: seq<Symbol>, target: nat, i: int) {
    && 0 <= i < |symbols| && symbols[i].rva <= target
    && (forall j :: 0 <= j < i ==> symbols[j].rva != symbols[i].rva)
    && forall j :: 0 <= j < |symbols| && symbols[j].rva <= target ==> symbols[j].rva <= symbols[i].rva
  }

  lemma NearestIs(symbols: seq<Symbol>, target: nat, name: Option<string>)
    requires Names(symbols, target, name)
    ensures name.None? <==> forall i :: 0 <= i < |symbols| ==> symbols[i].rva > target
    ensures name.Some? ==> exists i :: Nearest(symbols, target, i) && symbols[i].name == name.value
  {
    if name.None? {
      forall i | 0 <= i < |symbols| ensures symbols[i].rva > target {
        FirstMissing(symbols, symbols[i].rva);
      }
    } else {
      var rva: nat :| NamesAt(symbols, target, name, rva);
      var i := FirstListed(symbols, rva);
      forall j | 0 <= j < |symbols| && symbols[j].rva <= target ensures symbols[j].rva <= rva {
        FirstMissing(symbols, symbols[j].rva);
      }
      hide First;
      assert Nearest(symbols, target, i);
    }
  }

  lemma {:induction false} FirstListed(symbols: seq<Symbol>, rva: nat) returns (i: nat)
    requires First(symbols, rva).Some?
    ensures i < |symbols| && symbols[i].rva == rva && First(symbols, rva) == Some(symbols[i].name)
    ensures forall j :: 0 <= j < i ==> symbols[j].rva != rva
  {
    var n := |symbols| - 1;
    if First(symbols[..n], rva).Some? {
      i := FirstListed(symbols[..n], rva);
    } else {
      FirstMissing(symbols[..n], rva);
      i := n;
    }
  }

  lemma SameNames(a: seq<Symbol>, b: seq<Symbol>, target: nat, name: Option<string>)
    requires Same(a, b) && Names(a, target, name)
    ensures Names(b, target, name)
  {
    hide First;
    if name.Some? {
      var rva: nat :| NamesAt(a, target, name, rva);
      assert NamesAt(b, target, name, rva);
    }
  }
}
