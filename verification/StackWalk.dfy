/**
 The frame-pointer walk. Memory is a map from the addresses of readable words to their values: the walk is allowed to
 look at a word only where the stack bounds say one exists.
 */
module StackWalk {
  import opened Words
  import opened FrameHash

  /** Up to eight return addresses, top of stack first, then zeros. */
  datatype Frames = Frames(frames: seq<u64>, count: nat) {
    predicate Valid() {
      |frames| == MAX_FRAMES && count <= MAX_FRAMES
    }

    // What the walk produces: a nonzero prefix of length count, and a zero tail.
    ghost predicate IsTrace() {
      && Valid()
      && (forall i :: 0 <= i < count ==> frames[i] != 0)
      && (forall i :: count <= i < MAX_FRAMES ==> frames[i] == 0)
    }
  }

  datatype StackBounds = StackBounds(low: u64, high: u64)

  type Memory = map<nat, u64>

  // Every 8-byte aligned word inside the bounds is mapped.
  ghost predicate Mapped(mem: Memory, bounds: StackBounds) {
    forall a: nat :: a % 8 == 0 && bounds.low <= a && a + 8 <= bounds.high ==> a in mem
  }

  // The checks made before a frame pointer is dereferenced.
  predicate Readable(fp: u64, bounds: StackBounds): (r: bool)
    ensures r ==> fp % 8 == 0 && (fp + 8) % 8 == 0
  {
    fp != 0 && fp % 16 == 0 && bounds.low <= fp && fp + 16 <= bounds.high
  }

  /** The reference: the chain of return addresses from fp, with no limit on its length. */
  ghost function Chain(mem: Memory, fp: u64, bounds: StackBounds): (c: seq<u64>)
    requires Mapped(mem, bounds)
    ensures forall i :: 0 <= i < |c| ==> c[i] != 0
    decreases if fp == 0 then 0 else TWO_64 - fp
  {
    if !Readable(fp, bounds) then []
    else
      var next, ret := mem[fp], mem[fp + 8];
      if ret == 0 then []
      else if next != 0 && next <= fp then [ret]
      else [ret] + Chain(mem, next, bounds)
  }

  // The frame pointers whose words the chain reads, in order.
  ghost function Visited(mem: Memory, fp: u64, bounds: StackBounds): (v: seq<u64>)
    requires Mapped(mem, bounds)
    ensures v != [] ==> v[0] == fp
    ensures forall i :: 0 <= i < |v| ==> Readable(v[i], bounds)
    ensures forall i, j :: 0 <= i < j < |v| ==> v[i] < v[j]
    decreases if fp == 0 then 0 else TWO_64 - fp
  {
    if !Readable(fp, bounds) then []
    else
      var next := mem[fp];
      if mem[fp + 8] == 0 || (next != 0 && next <= fp) then [fp]
      else [fp] + Visited(mem, next, bounds)
  }

  ghost function Cut(c: seq<u64>): seq<u64> {
    if |c| <= MAX_FRAMES then c else c[..MAX_FRAMES]
  }

  const ZEROS: seq<u64> := [0, 0, 0, 0, 0, 0, 0, 0]

  ghost function Pad(c: seq<u64>): (p: seq<u64>)
    requires |c| <= MAX_FRAMES
    ensures |p| == MAX_FRAMES
  {
    (c + ZEROS)[..MAX_FRAMES]
  }

  // Frame pointer b is the word saved at a, above it, and there is a return address next to it.
  ghost predicate Follows(mem: Memory, a: u64, b: u64) {
    a in mem && mem[a] == b && a < b && exists r :: Returns(mem, a, r)
  }

  ghost predicate Returns(mem: Memory, a: u64, r: u64) {
    a + 8 in mem && mem[a + 8] == r != 0
  }

  // No frame follows the one at a.
  ghost predicate Stops(mem: Memory, a: u64, bounds: StackBounds) {
    a in mem && a + 8 in mem && (mem[a + 8] == 0 || mem[a] <= a || !Readable(mem[a], bounds))
  }

  // From fp up, v are frame pointers as far as they can be followed, and c the return addresses next to them.
  ghost predicate IsWalk(mem: Memory, fp: u64, bounds: StackBounds, v: seq<u64>, c: seq<u64>) {
    && (forall i :: 0 <= i < |v| ==> Readable(v[i], bounds))
    && (forall i :: 0 <= i < |v| - 1 ==> Follows(mem, v[i], v[i + 1]))
    && |v| - 1 <= |c| <= |v| && (forall i :: 0 <= i < |c| ==> Returns(mem, v[i], c[i]))
    && if v == [] then !Readable(fp, bounds)
       else
         var last := v[|v| - 1];
         v[0] == fp && Stops(mem, last, bounds) && (|c| == |v| <==> exists r :: Returns(mem, last, r))
  }

  lemma WalkNext(mem: Memory, fp: u64, next: u64, ret: u64, bounds: StackBounds, v: seq<u64>, c: seq<u64>)
    requires Readable(fp, bounds) && fp in mem && mem[fp] == next && Returns(mem, fp, ret) && (next == 0 || next > fp)
    requires IsWalk(mem, next, bounds, v, c)
    ensures IsWalk(mem, fp, bounds, [fp] + v, [ret] + c)
  {
    assert v == [] ==> Stops(mem, fp, bounds);
    assert v != [] ==> Follows(mem, fp, next) && ([fp] + v)[|v|] == v[|v| - 1];
    hide Readable, Returns, Follows, Stops;
  }

  /**
   What the reference is. It visits frame pointers from fp up, each readable, and each the word saved at the one before;
   it collects the nonzero return address next to each; and it stops only where a return address is zero, or where the
   saved word is not above its own address or not readable.
   */
  lemma {:induction false} ChainIsMaximal(mem: Memory, fp: u64, bounds: StackBounds)
    requires Mapped(mem, bounds)
    ensures IsWalk(mem, fp, bounds, Visited(mem, fp, bounds), Chain(mem, fp, bounds))
    decreases if fp == 0 then 0 else TWO_64 - fp
  {
    if Readable(fp, bounds) {
      var next, ret := mem[fp], mem[fp + 8];
      assert ret != 0 ==> Returns(mem, fp, ret);
      if ret != 0 && (next == 0 || next > fp) {
        ChainIsMaximal(mem, next, bounds);
        WalkNext(mem, fp, next, ret, bounds, Visited(mem, next, bounds), Chain(mem, next, bounds));
        hide IsWalk, Mapped;
      }
    }
  }

  /**
   The walk is total on every memory, initial frame pointer and bounds. It returns the reference chain cut at eight
   frames; the frame pointers it reads at are the first of those the reference visits, so they are aligned, in range and
   strictly increasing.
   */
  method Walk(initialFp: u64, bounds: StackBounds, mem: Memory) returns (out: Frames, ghost visits: seq<u64>)
    requires Mapped(mem, bounds)
    ensures out.IsTrace()
    ensures var c := Chain(mem, initialFp, bounds);
            && out.count == (if |c| > 8 then 8 else |c|)
            && forall i :: 0 <= i < 8 ==> out.frames[i] == if i < |c| then c[i] else 0
    ensures bounds.low <= bounds.high ==> out.count <= (bounds.high - bounds.low) / 16
    ensures var v := Visited(mem, initialFp, bounds); visits == v[..if |v| > 8 then 8 else |v|]
  {
    var frames := new u64[MAX_FRAMES](i => 0);
    var count;
    count, visits := FillFrames(initialFp, bounds, mem, frames);
    ghost var whole := Chain(mem, initialFp, bounds);
    PadIsTrace(whole);
    ChainIsShort(mem, initialFp, bounds);
    out := Frames(frames[..], count);
    assert out == Frames(Pad(Cut(whole)), |Cut(whole)|);
  }

  // The loop of the walk, over a zeroed frame buffer.
  method FillFrames(initialFp: u64, bounds: StackBounds, mem: Memory, frames: array<u64>)
    returns (count: nat, ghost visits: seq<u64>)
    requires Mapped(mem, bounds) && frames.Length == MAX_FRAMES && frames[..] == Pad([])
    modifies frames
    ensures frames[..] == Pad(Cut(Chain(mem, initialFp, bounds)))
    ensures count == |Cut(Chain(mem, initialFp, bounds))|
    ensures visits == Cut(Visited(mem, initialFp, bounds))
  {
    hide Chain, Visited, And, Mapped;
    count := 0;
    var fp: u64 := initialFp;
    var i := 0;
    visits := [];
    ghost var got: seq<u64> := [];
    while i < MAX_FRAMES
      invariant 0 <= i == count == |got| == |visits| <= MAX_FRAMES
      invariant frames[..] == Pad(got)
      invariant Underway(mem, initialFp, bounds, got, visits, fp)
    {
      var ok := MayRead(fp, bounds);
      if !ok {
        StopHere(mem, initialFp, bounds, got, visits, fp);
        return;
      }
      InMemory(mem, fp, bounds);
      var newFp := mem[fp];
      var returnAddr := mem[fp + 8];
      visits := visits + [fp];
      if newFp != 0 && newFp <= fp {
        LastFrame(mem, initialFp, bounds, got, visits[..i], fp);
        if returnAddr != 0 {
          PadNext(got, returnAddr);
          frames[i] := returnAddr;
          count := count + 1;
        }
        return;
      }
      if returnAddr == 0 {
        LastFrame(mem, initialFp, bounds, got, visits[..i], fp);
        return;
      }
      OneMore(mem, initialFp, bounds, got, visits[..i], fp);
      PadNext(got, returnAddr);
      got := got + [returnAddr];
      frames[i] := returnAddr;
      count := count + 1;
      fp := newFp;
      i := i + 1;
    }
    CutOf(Chain(mem, initialFp, bounds), got, Chain(mem, fp, bounds));
    CutOf(Visited(mem, initialFp, bounds), visits, Visited(mem, fp, bounds));
  }

  // The walk has collected got at the frame pointers visits, and is about to look at fp.
  ghost predicate Underway(mem: Memory, start: u64, bounds: StackBounds, got: seq<u64>, visits: seq<u64>, fp: u64)
    requires Mapped(mem, bounds)
  {
    && Chain(mem, start, bounds) == got + Chain(mem, fp, bounds)
    && Visited(mem, start, bounds) == visits + Visited(mem, fp, bounds)
  }

  lemma StopHere(mem: Memory, start: u64, bounds: StackBounds, got: seq<u64>, visits: seq<u64>, fp: u64)
    requires Mapped(mem, bounds) && Underway(mem, start, bounds, got, visits, fp) && !Readable(fp, bounds)
    requires |got| <= MAX_FRAMES && |visits| <= MAX_FRAMES
    ensures Cut(Chain(mem, start, bounds)) == got && Cut(Visited(mem, start, bounds)) == visits
  {
  }

  lemma LastFrame(mem: Memory, start: u64, bounds: StackBounds, got: seq<u64>, visits: seq<u64>, fp: u64)
    requires Mapped(mem, bounds) && Underway(mem, start, bounds, got, visits, fp) && Readable(fp, bounds)
    requires |got| < MAX_FRAMES && |visits| < MAX_FRAMES
    requires mem[fp + 8] == 0 || (mem[fp] != 0 && mem[fp] <= fp)
    ensures Cut(Chain(mem, start, bounds)) == if mem[fp + 8] == 0 then got else got + [mem[fp + 8]]
    ensures Cut(Visited(mem, start, bounds)) == visits + [fp]
  {
  }

  lemma OneMore(mem: Memory, start: u64, bounds: StackBounds, got: seq<u64>, visits: seq<u64>, fp: u64)
    requires Mapped(mem, bounds) && Underway(mem, start, bounds, got, visits, fp) && Readable(fp, bounds)
    requires mem[fp + 8] != 0 && (mem[fp] == 0 || mem[fp] > fp)
    ensures Underway(mem, start, bounds, got + [mem[fp + 8]], visits + [fp], mem[fp])
  {
    var ret, next := mem[fp + 8], mem[fp];
    assert got + ([ret] + Chain(mem, next, bounds)) == got + [ret] + Chain(mem, next, bounds);
    assert visits + ([fp] + Visited(mem, next, bounds)) == visits + [fp] + Visited(mem, next, bounds);
  }

  /** The null, alignment and range checks, in the program's order. */
  method MayRead(fp: u64, bounds: StackBounds) returns (ok: bool)
    ensures ok <==> fp != 0 && fp % 16 == 0 && bounds.low <= fp && fp + 16 <= bounds.high
  {
    if fp == 0 {
      return false;
    }
    LowFourBits(fp);
    if And(fp, 0xF) != 0 {
      return false;
    }
    if fp < bounds.low || fp + 16 >= TWO_64 || fp + 16 > bounds.high {
      return false;
    }
    return true;
  }

  lemma InMemory(mem: Memory, fp: u64, bounds: StackBounds)
    requires Mapped(mem, bounds) && Readable(fp, bounds)
    ensures fp in mem && fp + 8 in mem
  {
  }

  lemma PadNext(got: seq<u64>, ret: u64)
    requires |got| < MAX_FRAMES
    ensures Pad(got)[|got| := ret] == Pad(got + [ret])
  {
  }

  lemma PadIsTrace(c: seq<u64>)
    requires forall i :: 0 <= i < |c| ==> c[i] != 0
    ensures Frames(Pad(Cut(c)), |Cut(c)|).IsTrace()
  {
  }

  lemma CutOf(whole: seq<u64>, done: seq<u64>, rest: seq<u64>)
    requires whole == done + rest && |done| <= MAX_FRAMES && (rest == [] || |done| == MAX_FRAMES)
    ensures Cut(whole) == done
  {
  }

  lemma LowFourBits(fp: u64)
    ensures And(fp, 0xF) == fp % 16
  {
    AndMask(fp, 4);
    assert Pow2(4) == 16;
  }

  // Each frame takes 16 bytes of the range from the frame pointer up.
  lemma {:induction false} ChainIsShort(mem: Memory, fp: u64, bounds: StackBounds)
    requires Mapped(mem, bounds)
    ensures Readable(fp, bounds) ==> 16 * |Chain(mem, fp, bounds)| <= bounds.high - fp
    ensures !Readable(fp, bounds) ==> Chain(mem, fp, bounds) == []
    ensures bounds.low <= bounds.high ==> |Chain(mem, fp, bounds)| <= (bounds.high - bounds.low) / 16
    decreases if fp == 0 then 0 else TWO_64 - fp
  {
    if Readable(fp, bounds) {
      var next, ret := mem[fp], mem[fp + 8];
      if ret != 0 && (next == 0 || next > fp) {
        ChainIsShort(mem, next, bounds);
      }
    }
  }

  // Slots at which frames may be placed: aligned, in bounds, strictly increasing.
  ghost predicate GoodSlots(slots: seq<u64>, bounds: StackBounds) {
    && (forall i :: 0 <= i < |slots| ==>
          slots[i] != 0 && slots[i] % 16 == 0 && bounds.low <= slots[i] && slots[i] + 16 <= bounds.high)
    && (forall i, j :: 0 <= i < j < |slots| ==> slots[i] < slots[j])
  }

  /** Lays a call chain out in memory: each slot holds the next slot (0 at the end), then its return address. */
  ghost function Place(mem: Memory, slots: seq<u64>, rets: seq<u64>): Memory
    requires |slots| == |rets|
  {
    if slots == [] then mem
    else
      var next: u64 := if |slots| == 1 then 0 else slots[1];
      Place(mem, slots[1..], rets[1..])[slots[0] as nat := next][slots[0] as nat + 8 := rets[0]]
  }

  // The layout writes only at and above the first slot.
  lemma {:induction false} PlaceFrame(mem: Memory, slots: seq<u64>, rets: seq<u64>, bounds: StackBounds, a: nat)
    requires |slots| == |rets| && GoodSlots(slots, bounds)
    ensures a in mem ==> a in Place(mem, slots, rets)
    ensures slots == [] || a < slots[0] ==> (a in mem <==> a in Place(mem, slots, rets))
    ensures (slots == [] || a < slots[0]) && a in mem ==> Place(mem, slots, rets)[a] == mem[a]
  {
    if slots != [] {
      PlaceFrame(mem, slots[1..], rets[1..], bounds, a);
    }
  }

  // Reading from fp up does not see a change made below fp.
  lemma {:induction false} ChainAbove(m1: Memory, m2: Memory, fp: u64, bounds: StackBounds, floor: nat)
    requires Mapped(m1, bounds) && Mapped(m2, bounds) && (fp == 0 || floor <= fp)
    requires forall a: nat :: floor <= a && a in m1 && a in m2 ==> m1[a] == m2[a]
    ensures Chain(m1, fp, bounds) == Chain(m2, fp, bounds)
    decreases if fp == 0 then 0 else TWO_64 - fp
  {
    if Readable(fp, bounds) {
      var next := m1[fp];
      assert m2[fp] == next && m1[fp + 8] == m2[fp + 8];
      if m1[fp + 8] != 0 && (next == 0 || next > fp) {
        ChainAbove(m1, m2, next, bounds, floor);
      }
    }
  }

  lemma PlacedMapped(mem: Memory, slots: seq<u64>, rets: seq<u64>, bounds: StackBounds)
    requires Mapped(mem, bounds) && |slots| == |rets| && GoodSlots(slots, bounds)
    ensures Mapped(Place(mem, slots, rets), bounds)
  {
    forall a: nat | a in mem ensures a in Place(mem, slots, rets) {
      PlaceFrame(mem, slots, rets, bounds, a);
    }
  }

  // Placing one more frame below a chain leaves the chain readable.
  lemma FrameBelow(mem: Memory, fp: u64, ret: u64, next: u64, bounds: StackBounds)
    requires Mapped(mem, bounds) && Readable(fp, bounds) && ret != 0 && (next == 0 || fp + 16 <= next)
    ensures var m := mem[fp as nat := next][fp as nat + 8 := ret];
            Mapped(m, bounds) && Chain(m, fp, bounds) == [ret] + Chain(mem, next, bounds)
  {
    var m := mem[fp as nat := next][fp as nat + 8 := ret];
    ChainAbove(m, mem, next, bounds, fp + 16);
  }

  // Where a chain laid out at these slots starts.
  function Lowest(slots: seq<u64>): u64 {
    if slots == [] then 0 else slots[0]
  }

  lemma PlaceStep(mem: Memory, slots: seq<u64>, rets: seq<u64>)
    requires |slots| == |rets| && slots != []
    ensures var rest := Place(mem, slots[1..], rets[1..]);
            Place(mem, slots, rets) == rest[slots[0] as nat := Lowest(slots[1..])][slots[0] as nat + 8 := rets[0]]
  {
  }

  lemma SlotsApart(slots: seq<u64>, bounds: StackBounds)
    requires GoodSlots(slots, bounds) && slots != []
    ensures Readable(slots[0], bounds) && GoodSlots(slots[1..], bounds)
    ensures Lowest(slots[1..]) == 0 || slots[0] + 16 <= Lowest(slots[1..])
  {
  }

  // Adding the lowest frame to a chain that is already laid out.
  lemma PlacedNext(mem: Memory, slots: seq<u64>, rets: seq<u64>, bounds: StackBounds)
    requires |slots| == |rets| && slots != [] && GoodSlots(slots, bounds) && rets[0] != 0
    requires Mapped(Place(mem, slots[1..], rets[1..]), bounds)
    requires Chain(Place(mem, slots[1..], rets[1..]), Lowest(slots[1..]), bounds) == rets[1..]
    ensures Mapped(Place(mem, slots, rets), bounds)
    ensures Chain(Place(mem, slots, rets), slots[0], bounds) == rets
  {
    hide *;
    PlaceStep(mem, slots, rets);
    SlotsApart(slots, bounds);
    FrameBelow(Place(mem, slots[1..], rets[1..]), slots[0], rets[0], Lowest(slots[1..]), bounds);
    assert rets == [rets[0]] + rets[1..];
  }

  /** Layout and walk are a round trip: the chain read back is exactly the list of return addresses. */
  lemma {:induction false} PlacedChain(mem: Memory, slots: seq<u64>, rets: seq<u64>, bounds: StackBounds)
    requires Mapped(mem, bounds) && |slots| == |rets| && GoodSlots(slots, bounds)
    requires forall i :: 0 <= i < |rets| ==> rets[i] != 0
    ensures Mapped(Place(mem, slots, rets), bounds)
    ensures Chain(Place(mem, slots, rets), Lowest(slots), bounds) == rets
  {
    PlacedMapped(mem, slots, rets, bounds);
    if slots != [] {
      PlacedMapped(mem, slots[1..], rets[1..], bounds);
      hide Mapped;
      PlacedChain(mem, slots[1..], rets[1..], bounds);
      PlacedNext(mem, slots, rets, bounds);
    }
  }

  /** So a walk over a chain laid out in a stack returns exactly its first eight return addresses, or all if fewer. */
  method WalkPlaced(
    placed: Memory, start: u64, bounds: StackBounds, ghost mem: Memory, ghost slots: seq<u64>, ghost rets: seq<u64>)
    returns (out: Frames)
    requires Mapped(mem, bounds) && |slots| == |rets| && GoodSlots(slots, bounds)
    requires forall i :: 0 <= i < |rets| ==> rets[i] != 0
    requires placed == Place(mem, slots, rets) && start == Lowest(slots)
    ensures out.count == (if |rets| > 8 then 8 else |rets|) && |out.frames| == 8
    ensures forall i :: 0 <= i < 8 ==> out.frames[i] == if i < |rets| then rets[i] else 0
  {
    PlacedChain(mem, slots, rets, bounds);
    hide Mapped, Chain, Visited;
    ghost var visits;
    out, visits := Walk(start, bounds, placed);
  }
}
