/**
 The hash of a captured trace: rotate left by 5, xor with the next frame, multiply by an odd constant, all on 64-bit
 words. Zero is reserved for an empty bucket, so a raw hash of 0 is returned as 1.
 */
module FrameHash {
  import opened Words

  const K: u64 := 0x517c_c1b7_2722_0a95
  // The multiplicative inverse of K modulo 2^64.
  const K_INVERSE: u64 := 0x2040003d780970bd

  const MAX_FRAMES := 8

  function RotateLeft5(h: u64): (r: u64) {
    h * 32 % TWO_64 + h / 0x0800_0000_0000_0000
  }

  function RotateRight5(h: u64): (r: u64) {
    h / 32 + h % 32 * 0x0800_0000_0000_0000
  }

  function XorWords(x: u64, y: u64): u64 {
    XorWord(x, y);
    Xor(x, y)
  }

  function MulK(x: u64): u64 {
    Wrap(x * K)
  }

  function MulInverse(x: u64): u64 {
    Wrap(x * K_INVERSE)
  }

  // One round of the hash: fold frame f into accumulator h.
  function Mix(h: u64, f: u64): u64 {
    MulK(XorWords(RotateLeft5(h), f))
  }

  function RawHash(frames: seq<u64>, n: nat): u64
    requires n <= |frames|
  {
    if n == 0 then 0 else Mix(RawHash(frames, n - 1), frames[n - 1])
  }

  function Clamp8(count: nat): nat {
    if count > MAX_FRAMES then MAX_FRAMES else count
  }

  function Reserve(raw: u64): (h: u64)
    ensures h != 0
  {
    if raw == 0 then 1 else raw
  }

  function Hash(frames: seq<u64>, count: nat): (h: u64)
    requires |frames| == MAX_FRAMES
    ensures h != 0
  {
    Reserve(RawHash(frames, Clamp8(count)))
  }

  /** The loop of the program computes the recursive hash. */
  method HashFrames(frames: array<u64>, count: nat) returns (h: u64)
    requires frames.Length == MAX_FRAMES
    ensures h == Hash(frames[..], count)
  {
    var n := if count > 8 then 8 else count;
    h := 0;
    var i := 0;
    while i < n
      invariant 0 <= i <= n
      invariant h == RawHash(frames[..], i)
    {
      h := Mix(h, frames[i]);
      i := i + 1;
    }
    if h == 0 {
      h := 1;
    }
  }

  /** Rotating left by five moves bit k to bit k + 5, around the end of the word. */
  lemma RotateBit(h: u64, k: nat)
    requires k < 64
    ensures Bit(RotateLeft5(h), (k + 5) % 64) == Bit(h, k)
  {
    var top, low := RotateIs(h);
    hide *;
    SwappedBit(top, low, k);
  }

  lemma RotateIs(h: u64) returns (top: nat, low: nat)
    ensures top < 32 && low < 0x0800_0000_0000_0000 && h == top * 0x0800_0000_0000_0000 + low
    ensures RotateLeft5(h) == low * 32 + top
  {
    top, low := h / 0x0800_0000_0000_0000, h % 0x0800_0000_0000_0000;
    ModUnique(h * 32, TWO_64, top, low * 32);
  }

  // The top five bits change places with the rest.
  lemma SwappedBit(top: nat, low: nat, k: nat)
    requires top < 32 && low < 0x0800_0000_0000_0000 && k < 64
    ensures Bit(low * 32 + top, (k + 5) % 64) == Bit(top * 0x0800_0000_0000_0000 + low, k)
  {
    Pow2Of59();
    var j := (k + 5) % 64;
    assert j == if k < 59 then k + 5 else k - 59;
    hide *;
    BitsOfBoth(top, low, 59, k);
    BitsOfBoth(low, top, 5, j);
  }

  lemma Pow2Of59()
    ensures Pow2(59) == 0x0800_0000_0000_0000 && Pow2(5) == 32
  {
    assert Pow2(3) == 8 && Pow2(4) == 16 && Pow2(5) == 32;
    hide Pow2;
    Pow2Add(4, 4);
    Pow2Add(8, 8);
    Pow2Add(16, 16);
    Pow2Add(32, 16);
    Pow2Add(48, 8);
    Pow2Add(56, 3);
  }

  /**
   The hash in figures: of no frames, of eight zero frames, of one frame, and of two frames that are 1.
   */
  lemma HashFigures(frames: seq<u64>)
    requires |frames| == 8
    ensures Hash(frames, 0) == 1 && ((forall i :: 0 <= i < 8 ==> frames[i] == 0) ==> Hash(frames, 8) == 1)
    ensures frames[0] != 0 ==> Hash(frames, 1) == frames[0] as int * 0x517c_c1b7_2722_0a95 % 0x1_0000_0000_0000_0000
    ensures frames[0] == frames[1] == 1 ==> Hash(frames, 2) == 0x5ec2_2ba5_6ef5_cb87
  {
    hide *;
    Rounds(frames);
    FirstRound(frames[0]);
    SecondRound();
    HashIs(frames, 0, 0);
    HashIs(frames, 1, Mix(0, frames[0]));
    HashIs(frames, 2, Mix(Mix(0, frames[0]), frames[1]));
    if forall i :: 0 <= i < 8 ==> frames[i] == 0 {
      ZeroRounds(frames, 8);
      HashIs(frames, 8, 0);
    }
  }

  // No more than eight frames count, and zero is returned as 1.
  lemma HashIs(frames: seq<u64>, count: nat, raw: u64)
    requires |frames| == 8 && RawHash(frames, if count > 8 then 8 else count) == raw
    ensures Hash(frames, count) == if raw == 0 then 1 else raw
  {
    hide RawHash;
  }

  lemma Rounds(frames: seq<u64>)
    requires |frames| >= 2
    ensures RawHash(frames, 0) == 0 && RawHash(frames, 1) == Mix(0, frames[0])
    ensures RawHash(frames, 2) == Mix(Mix(0, frames[0]), frames[1])
  {
    hide Mix;
  }

  lemma FirstRound(f: u64)
    ensures Mix(0, f) == f as int * 0x517c_c1b7_2722_0a95 % 0x1_0000_0000_0000_0000
    ensures Mix(0, f) == 0 <==> f == 0
  {
    XorBits(0, f);
    MulUndo(f);
    hide MulInverse;
  }

  lemma SecondRound()
    ensures Mix(0x517c_c1b7_2722_0a95, 1) == 0x5ec2_2ba5_6ef5_cb87
  {
    var r := 0x2f98_36e4_e441_52aa;
    XorBits(r, 1);
    XorBits(r / 2, 0);
    hide Xor;
    assert RotateLeft5(0x517c_c1b7_2722_0a95) == r;
    assert XorWords(r, 1) == r + 1;
  }

  lemma {:induction false} ZeroRounds(frames: seq<u64>, n: nat)
    requires n <= |frames| && forall i :: 0 <= i < n ==> frames[i] == 0
    ensures RawHash(frames, n) == 0
  {
    if n > 0 {
      ZeroRounds(frames, n - 1);
      FirstRound(0);
      hide Mix;
    }
  }

  // Every round can be undone, in the accumulator and in the frame.

  lemma MulUndo(x: u64)
    ensures MulInverse(MulK(x)) == x && MulK(MulInverse(x)) == x
  {
    assert K * K_INVERSE == 1 + 0xa43f77ae39dae8d * TWO_64;
    WrapTimes(x, K, K_INVERSE, 0xa43f77ae39dae8d);
    WrapTimes(x, K_INVERSE, K, 0xa43f77ae39dae8d);
  }

  lemma WrapTimes(x: u64, a: u64, b: u64, q: nat)
    requires a * b == 1 + q * TWO_64
    ensures Wrap(Wrap(x * a) * b) == x
  {
    var d := x * a / TWO_64;
    calc {
      Wrap(x * a) * b;
      (x * a - d * TWO_64) * b;
      x * (a * b) - d * TWO_64 * b;
      x + (x * q - d * b) * TWO_64;
    }
    ModUnique(Wrap(x * a) * b, TWO_64, x * q - d * b, x);
  }

  lemma RotateUndo(h: u64)
    ensures RotateRight5(RotateLeft5(h)) == h
    ensures RotateLeft5(RotateRight5(h)) == h
  {
    var top, low := h / 0x0800_0000_0000_0000, h % 0x0800_0000_0000_0000;
    ModUnique(h * 32, TWO_64, top, low * 32);
    ModUnique(low * 32 + top, 32, low, top);
    var high, bottom := h / 32, h % 32;
    var r: int := RotateRight5(h);
    ModUnique(r * 32, TWO_64, bottom, high * 32);
    ModUnique(r, 0x0800_0000_0000_0000, bottom, high);
  }

  // The accumulator that a round with frame f maps to h.
  function UnmixAccumulator(h: u64, f: u64): u64 {
    RotateRight5(XorWords(MulInverse(h), f))
  }

  // The frame that takes accumulator h to next.
  function UnmixFrame(h: u64, next: u64): u64 {
    XorWords(MulInverse(next), RotateLeft5(h))
  }

  /** A round is a bijection in its accumulator for every frame, and in its frame for every accumulator. */
  lemma MixIsBijective(h: u64, f: u64, next: u64)
    ensures UnmixAccumulator(Mix(h, f), f) == h
    ensures UnmixFrame(h, Mix(h, f)) == f
    ensures Mix(UnmixAccumulator(next, f), f) == next
    ensures Mix(h, UnmixFrame(h, next)) == next
  {
    var rot := RotateLeft5(h);
    MulUndo(XorWords(rot, f));
    RotateUndo(h);
    XorCancel(rot, f);
    XorCommutes(rot, f);
    XorCancel(f, rot);
    var m := MulInverse(next);
    MulUndo(next);
    XorCancel(m, f);
    RotateUndo(XorWords(m, f));
    XorCancel(m, rot);
    XorCommutes(rot, UnmixFrame(h, next));
  }

  lemma {:induction false} XorCommutes(x: nat, y: nat)
    ensures Xor(x, y) == Xor(y, x)
    decreases x + y
  {
    if x != 0 && y != 0 {
      XorCommutes(x / 2, y / 2);
    }
  }

  lemma {:induction false} RawHashAgrees(a: seq<u64>, b: seq<u64>, n: nat)
    requires n <= |a| && n <= |b| && a[..n] == b[..n]
    ensures RawHash(a, n) == RawHash(b, n)
  {
    if n > 0 {
      assert a[..n][..n - 1] == a[..n - 1] && b[..n][..n - 1] == b[..n - 1];
      assert a[n - 1] == a[..n][n - 1] == b[..n][n - 1] == b[n - 1];
      RawHashAgrees(a, b, n - 1);
    }
  }

  /** Traces that differ in exactly one of the first n frames have different raw hashes. */
  lemma {:induction false} OneFrameChangesRawHash(a: seq<u64>, b: seq<u64>, j: nat, n: nat)
    requires j < n <= |a| && n <= |b| && a[j] != b[j]
    requires forall i :: 0 <= i < n && i != j ==> a[i] == b[i]
    ensures RawHash(a, n) != RawHash(b, n)
  {
    var ha, hb := RawHash(a, n - 1), RawHash(b, n - 1);
    MixIsBijective(ha, a[n - 1], 0);
    MixIsBijective(hb, b[n - 1], 0);
    if j == n - 1 {
      RawHashAgrees(a, b, n - 1);
    } else {
      OneFrameChangesRawHash(a, b, j, n - 1);
    }
  }

  // The value of frame j that makes the first n frames hash to target.
  function FrameFor(frames: seq<u64>, j: nat, n: nat, target: u64): u64
    requires j < n <= |frames|
  {
    if j == n - 1 then UnmixFrame(RawHash(frames, j), target)
    else FrameFor(frames, j, n - 1, UnmixAccumulator(target, frames[n - 1]))
  }

  /** Whatever the other frames are, exactly one value of frame j gives a wanted raw hash. */
  lemma {:induction false} EveryFrameDecidesRawHash(frames: seq<u64>, j: nat, n: nat, target: u64, v: u64)
    requires j < n <= |frames|
    ensures RawHash(frames[j := v], n) == target <==> v == FrameFor(frames, j, n, target)
  {
    var w := FrameFor(frames, j, n, target);
    FrameForHits(frames, j, n, target);
    if v != w {
      OneFrameChangesRawHash(frames[j := v], frames[j := w], j, n);
    }
  }

  lemma {:induction false} FrameForHits(frames: seq<u64>, j: nat, n: nat, target: u64)
    requires j < n <= |frames|
    ensures RawHash(frames[j := FrameFor(frames, j, n, target)], n) == target
  {
    var w := FrameFor(frames, j, n, target);
    hide Mix, UnmixAccumulator, UnmixFrame;
    if j == n - 1 {
      RawHashAgrees(frames, frames[j := w], j);
      MixIsBijective(RawHash(frames, j), 0, target);
    } else {
      FrameForHits(frames, j, n - 1, UnmixAccumulator(target, frames[n - 1]));
      MixIsBijective(0, frames[n - 1], target);
    }
  }

  /**
   Frames past count never matter, and reserving zero merges nothing but raw hash 0 with raw hash 1: two traces collide
   exactly when their raw hashes are equal or are 0 and 1.
   */
  lemma HashCollisions(a: seq<u64>, m: nat, b: seq<u64>, n: nat)
    requires |a| == |b| == MAX_FRAMES
    ensures Clamp8(m) == Clamp8(n) && a[..Clamp8(m)] == b[..Clamp8(n)] ==> Hash(a, m) == Hash(b, n)
    ensures var ra, rb := RawHash(a, Clamp8(m)), RawHash(b, Clamp8(n));
            Hash(a, m) == Hash(b, n) <==> ra == rb || {ra, rb} == {0, 1}
  {
    if Clamp8(m) == Clamp8(n) && a[..Clamp8(m)] == b[..Clamp8(n)] {
      RawHashAgrees(a, b, Clamp8(m));
    }
    var ra, rb := RawHash(a, Clamp8(m)), RawHash(b, Clamp8(n));
    assert {ra, rb} == {0, 1} ==> 0 in {ra, rb} && 1 in {ra, rb};
  }
}
