/** Machine words: unsigned 64-bit values as integers, and the bitwise operations the program uses on them. */
module Words {
  const TWO_64 := 0x1_0000_0000_0000_0000

  type u64 = x: int | 0 <= x < 0x1_0000_0000_0000_0000

  // Wrapping arithmetic keeps the low 64 bits.
  function Wrap(x: int): (r: u64)
    ensures 0 <= x < TWO_64 ==> r == x
  {
    x % TWO_64
  }

  function Pow2(k: nat): (p: nat)
    ensures p > 0
  {
    if k == 0 then 1 else 2 * Pow2(k - 1)
  }

  function Bit(x: nat, k: nat): (b: nat)
    ensures b <= 1
  {
    if k == 0 then x % 2 else Bit(x / 2, k - 1)
  }

  function And(x: nat, y: nat): nat
    decreases x
  {
    if x == 0 || y == 0 then 0 else 2 * And(x / 2, y / 2) + (x % 2) * (y % 2)
  }

  function Xor(x: nat, y: nat): nat
    decreases x + y
  {
    if x == 0 then y else if y == 0 then x else 2 * Xor(x / 2, y / 2) + (x + y) % 2
  }

  // Masking with 2^k - 1 is reduction modulo 2^k.
  lemma {:induction false} AndMask(x: nat, k: nat)
    ensures And(x, Pow2(k) - 1) == x % Pow2(k)
    decreases k
  {
    if k > 0 {
      var p := Pow2(k - 1);
      AndMask(x / 2, k - 1);
      AndOdd(x, p - 1);
      HalfMod(x, p);
    }
  }

  lemma AndOdd(x: nat, y: nat)
    ensures And(x, 2 * y + 1) == 2 * And(x / 2, y) + x % 2
  {
    assert (2 * y + 1) / 2 == y && (2 * y + 1) % 2 == 1;
  }

  lemma HalfMod(x: nat, p: nat)
    requires p > 0
    ensures x % (2 * p) == 2 * (x / 2 % p) + x % 2
  {
    var q, r := x / 2 / p, x / 2 % p;
    assert x == (2 * p) * q + (2 * r + x % 2);
    ModUnique(x, 2 * p, q, 2 * r + x % 2);
  }

  // The quotient and remainder of a division are unique.
  lemma ModUnique(x: int, m: int, q: int, r: int)
    requires m > 0 && 0 <= r < m && x == m * q + r
    ensures x % m == r && x / m == q
  {
    var d := x / m - q;
    assert m * d == r - x % m;
    assert d >= 1 ==> m * d >= m;
    assert d <= -1 ==> m * d <= -m;
  }

  lemma {:induction false} XorBound(x: nat, y: nat, k: nat)
    requires x < Pow2(k) && y < Pow2(k)
    ensures Xor(x, y) < Pow2(k)
    decreases k
  {
    if x != 0 && y != 0 {
      XorBound(x / 2, y / 2, k - 1);
    }
  }

  // The low bit and the rest of an exclusive or.
  lemma XorBits(x: nat, y: nat)
    ensures Xor(x, y) / 2 == Xor(x / 2, y / 2) && Xor(x, y) % 2 == (x + y) % 2
    ensures x == 0 || y == 0 ==> Xor(x, y) == x + y
  {
    if x != 0 && y != 0 {
      var r := Xor(x / 2, y / 2);
      assert Xor(x, y) == 2 * r + (x + y) % 2;
      hide Xor;
    } else if x != 0 {
      assert Xor(x / 2, 0) == x / 2;
    }
  }

  /** Bit k of an exclusive or is the sum of the two bits, without carry. */
  lemma {:induction false} XorBit(x: nat, y: nat, k: nat)
    ensures Bit(Xor(x, y), k) == (Bit(x, k) + Bit(y, k)) % 2
    decreases k
  {
    XorBits(x, y);
    hide Xor;
    if k > 0 {
      XorBit(x / 2, y / 2, k - 1);
    }
  }

  // The bits of two numbers written one after the other.
  lemma {:induction false} BitsOfBoth(high: nat, low: nat, j: nat, k: nat)
    requires low < Pow2(j)
    ensures Bit(high * Pow2(j) + low, k) == if k < j then Bit(low, k) else Bit(high, k - j)
    decreases j
  {
    if j > 0 {
      var p := Pow2(j - 1);
      assert high * Pow2(j) + low == 2 * (high * p + low / 2) + low % 2;
      if k > 0 {
        BitsOfBoth(high, low / 2, j - 1, k - 1);
      }
    }
  }

  lemma {:induction false} XorCancel(x: nat, y: nat)
    ensures Xor(Xor(x, y), y) == x
    decreases x + y
  {
    hide Xor;
    XorBits(x, y);
    if x == 0 {
      XorSelf(y);
    } else if y == 0 {
      XorBits(x, 0);
    } else {
      XorCancel(x / 2, y / 2);
      var z := Xor(x, y);
      XorBits(z, y);
      Parity(x, y, z);
      assert Xor(z, y) / 2 == x / 2;
    }
  }

  lemma Parity(x: nat, y: nat, z: nat)
    requires z % 2 == (x + y) % 2
    ensures (z + y) % 2 == x % 2
  {
  }

  lemma {:induction false} XorSelf(y: nat)
    ensures Xor(y, y) == 0
  {
    if y != 0 {
      XorSelf(y / 2);
    }
  }

  lemma XorWord(x: u64, y: u64)
    ensures Xor(x, y) < TWO_64
  {
    assert Pow2(64) == TWO_64 by { Pow2Of64(); }
    XorBound(x, y, 64);
  }

  lemma Pow2Of64()
    ensures Pow2(64) == TWO_64
  {
    assert Pow2(4) == 16;
    hide *;
    Pow2Add(4, 4);
    Pow2Add(8, 8);
    Pow2Add(16, 16);
    Pow2Add(32, 32);
  }

  lemma {:induction false} Pow2Add(j: nat, k: nat)
    ensures Pow2(j + k) == Pow2(j) * Pow2(k)
    decreases k
  {
    if k > 0 {
      Pow2Add(j, k - 1);
    }
  }

  lemma {:induction false} Pow2Monotone(j: nat, k: nat)
    requires j <= k
    ensures Pow2(j) <= Pow2(k)
    decreases k
  {
    if j < k {
      Pow2Monotone(j, k - 1);
    }
  }
}
