/** The size of the call-site table, and the order in which a probe visits its buckets. */
module TableSize {
  import opened Words

  const DEFAULT_BUCKETS := 4096
  const MIN_BUCKETS := 64
  const MAX_BUCKETS := 0x10_0000

  /** The MOD_ALLOC_BUCKETS variable: absent, not a number, or a parsed number. */
  datatype Setting = Unset | Unparsable | Parsed(n: u64)

  ghost predicate IsPow2(n: int) {
    exists k: nat :: n == Pow2(k)
  }

  // The sizes a table can have.
  ghost predicate GoodSize(n: int) {
    MIN_BUCKETS <= n <= MAX_BUCKETS && IsPow2(n)
  }

  function Clamp(n: nat): nat {
    if n < MIN_BUCKETS then MIN_BUCKETS else if n > MAX_BUCKETS then MAX_BUCKETS else n
  }

  // The smallest power of two that is at least n, searched from p up.
  function PowerFrom(p: nat, n: nat): nat
    requires p > 0
    decreases n - p
  {
    if p >= n then p else PowerFrom(2 * p, n)
  }

  function NextPowerOfTwo(n: nat): nat {
    PowerFrom(1, n)
  }

  function ConfiguredBucketCount(setting: Setting): nat {
    match setting
    case Unset => DEFAULT_BUCKETS
    case Unparsable => NextPowerOfTwo(Clamp(DEFAULT_BUCKETS))
    case Parsed(n) => NextPowerOfTwo(Clamp(n))
  }

  // PowerFrom finds the least power of two, among those not below p, that is at least n.
  lemma {:induction false} PowerFromIsLeast(j: nat, n: nat, k: nat)
    ensures exists i: nat :: i >= j && PowerFrom(Pow2(j), n) == Pow2(i)
    ensures PowerFrom(Pow2(j), n) >= n
    ensures k >= j && Pow2(k) >= n ==> PowerFrom(Pow2(j), n) <= Pow2(k)
    decreases n - Pow2(j)
  {
    if Pow2(j) >= n {
      if k >= j {
        Pow2Monotone(j, k);
      }
    } else {
      assert Pow2(j + 1) == 2 * Pow2(j);
      PowerFromIsLeast(j + 1, n, k);
    }
  }

  /** The result is the least power of two that is not below n. */
  lemma NextPowerIsLeast(n: nat, p: nat)
    requires IsPow2(p)
    ensures IsPow2(NextPowerOfTwo(n)) && NextPowerOfTwo(n) >= n
    ensures p >= n <==> p >= NextPowerOfTwo(n)
  {
    var k: nat :| p == Pow2(k);
    assert Pow2(0) == 1;
    PowerFromIsLeast(0, n, k);
  }

  lemma Limits()
    ensures IsPow2(MIN_BUCKETS) && IsPow2(MAX_BUCKETS) && IsPow2(DEFAULT_BUCKETS)
  {
    assert Pow2(6) == 64;
    Pow2Add(6, 6);
    Pow2Add(10, 10);
    assert Pow2(4) == 16;
    Pow2Add(6, 4);
    assert Pow2(12) == DEFAULT_BUCKETS && Pow2(20) == MAX_BUCKETS;
  }

  /**
   Every setting gives a power of two in [64, 2^20], and the code's clamp-then-round is the documented
   round-then-clamp.
   */
  lemma BucketCountIsGood(setting: Setting)
    ensures GoodSize(ConfiguredBucketCount(setting))
    ensures setting.Parsed? ==> ConfiguredBucketCount(setting) == Clamp(NextPowerOfTwo(setting.n))
  {
    Limits();
    var n := if setting.Parsed? then setting.n else DEFAULT_BUCKETS;
    NextPowerIsLeast(Clamp(n), MIN_BUCKETS);
    NextPowerIsLeast(Clamp(n), MAX_BUCKETS);
    NextPowerIsLeast(n, MIN_BUCKETS);
    NextPowerIsLeast(n, MAX_BUCKETS);
    NextPowerIsLeast(MIN_BUCKETS, MIN_BUCKETS);
    NextPowerIsLeast(MAX_BUCKETS, MAX_BUCKETS);
  }

  /**
   The count in figures: 4096 without a usable setting; otherwise 64 up to 64, 2^20 from 2^20 up, and in between the
   least power of two that is not below the number.
   */
  lemma BucketCountIs(n: u64)
    ensures ConfiguredBucketCount(Unset) == 4096 && ConfiguredBucketCount(Unparsable) == 4096
    ensures n <= 64 ==> ConfiguredBucketCount(Parsed(n)) == 64
    ensures n >= 0x10_0000 ==> ConfiguredBucketCount(Parsed(n)) == 0x10_0000
    ensures 64 < n < 0x10_0000 ==>
              var r := ConfiguredBucketCount(Parsed(n));
              n <= r && IsPow2(r) && forall p: nat :: IsPow2(p) && p >= n ==> p >= r
  {
    Limits();
    NextPowerIsLeast(4096, 4096);
    NextPowerIsLeast(64, 64);
    NextPowerIsLeast(0x10_0000, 0x10_0000);
    forall p: nat | IsPow2(p) ensures IsPow2(NextPowerOfTwo(n)) && NextPowerOfTwo(n) >= n
                              ensures p >= n ==> p >= NextPowerOfTwo(n)
    {
      NextPowerIsLeast(n, p);
    }
    hide NextPowerOfTwo, IsPow2;
  }

  // Probing. Slot k of the probe that starts at home.

  function Slot(home: nat, k: nat, size: nat): (i: nat)
    requires home < size
    ensures i < size
  {
    (home + k) % size
  }

  // How many probes it takes to get from home to slot i.
  function Distance(home: nat, i: nat, size: nat): (k: nat)
    requires home < size && i < size
    ensures k < size
  {
    if i >= home then i - home else i + size - home
  }

  lemma SlotAtDistance(home: nat, i: nat, size: nat, k: nat)
    requires home < size && i < size && k < size
    ensures Slot(home, k, size) == i <==> k == Distance(home, i, size)
  {
    if home + k < size {
      ModUnique(home + k, size, 0, home + k);
    } else {
      ModUnique(home + k, size, 1, home + k - size);
    }
  }

  // The program's next index and first index, computed with the mask, are slots of the probe.
  lemma MaskedIndex(x: nat, size: nat)
    requires IsPow2(size)
    ensures And(x, size - 1) == x % size
  {
    var k: nat :| size == Pow2(k);
    AndMask(x, k);
  }

  /**
   From any home slot the masked increment walks through every bucket exactly once: step k + 1 of the probe is the
   successor of step k, distinct steps below size are distinct buckets, every bucket is one of them, and step size is
   home again.
   */
  lemma ProbeVisitsAllOnce(home: nat, size: nat, k: nat, i: nat)
    requires IsPow2(size) && home < size && i < size && k < size
    ensures And(Slot(home, k, size) + 1, size - 1) == Slot(home, k + 1, size)
    ensures Slot(home, k, size) == i <==> k == Distance(home, i, size)
    ensures Slot(home, k + 1, size) == home <==> k + 1 == size
  {
    MaskedIndex(Slot(home, k, size) + 1, size);
    SlotAtDistance(home, i, size, k);
    NextSlot(home, k, size);
    if k + 1 < size {
      SlotAtDistance(home, home, size, k + 1);
    } else {
      ModUnique(home + size, size, 1, home);
    }
  }

  lemma NextSlot(home: nat, k: nat, size: nat)
    requires home < size && k < size
    ensures Slot(home, k + 1, size) == (Slot(home, k, size) + 1) % size
  {
    var s := Slot(home, k, size);
    var q := (home + k) / size;
    if s + 1 < size {
      ModUnique(home + k + 1, size, q, s + 1);
      ModUnique(s + 1, size, 0, s + 1);
    } else {
      assert home + k + 1 == size * (q + 1);
      ModUnique(home + k + 1, size, q + 1, 0);
      ModUnique(s + 1, size, 1, 0);
    }
  }
}
