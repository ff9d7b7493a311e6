/** Powers of two and the 32-bit integer arithmetic behind `ceilPow2`.
    JavaScript's `Math.clz32` and `<<` work on 32-bit views of a number; they are
    written out here with explicit wrap-around. */
module PowerOfTwo {

  const TWO_TO_32: int := 0x1_0000_0000
  const TWO_TO_31: int := 0x8000_0000
  /** 2^30: the largest length the transforms accept. */
  const MAX_LENGTH: int := 0x4000_0000

  function Pow2(k: nat): (p: nat)
    ensures p >= 1
  {
    if k == 0 then 1 else 2 * Pow2(k - 1)
  }

  /** n is one of 1, 2, 4, 8, ... */
  predicate IsPow2(n: int)
    decreases n
  {
    n == 1 || (n >= 2 && n % 2 == 0 && IsPow2(n / 2))
  }

  /** The exponent of a power of two. */
  function Log2(n: int): (k: nat)
    requires IsPow2(n)
    ensures Pow2(k) == n
    decreases n
  {
    if n == 1 then 0 else 1 + Log2(n / 2)
  }

  lemma {:induction false} Pow2IsPow2(k: nat)
    ensures IsPow2(Pow2(k))
  {
    if k > 0 {
      Pow2IsPow2(k - 1);
    }
  }

  lemma {:induction false} Pow2Monotone(i: nat, j: nat)
    requires i <= j
    ensures Pow2(i) <= Pow2(j)
    decreases j
  {
    if i < j {
      Pow2Monotone(i, j - 1);
    }
  }

  lemma {:induction false} Pow2Add(a: nat, b: nat)
    ensures Pow2(a + b) == Pow2(a) * Pow2(b)
    decreases a
  {
    if a > 0 {
      Pow2Add(a - 1, b);
    }
  }

  lemma {:induction false} Pow2Values()
    ensures Pow2(30) == MAX_LENGTH && Pow2(31) == TWO_TO_31 && Pow2(32) == TWO_TO_32
  {
    assert Pow2(4) == 16;
    Pow2Add(4, 4);
    Pow2Add(8, 8);
    Pow2Add(16, 16);
    Pow2Add(16, 14);
    Pow2Add(8, 6);
    Pow2Add(4, 2);
  }

  /** Two powers of two in a row: a power of two above 2^j is at least 2^(j+1). */
  lemma {:induction false} PowersAreSpaced(p: int, j: nat)
    requires IsPow2(p) && Pow2(j) < p
    ensures Pow2(j + 1) <= p
  {
    var k := Log2(p);
    if k <= j {
      Pow2Monotone(k, j);
    } else {
      Pow2Monotone(j + 1, k);
    }
  }

  /** ECMAScript ToUint32 of an integral number. */
  function ToUint32(v: int): (u: int)
    ensures 0 <= u < TWO_TO_32
    ensures 0 <= v < TWO_TO_32 ==> u == v
    ensures v == -1 ==> u == TWO_TO_32 - 1
  {
    v % TWO_TO_32
  }

  /** ECMAScript ToInt32 of an integral number: the same bits read as a signed 32-bit value. */
  function ToInt32(v: int): (w: int)
    ensures -TWO_TO_31 <= w < TWO_TO_31
    ensures -TWO_TO_31 <= v < TWO_TO_31 ==> w == v
    ensures v == TWO_TO_31 ==> w == -TWO_TO_31
  {
    var u := ToUint32(v);
    if u < TWO_TO_31 then u else u - TWO_TO_32
  }

  /** Number of significant bits of u (0 for 0). */
  function BitLength(u: nat): (b: nat)
    ensures u < Pow2(b)
    ensures b > 0 ==> Pow2(b - 1) <= u
  {
    if u == 0 then 0 else 1 + BitLength(u / 2)
  }

  /** The bit length is the exponent of the least power of two above u. */
  lemma {:induction false} BitLengthIs(u: nat, b: nat)
    requires u < Pow2(b) && (b > 0 ==> Pow2(b - 1) <= u)
    ensures BitLength(u) == b
  {
    var c := BitLength(u);
    if c < b {
      Pow2Monotone(c, b - 1);
    } else if b < c {
      Pow2Monotone(b, c - 1);
    }
  }

  /** A 32-bit value has at most 32 significant bits. */
  lemma {:induction false} BitLengthOfUint32(u: nat)
    requires u < TWO_TO_32
    ensures BitLength(u) <= 32
  {
    Pow2Values();
    if BitLength(u) > 32 {
      Pow2Monotone(32, BitLength(u) - 1);
    }
  }

  /** `Math.clz32(v)`: the number of leading zero bits of the 32-bit unsigned view of v. */
  function Clz32(v: int): (z: int)
    ensures 0 <= z <= 32
  {
    var u := ToUint32(v);
    BitLengthOfUint32(u);
    32 - BitLength(u)
  }

  /** `Math.clz32(v)` is 32 exactly for a zero 32-bit view, and otherwise the highest set bit
      of the view is bit 31 - z. */
  lemma {:induction false} Clz32Bits(v: int)
    ensures Clz32(v) == 32 <==> ToUint32(v) == 0
    ensures Clz32(v) < 32 ==> Pow2(31 - Clz32(v)) <= ToUint32(v) < Pow2(32 - Clz32(v))
  {
    BitLengthOfUint32(ToUint32(v));
  }

  /** `a << count`: a as int32, shifted by the low five bits of count, wrapped to int32. */
  function ShiftLeft32(a: int, count: int): int
  {
    ToInt32(ToInt32(a) * Pow2(ToUint32(count) % 32))
  }

  /** `1 << s` is 2^s for a masked shift count s up to 30; the shift by 31 reaches the sign bit. */
  lemma {:induction false} ShiftOfOne(count: int)
    ensures var s, r := ToUint32(count) % 32, ShiftLeft32(1, count);
      (s <= 30 ==> r == Pow2(s) && IsPow2(r) && r <= MAX_LENGTH) &&
      (s == 31 ==> r == -TWO_TO_31)
  {
    var s := ToUint32(count) % 32;
    ShiftCountPowers(s);
    assert ToInt32(1) == 1;
  }

  /** The powers of two a 32-bit shift can produce: up to 2^30 they are in range, and 2^31
      is the sign bit. */
  lemma {:induction false} ShiftCountPowers(s: nat)
    requires s < 32
    ensures s <= 30 ==> IsPow2(Pow2(s)) && Pow2(s) <= MAX_LENGTH
    ensures s == 31 ==> Pow2(s) == TWO_TO_31
  {
    Pow2Values();
    if s <= 30 {
      Pow2AtMostMax(s);
      Pow2IsPow2(s);
    }
  }

  /** `ceilPow2(x) = 1 << (32 - Math.clz32(x - 1))`. */
  function CeilPow2(x: int): int
  {
    ShiftLeft32(1, 32 - Clz32(x - 1))
  }

  /** The value of `ceilPow2` is 2^(bit length of x - 1), wrapped through the 32-bit shift. */
  lemma {:induction false} CeilPow2Unfold(x: int)
    ensures CeilPow2(x) == ToInt32(Pow2(BitLength(ToUint32(x - 1)) % 32))
  {
    var b := BitLength(ToUint32(x - 1));
    BitLengthOfUint32(ToUint32(x - 1));
    assert Clz32(x - 1) == 32 - b;
    assert ToUint32(32 - Clz32(x - 1)) == b;
    assert ToInt32(1) == 1;
  }

  /** Below 2^30 there are at most 30 significant bits. */
  lemma {:induction false} BitLengthBelowMax(u: nat)
    requires u < MAX_LENGTH
    ensures BitLength(u) <= 30 && Pow2(BitLength(u)) <= MAX_LENGTH
  {
    Pow2Values();
    var b := BitLength(u);
    if b > 30 {
      Pow2Monotone(30, b - 1);
    }
    Pow2Monotone(b, 30);
  }

  /** A shift count below 32 is not masked. */
  lemma {:induction false} ShiftCountBelow32(s: int)
    requires 0 <= s < 32
    ensures s % 32 == s
  {
  }

  /** Inside the accepted range no wrap-around happens: the result is 2^(bit length of x - 1). */
  lemma {:induction false} CeilPow2NoWrap(x: int)
    requires 1 <= x <= MAX_LENGTH
    ensures BitLength(x - 1) <= 30 && CeilPow2(x) == Pow2(BitLength(x - 1))
  {
    CeilPow2Unfold(x);
    BitLengthBelowMax(x - 1);
    var b := BitLength(x - 1);
    assert ToUint32(x - 1) == x - 1;
    ShiftCountBelow32(b);
    assert ToInt32(Pow2(b)) == Pow2(b);
  }

  /** 2^(bit length of u) is the least power of two above u. */
  lemma {:induction false} BitLengthCeiling(u: nat, p: int)
    requires IsPow2(p) && u < p
    ensures Pow2(BitLength(u)) <= p
  {
    var b := BitLength(u);
    if b > 0 {
      PowersAreSpaced(p, b - 1);
    }
  }

  /** For 1 <= x <= 2^30 the result is the least power of two not below x. */
  lemma {:induction false} CeilPow2IsLeastPow2(x: int)
    requires 1 <= x <= MAX_LENGTH
    ensures IsPow2(CeilPow2(x)) && x <= CeilPow2(x)
    ensures forall p :: IsPow2(p) && x <= p ==> CeilPow2(x) <= p
  {
    CeilPow2NoWrap(x);
    var c := Pow2(BitLength(x - 1));
    assert CeilPow2(x) == c;
    LeastPow2Above(x - 1);
  }

  /** 2^(bit length of u) is a power of two above u, and no power of two above u is smaller. */
  lemma {:induction false} LeastPow2Above(u: nat)
    ensures IsPow2(Pow2(BitLength(u))) && u < Pow2(BitLength(u))
    ensures forall p :: IsPow2(p) && u < p ==> Pow2(BitLength(u)) <= p
  {
    Pow2IsPow2(BitLength(u));
    forall p | IsPow2(p) && u < p
      ensures Pow2(BitLength(u)) <= p
    {
      BitLengthCeiling(u, p);
    }
  }

  /** 2^32 - 1 has 32 significant bits. */
  lemma {:induction false} BitLengthOfMaxUint32()
    ensures BitLength(TWO_TO_32 - 1) == 32
  {
    Pow2Values();
    BitLengthIs(TWO_TO_32 - 1, 32);
  }

  /** `ceilPow2(0)` is 1: x - 1 wraps to 2^32 - 1 and the shift count 32 wraps to 0. */
  lemma {:induction false} CeilPow2OfZero()
    ensures CeilPow2(0) == 1
  {
    CeilPow2Unfold(0);
    assert ToUint32(-1) == TWO_TO_32 - 1;
    BitLengthOfMaxUint32();
    assert 32 % 32 == 0 && Pow2(0) == 1;
  }

  /** 2^k - 1 has k significant bits. */
  lemma {:induction false} BitLengthBelowPow2(k: nat)
    ensures BitLength(Pow2(k) - 1) == k
  {
    if k > 0 {
      assert Pow2(k) == 2 * Pow2(k - 1);
    }
    BitLengthIs(Pow2(k) - 1, k);
  }

  lemma {:induction false} Pow2AtMostMax(k: nat)
    requires k <= 30
    ensures Pow2(k) <= MAX_LENGTH
  {
    Pow2Values();
    Pow2Monotone(k, 30);
  }

  /** Every power of two up to 2^30 is its own ceiling. */
  lemma {:induction false} CeilPow2OfPow2(k: nat)
    requires k <= 30
    ensures CeilPow2(Pow2(k)) == Pow2(k)
  {
    Pow2AtMostMax(k);
    CeilPow2NoWrap(Pow2(k));
    BitLengthBelowPow2(k);
  }

  /** No value of `ceilPow2` exceeds 2^30: the shift by 31 gives -2^31. */
  lemma {:induction false} CeilPow2AtMostMax(x: int)
    ensures CeilPow2(x) <= MAX_LENGTH
  {
    Pow2Values();
    CeilPow2Unfold(x);
    var s := BitLength(ToUint32(x - 1)) % 32;
    if s <= 30 {
      Pow2Monotone(s, 30);
    }
  }

  /** The length check of the transforms: n passes exactly when it is a power of two no larger
      than 2^30. In particular 0 is rejected. */
  lemma {:induction false} AcceptedLength(n: nat)
    ensures n == CeilPow2(n) <==> IsPow2(n) && n <= MAX_LENGTH
  {
    if n == 0 {
      CeilPow2OfZero();
    } else if n <= MAX_LENGTH {
      CeilPow2IsLeastPow2(n);
    } else {
      CeilPow2AtMostMax(n);
    }
  }
}
