/** The radix-2 decimation-in-time recursion that every transform of the library follows,
    over exact real arithmetic: split the input into its even- and odd-indexed samples,
    transform both halves, and merge them with one butterfly per index k < M (M = N/2)
    into outputs k and k + M. */
module Radix2 {
  import opened PowerOfTwo
  import opened Twiddle

  /** Forward transforms rotate by exp(-i*pi*k/M), inverse ones by exp(+i*pi*k/M). */
  datatype Direction = Forward | Inverse

  /** A complex signal held as two parallel arrays of real and imaginary parts. */
  datatype Signal = Signal(re: seq<real>, im: seq<real>)
  {
    predicate Valid()
    {
      |re| == |im|
    }
  }

  // ---------------------------------------------------------------------------------
  // The even/odd split: `x.filter((_, k) => !(k & 1))` and `x.filter((_, k) => k & 1)`.
  // ---------------------------------------------------------------------------------

  /** The samples at even indices, in order. */
  function Evens(s: seq<real>): (e: seq<real>)
    ensures |e| == (|s| + 1) / 2
    ensures forall j :: 0 <= j < |e| ==> e[j] == s[2 * j]
  {
    if s == [] then [] else [s[0]] + Odds(s[1..])
  }

  /** The samples at odd indices, in order. */
  function Odds(s: seq<real>): (o: seq<real>)
    ensures |o| == |s| / 2
    ensures forall j :: 0 <= j < |o| ==> o[j] == s[2 * j + 1]
  {
    if s == [] then [] else Evens(s[1..])
  }

  /** Merges an even-index part and an odd-index part back into one sequence. */
  function Interleave(e: seq<real>, o: seq<real>): seq<real>
    decreases |e| + |o|
  {
    if e == [] then o else [e[0]] + Interleave(o, e[1..])
  }

  /** The split loses nothing: interleaving the two parts gives back the input. */
  lemma {:induction false} SplitRoundTrip(s: seq<real>)
    ensures Interleave(Evens(s), Odds(s)) == s
  {
    if s != [] {
      SplitRoundTrip(s[1..]);
      assert Evens(s) == [s[0]] + Odds(s[1..]);
      assert Odds(s) == Evens(s[1..]);
      assert [s[0]] + s[1..] == s;
    }
  }

  function EvensOf(x: Signal): Signal
  {
    Signal(Evens(x.re), Evens(x.im))
  }

  function OddsOf(x: Signal): Signal
  {
    Signal(Odds(x.re), Odds(x.im))
  }

  /** A zero-filled buffer, as `new Float64Array(n)` allocates. */
  function Zeros(n: nat): (z: seq<real>)
    ensures |z| == n && forall j :: 0 <= j < n ==> z[j] == 0.0
  {
    seq(n, _ => 0.0)
  }

  /** Both parts of the split of zeros are zeros: a real input stays real through the split. */
  lemma {:induction false} ZerosSplit(n: nat)
    ensures Evens(Zeros(n)) == Zeros((n + 1) / 2) && Odds(Zeros(n)) == Zeros(n / 2)
  {
  }

  /** A power-of-two length N >= 2 splits into two valid halves of length N/2, again a power of two. */
  lemma {:induction false} SplitHalves(x: Signal)
    requires x.Valid() && IsPow2(|x.re|) && |x.re| >= 2
    ensures EvensOf(x).Valid() && OddsOf(x).Valid()
    ensures |EvensOf(x).re| == |OddsOf(x).re| == |x.re| / 2 && IsPow2(|x.re| / 2)
  {
  }

  // ---------------------------------------------------------------------------------
  // The butterfly.
  // ---------------------------------------------------------------------------------

  /** `realZ = cosines[k]` for 1 <= k < M. */
  function ZRe(M: int, k: int, sin: SinFn): (r: real)
    requires M >= 2 && IsPow2(M) && 1 <= k < M
    ensures k == M / 2 ==> r == 0.0
  {
    QuarterTurn(M, sin);
    CosValue(M, k, sin)
  }

  /** `imagZ = -sines[k]` in the forward transforms, `sines[k]` in the inverse ones. */
  function ZIm(M: int, k: int, sin: SinFn, dir: Direction): (r: real)
    requires M >= 2 && IsPow2(M) && 1 <= k < M
    ensures k == M / 2 ==> r == (if dir == Forward then -1.0 else 1.0)
  {
    QuarterTurn(M, sin);
    if dir == Forward then -SinValue(M, k, sin) else SinValue(M, k, sin)
  }

  /** The real part of the rotated odd coefficient Q = O[k] * Z; at k = 0 no rotation is
      applied (table index 0 is undefined, and the source handles k = 0 apart). */
  function QRe(o: Signal, k: int, sin: SinFn, dir: Direction): real
    requires o.Valid() && IsPow2(|o.re|) && 0 <= k < |o.re|
  {
    var M := |o.re|;
    if k == 0 then o.re[0] else o.re[k] * ZRe(M, k, sin) - o.im[k] * ZIm(M, k, sin, dir)
  }

  /** The imaginary part of Q. */
  function QIm(o: Signal, k: int, sin: SinFn, dir: Direction): real
    requires o.Valid() && IsPow2(|o.re|) && 0 <= k < |o.re|
  {
    var M := |o.re|;
    if k == 0 then o.im[0] else o.re[k] * ZIm(M, k, sin, dir) + o.im[k] * ZRe(M, k, sin)
  }

  /** The real outputs of the butterflies: `realOut[k] = realEvens[k] + realQ` and
      `realOut[k + M] = realEvens[k] - realQ`. Only the real part of the even half is used. */
  function CombineRe(eRe: seq<real>, o: Signal, sin: SinFn, dir: Direction): (r: seq<real>)
    requires o.Valid() && IsPow2(|o.re|) && |eRe| == |o.re|
    ensures |r| == 2 * |eRe|
  {
    var M := |eRe|;
    seq(2 * M, n requires 0 <= n < 2 * M =>
      if n < M then eRe[n] + QRe(o, n, sin, dir) else eRe[n - M] - QRe(o, n - M, sin, dir))
  }

  /** The imaginary outputs of the butterflies. */
  function CombineIm(eIm: seq<real>, o: Signal, sin: SinFn, dir: Direction): (r: seq<real>)
    requires o.Valid() && IsPow2(|o.re|) && |eIm| == |o.re|
    ensures |r| == 2 * |eIm|
  {
    var M := |eIm|;
    seq(2 * M, n requires 0 <= n < 2 * M =>
      if n < M then eIm[n] + QIm(o, n, sin, dir) else eIm[n - M] - QIm(o, n - M, sin, dir))
  }

  function Combine(e: Signal, o: Signal, sin: SinFn, dir: Direction): (c: Signal)
    requires e.Valid() && o.Valid() && IsPow2(|o.re|) && |e.re| == |o.re|
    ensures c.Valid() && |c.re| == 2 * |e.re|
  {
    Signal(CombineRe(e.re, o, sin, dir), CombineIm(e.im, o, sin, dir))
  }

  /** Butterfly k writes outputs k and k + M. */
  lemma {:induction false} CombineAt(e: Signal, o: Signal, sin: SinFn, dir: Direction, k: int)
    requires e.Valid() && o.Valid() && IsPow2(|o.re|) && |e.re| == |o.re| && 0 <= k < |o.re|
    ensures var c, M := Combine(e, o, sin, dir), |o.re|;
      c.Valid() && |c.re| == 2 * M &&
      c.re[k] == e.re[k] + QRe(o, k, sin, dir) && c.re[k + M] == e.re[k] - QRe(o, k, sin, dir) &&
      c.im[k] == e.im[k] + QIm(o, k, sin, dir) && c.im[k + M] == e.im[k] - QIm(o, k, sin, dir)
  {
  }

  /** The generic recursion of `_fft` / `_ifft`, carried down to length 1 (where the
      transform is the identity, as in the `N === 1` arms). */
  function Transform(x: Signal, sin: SinFn, dir: Direction): (y: Signal)
    requires x.Valid() && IsPow2(|x.re|)
    ensures y.Valid() && |y.re| == |x.re|
    decreases |x.re|
  {
    if |x.re| == 1 then x
    else
      SplitHalves(x);
      Combine(Transform(EvensOf(x), sin, dir), Transform(OddsOf(x), sin, dir), sin, dir)
  }

  // ---------------------------------------------------------------------------------
  // The hand-unrolled arms agree with the recursion.
  // ---------------------------------------------------------------------------------

  /** The `N === 2` arms: a single butterfly, the same in both directions. */
  lemma {:induction false} TwoPoint(x: Signal, sin: SinFn, dir: Direction)
    requires x.Valid() && |x.re| == 2
    ensures var y := Transform(x, sin, dir);
      y.re == [x.re[0] + x.re[1], x.re[0] - x.re[1]] &&
      y.im == [x.im[0] + x.im[1], x.im[0] - x.im[1]]
  {
    assert IsPow2(2);
    TransformStep(x, sin, dir);
    var e, o := EvensOf(x), OddsOf(x);
    assert Transform(e, sin, dir) == e && Transform(o, sin, dir) == o;
    CombineAt(e, o, sin, dir, 0);
  }

  /** The one rotation of the butterfly stage with M = 2, by the seeded table: -i forward, +i inverse. */
  lemma {:induction false} RotationTwo(o: Signal, sin: SinFn, dir: Direction)
    requires o.Valid() && |o.re| == 2
    ensures IsPow2(2)
    ensures dir == Forward ==> QRe(o, 1, sin, dir) == o.im[1] && QIm(o, 1, sin, dir) == -o.re[1]
    ensures dir == Inverse ==> QRe(o, 1, sin, dir) == -o.im[1] && QIm(o, 1, sin, dir) == o.re[1]
  {
    assert IsPow2(2);
    assert ZRe(2, 1, sin) == 0.0 && SinValue(2, 1, sin) == 1.0;
  }

  /** A four-point transform in closed form: the second stage uses the seeded table,
      cos(pi/2) = 0 and sin(pi/2) = 1, so the twiddle at k = 1 is -i forward and +i inverse. */
  predicate FourStage(y: Signal, r: seq<real>, i: seq<real>, dir: Direction)
    requires |y.re| == 4 && |y.im| == 4 && |r| == 4 && |i| == 4
  {
    y.re[0] == r[0] + r[1] + r[2] + r[3] &&
    y.re[2] == r[0] - r[1] + r[2] - r[3] &&
    y.im[0] == i[0] + i[1] + i[2] + i[3] &&
    y.im[2] == i[0] - i[1] + i[2] - i[3] &&
    (dir == Forward ==>
      y.re[1] == r[0] + i[1] - r[2] - i[3] &&
      y.re[3] == r[0] - i[1] - r[2] + i[3] &&
      y.im[1] == i[0] - r[1] - i[2] + r[3] &&
      y.im[3] == i[0] + r[1] - i[2] - r[3]) &&
    (dir == Inverse ==>
      y.re[1] == r[0] - i[1] - r[2] + i[3] &&
      y.re[3] == r[0] + i[1] - r[2] - i[3] &&
      y.im[1] == i[0] + r[1] - i[2] - r[3] &&
      y.im[3] == i[0] - r[1] - i[2] + r[3])
  }

  /** The `N === 4` arms of `fft` and `ifft` are two two-point transforms and one butterfly stage. */
  lemma {:induction false} FourPoint(x: Signal, sin: SinFn, dir: Direction)
    requires x.Valid() && |x.re| == 4
    ensures IsPow2(4)
    ensures var y := Transform(x, sin, dir);
      y.Valid() && |y.re| == 4 && FourStage(y, x.re, x.im, dir)
  {
    assert IsPow2(4) && IsPow2(2);
    TransformStep(x, sin, dir);
    var e, o := EvensOf(x), OddsOf(x);
    TwoPoint(e, sin, dir);
    TwoPoint(o, sin, dir);
    var E, O := Transform(e, sin, dir), Transform(o, sin, dir);
    RotationTwo(O, sin, dir);
    CombineAt(E, O, sin, dir, 0);
    CombineAt(E, O, sin, dir, 1);
  }

  /** The table for M = 4 that the `N === 8` arms hard-code: cos and sin of pi/4 are both
      `Math.sin(pi/4)` = 0.7071067811865475, the midpoint is the seed, and cos(3pi/4) = -cos(pi/4). */
  lemma {:induction false} TableFour(sin: SinFn)
    ensures IsPow2(4)
    ensures CosValue(4, 1, sin) == SQRT1_2 && SinValue(4, 1, sin) == SQRT1_2
    ensures CosValue(4, 2, sin) == 0.0 && SinValue(4, 2, sin) == 1.0
    ensures CosValue(4, 3, sin) == -SQRT1_2 && SinValue(4, 3, sin) == SQRT1_2
  {
    assert IsPow2(2);
    OddSymmetry(4, 1, sin);
    QuarterTurn(4, sin);
  }

  /** The rotations of the butterfly stage with M = 4 in closed form. */
  lemma {:induction false} RotationsFour(o: Signal, sin: SinFn, dir: Direction)
    requires o.Valid() && |o.re| == 4
    ensures IsPow2(4)
    ensures var S := SQRT1_2;
      (dir == Forward ==>
        QRe(o, 1, sin, dir) == (o.re[1] + o.im[1]) * S && QIm(o, 1, sin, dir) == -(o.re[1] - o.im[1]) * S &&
        QRe(o, 2, sin, dir) == o.im[2] && QIm(o, 2, sin, dir) == -o.re[2] &&
        QRe(o, 3, sin, dir) == -(o.re[3] - o.im[3]) * S && QIm(o, 3, sin, dir) == -(o.re[3] + o.im[3]) * S) &&
      (dir == Inverse ==>
        QRe(o, 1, sin, dir) == (o.re[1] - o.im[1]) * S && QIm(o, 1, sin, dir) == (o.re[1] + o.im[1]) * S &&
        QRe(o, 2, sin, dir) == -o.im[2] && QIm(o, 2, sin, dir) == o.re[2] &&
        QRe(o, 3, sin, dir) == -(o.re[3] + o.im[3]) * S && QIm(o, 3, sin, dir) == (o.re[3] - o.im[3]) * S)
  {
    TableFour(sin);
    assert ZRe(4, 1, sin) == SQRT1_2 && ZRe(4, 2, sin) == 0.0 && ZRe(4, 3, sin) == -SQRT1_2;
  }

  /** The last butterfly stage of an eight-point transform with the M = 4 table in closed
      form: with E and O the transforms of the even and odd samples, the rotations reduce to
      the sums and differences scaled by 0.7071067811865475 that the `N === 8` arms spell out. */
  predicate EightStage(y: Signal, E: Signal, O: Signal, dir: Direction)
    requires |y.re| == 8 && |y.im| == 8 && |E.re| == 4 && |E.im| == 4 && |O.re| == 4 && |O.im| == 4
  {
    var S := SQRT1_2;
    y.re[0] == E.re[0] + O.re[0] && y.re[4] == E.re[0] - O.re[0] &&
    y.im[0] == E.im[0] + O.im[0] && y.im[4] == E.im[0] - O.im[0] &&
    (dir == Forward ==>
      y.re[1] == E.re[1] + (O.re[1] + O.im[1]) * S && y.re[5] == E.re[1] - (O.re[1] + O.im[1]) * S &&
      y.im[1] == E.im[1] - (O.re[1] - O.im[1]) * S && y.im[5] == E.im[1] + (O.re[1] - O.im[1]) * S &&
      y.re[2] == E.re[2] + O.im[2] && y.re[6] == E.re[2] - O.im[2] &&
      y.im[2] == E.im[2] - O.re[2] && y.im[6] == E.im[2] + O.re[2] &&
      y.re[3] == E.re[3] - (O.re[3] - O.im[3]) * S && y.re[7] == E.re[3] + (O.re[3] - O.im[3]) * S &&
      y.im[3] == E.im[3] - (O.re[3] + O.im[3]) * S && y.im[7] == E.im[3] + (O.re[3] + O.im[3]) * S) &&
    (dir == Inverse ==>
      y.re[1] == E.re[1] + (O.re[1] - O.im[1]) * S && y.re[5] == E.re[1] - (O.re[1] - O.im[1]) * S &&
      y.im[1] == E.im[1] + (O.re[1] + O.im[1]) * S && y.im[5] == E.im[1] - (O.re[1] + O.im[1]) * S &&
      y.re[2] == E.re[2] - O.im[2] && y.re[6] == E.re[2] + O.im[2] &&
      y.im[2] == E.im[2] + O.re[2] && y.im[6] == E.im[2] - O.re[2] &&
      y.re[3] == E.re[3] - (O.re[3] + O.im[3]) * S && y.re[7] == E.re[3] + (O.re[3] + O.im[3]) * S &&
      y.im[3] == E.im[3] + (O.re[3] - O.im[3]) * S && y.im[7] == E.im[3] - (O.re[3] - O.im[3]) * S)
  }

  /** The `N === 8` arms of `_fft` and `_ifft` are one generic butterfly stage over two
      four-point transforms. */
  lemma {:induction false} EightPoint(x: Signal, sin: SinFn, dir: Direction)
    requires x.Valid() && |x.re| == 8
    ensures IsPow2(4) && EvensOf(x).Valid() && |EvensOf(x).re| == 4 && OddsOf(x).Valid() && |OddsOf(x).re| == 4
    ensures var y := Transform(x, sin, dir);
      y.Valid() && |y.re| == 8 &&
      EightStage(y, Transform(EvensOf(x), sin, dir), Transform(OddsOf(x), sin, dir), dir)
  {
    assert IsPow2(8) && IsPow2(4);
    TransformStep(x, sin, dir);
    CombineFour(Transform(EvensOf(x), sin, dir), Transform(OddsOf(x), sin, dir), sin, dir);
  }

  /** One butterfly stage over two four-point halves, in the closed form of `EightStage`. */
  lemma {:induction false} CombineFour(E: Signal, O: Signal, sin: SinFn, dir: Direction)
    requires E.Valid() && O.Valid() && |E.re| == 4 && |O.re| == 4
    ensures IsPow2(4)
    ensures var y := Combine(E, O, sin, dir); y.Valid() && |y.re| == 8 && EightStage(y, E, O, dir)
  {
    RotationsFour(O, sin, dir);
    CombineAt(E, O, sin, dir, 0);
    CombineAt(E, O, sin, dir, 1);
    CombineAt(E, O, sin, dir, 2);
    CombineAt(E, O, sin, dir, 3);
  }

  // ---------------------------------------------------------------------------------
  // Properties of the recursion.
  // ---------------------------------------------------------------------------------

  function Negate(s: seq<real>): (r: seq<real>)
    ensures |r| == |s| && forall j :: 0 <= j < |s| ==> r[j] == -s[j]
  {
    seq(|s|, j requires 0 <= j < |s| => -s[j])
  }

  /** The complex conjugate of a signal. */
  function Conj(x: Signal): Signal
  {
    Signal(x.re, Negate(x.im))
  }

  /** Splitting commutes with conjugation. */
  lemma {:induction false} ConjSplits(x: Signal)
    ensures EvensOf(Conj(x)) == Conj(EvensOf(x)) && OddsOf(Conj(x)) == Conj(OddsOf(x))
  {
  }

  /** A rotation by the `+sines[k]` twiddle is the conjugate of one by `-sines[k]` applied to
      the conjugate. */
  lemma {:induction false} ConjRotation(o: Signal, k: int, sin: SinFn)
    requires o.Valid() && IsPow2(|o.re|) && 0 <= k < |o.re|
    ensures QRe(o, k, sin, Inverse) == QRe(Conj(o), k, sin, Forward)
    ensures QIm(o, k, sin, Inverse) == -QIm(Conj(o), k, sin, Forward)
  {
  }

  /** One butterfly stage with the `+sines[k]` twiddle is the conjugate of one with `-sines[k]`
      on conjugated halves. */
  lemma {:induction false} ConjCombine(e: Signal, o: Signal, sin: SinFn)
    requires e.Valid() && o.Valid() && IsPow2(|o.re|) && |e.re| == |o.re|
    ensures Combine(e, o, sin, Inverse) == Conj(Combine(Conj(e), Conj(o), sin, Forward))
  {
    var M := |o.re|;
    var a, b := Combine(e, o, sin, Inverse), Combine(Conj(e), Conj(o), sin, Forward);
    forall n | 0 <= n < 2 * M
      ensures a.re[n] == b.re[n] && a.im[n] == -b.im[n]
    {
      ConjRotation(o, if n < M then n else n - M, sin);
    }
    assert a.re == b.re;
    assert a.im == Negate(b.im);
  }

  lemma {:induction false} ConjConj(x: Signal)
    ensures Conj(Conj(x)) == x
  {
    assert Negate(Negate(x.im)) == x.im;
  }

  /** One level of the recursion, for lengths N >= 2. */
  lemma {:induction false} TransformStep(x: Signal, sin: SinFn, dir: Direction)
    requires x.Valid() && IsPow2(|x.re|) && |x.re| >= 2
    ensures EvensOf(x).Valid() && OddsOf(x).Valid() && IsPow2(|x.re| / 2)
    ensures |EvensOf(x).re| == |OddsOf(x).re| == |x.re| / 2
    ensures Transform(x, sin, dir) ==
      Combine(Transform(EvensOf(x), sin, dir), Transform(OddsOf(x), sin, dir), sin, dir)
  {
    SplitHalves(x);
  }

  /** The inverse recursion is the forward one applied to the conjugate, conjugated again:
      `_ifft` differs from `_fft` only in the sign of `imagZ`. */
  lemma {:induction false} InverseIsConjugatedForward(x: Signal, sin: SinFn)
    requires x.Valid() && IsPow2(|x.re|)
    ensures Transform(x, sin, Inverse) == Conj(Transform(Conj(x), sin, Forward))
    decreases |x.re|
  {
    if |x.re| == 1 {
      ConjConj(x);
    } else {
      var cx := Conj(x);
      TransformStep(x, sin, Inverse);
      TransformStep(cx, sin, Forward);
      ConjSplits(x);
      InverseIsConjugatedForward(EvensOf(x), sin);
      InverseIsConjugatedForward(OddsOf(x), sin);
      var e, o := Transform(EvensOf(x), sin, Inverse), Transform(OddsOf(x), sin, Inverse);
      var fe, fo := Transform(EvensOf(cx), sin, Forward), Transform(OddsOf(cx), sin, Forward);
      assert e == Conj(fe) && o == Conj(fo);
      ConjConj(fe);
      ConjConj(fo);
      ConjCombine(e, o, sin);
    }
  }

  function Sum(s: seq<real>): real
  {
    if s == [] then 0.0 else s[0] + Sum(s[1..])
  }

  /** The sum of four samples. */
  lemma {:induction false} SumFour(s: seq<real>)
    requires |s| == 4
    ensures Sum(s) == s[0] + s[1] + s[2] + s[3]
  {
    var t := s[1..];
    var u := t[1..];
    var v := u[1..];
    assert v[1..] == [];
    assert Sum(v) == s[3];
    assert Sum(u) == s[2] + s[3];
    assert Sum(t) == s[1] + s[2] + s[3];
  }

  /** The sum of eight samples is the sum of the even ones plus the sum of the odd ones. */
  lemma {:induction false} SumEight(s: seq<real>)
    requires |s| == 8
    ensures Sum(s) == (s[0] + s[2] + s[4] + s[6]) + (s[1] + s[3] + s[5] + s[7])
  {
    SplitSum(s);
    var e, o := Evens(s), Odds(s);
    SumFour(e);
    SumFour(o);
  }

  /** The two parts of the split together hold every sample once. */
  lemma {:induction false} SplitSum(s: seq<real>)
    ensures Sum(Evens(s)) + Sum(Odds(s)) == Sum(s)
  {
    if s != [] {
      SplitSum(s[1..]);
      assert Evens(s) == [s[0]] + Odds(s[1..]);
      assert ([s[0]] + Odds(s[1..]))[1..] == Odds(s[1..]);
    }
  }

  /** Output 0 is never rotated, so it is the plain sum of the input in both directions. */
  lemma {:induction false} ZeroFrequencyIsSum(x: Signal, sin: SinFn, dir: Direction)
    requires x.Valid() && IsPow2(|x.re|)
    ensures Transform(x, sin, dir).re[0] == Sum(x.re)
    ensures Transform(x, sin, dir).im[0] == Sum(x.im)
    decreases |x.re|
  {
    if |x.re| == 1 {
      assert x.re[1..] == [] && x.im[1..] == [];
    } else {
      TransformStep(x, sin, dir);
      var e, o := Transform(EvensOf(x), sin, dir), Transform(OddsOf(x), sin, dir);
      CombineAt(e, o, sin, dir, 0);
      ZeroFrequencyIsSum(EvensOf(x), sin, dir);
      ZeroFrequencyIsSum(OddsOf(x), sin, dir);
      SplitSum(x.re);
      SplitSum(x.im);
    }
  }
}
