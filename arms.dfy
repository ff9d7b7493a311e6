/** The hand-unrolled base arms of the transforms, each written as the source spells it out
    (locals named as there, outputs listed by index), and the proof that each one computes
    exactly what the generic radix-2 recursion computes for its length. The arms build the
    whole output in one go; the entries the source leaves at the zero of
    `new Float64Array(N)` are written as 0.0. */
module Arms {
  import opened PowerOfTwo
  import opened Twiddle
  import opened Radix2

  // ---------------------------------------------------------------------------------
  // N = 1 and N = 2 (the same in `fft` and `ifft`).
  // ---------------------------------------------------------------------------------

  /** `realOut[0] = realIn[0]; imagOut[0] = imagIn[0]`. */
  function OneArm(realIn: seq<real>, imagIn: seq<real>): (y: Signal)
    requires |realIn| == 1 && |imagIn| == 1
    ensures y == Signal(realIn, imagIn)
  {
    Signal([realIn[0]], [imagIn[0]])
  }

  /** A single butterfly without rotation. */
  function TwoArm(realIn: seq<real>, imagIn: seq<real>): (y: Signal)
    requires |realIn| == 2 && |imagIn| == 2
    ensures y.Valid() && |y.re| == 2
    ensures y.re[0] + y.re[1] == 2.0 * realIn[0] && y.re[0] - y.re[1] == 2.0 * realIn[1]
    ensures y.im[0] + y.im[1] == 2.0 * imagIn[0] && y.im[0] - y.im[1] == 2.0 * imagIn[1]
  {
    Signal([realIn[0] + realIn[1], realIn[0] - realIn[1]],
           [imagIn[0] + imagIn[1], imagIn[0] - imagIn[1]])
  }

  /** The length-1 transform is the identity in both directions. */
  lemma {:induction false} OneIsTransform(x: Signal, sin: SinFn, dir: Direction)
    requires x.Valid() && |x.re| == 1
    ensures IsPow2(1) && OneArm(x.re, x.im) == Transform(x, sin, dir)
  {
    assert x.re == [x.re[0]] && x.im == [x.im[0]];
  }

  lemma {:induction false} TwoIsTransform(x: Signal, sin: SinFn, dir: Direction)
    requires x.Valid() && |x.re| == 2
    ensures IsPow2(2) && TwoArm(x.re, x.im) == Transform(x, sin, dir)
  {
    assert IsPow2(2);
    TwoPoint(x, sin, dir);
  }

  // ---------------------------------------------------------------------------------
  // N = 4.
  // ---------------------------------------------------------------------------------

  /** The `N === 4` arm of `fft`. */
  function FftFourArm(realIn: seq<real>, imagIn: seq<real>): (y: Signal)
    requires |realIn| == 4 && |imagIn| == 4
    ensures y.Valid() && |y.re| == 4 && y.re[0] == Sum(realIn) && y.im[0] == Sum(imagIn)
  {
    SumFour(realIn);
    SumFour(imagIn);
    Signal([realIn[0] + realIn[1] + realIn[2] + realIn[3],
            realIn[0] + imagIn[1] - realIn[2] - imagIn[3],
            realIn[0] - realIn[1] + realIn[2] - realIn[3],
            realIn[0] - imagIn[1] - realIn[2] + imagIn[3]],
           [imagIn[0] + imagIn[1] + imagIn[2] + imagIn[3],
            imagIn[0] - realIn[1] - imagIn[2] + realIn[3],
            imagIn[0] - imagIn[1] + imagIn[2] - imagIn[3],
            imagIn[0] + realIn[1] - imagIn[2] - realIn[3]])
  }

  /** The `N === 4` arm of `ifft`: the same with the roles of the +i and -i rotations swapped. */
  function IfftFourArm(realIn: seq<real>, imagIn: seq<real>): (y: Signal)
    requires |realIn| == 4 && |imagIn| == 4
    ensures y.Valid() && |y.re| == 4 && y.re[0] == Sum(realIn) && y.im[0] == Sum(imagIn)
  {
    SumFour(realIn);
    SumFour(imagIn);
    Signal([realIn[0] + realIn[1] + realIn[2] + realIn[3],
            realIn[0] - imagIn[1] - realIn[2] + imagIn[3],
            realIn[0] - realIn[1] + realIn[2] - realIn[3],
            realIn[0] + imagIn[1] - realIn[2] - imagIn[3]],
           [imagIn[0] + imagIn[1] + imagIn[2] + imagIn[3],
            imagIn[0] + realIn[1] - imagIn[2] - realIn[3],
            imagIn[0] - imagIn[1] + imagIn[2] - imagIn[3],
            imagIn[0] - realIn[1] - imagIn[2] + realIn[3]])
  }

  /** The `N === 4` arm of `_fftNoImag`: `imagOut[0]` and `imagOut[2]` keep their zero. */
  function FftNoImagFourArm(realIn: seq<real>): (y: Signal)
    requires |realIn| == 4
    ensures y.Valid() && |y.re| == 4 && y.re[0] == Sum(realIn)
    ensures y.im[0] == 0.0 && y.im[2] == 0.0 && y.re[1] == y.re[3] && y.im[1] == -y.im[3]
  {
    SumFour(realIn);
    Signal([realIn[0] + realIn[1] + realIn[2] + realIn[3],
            realIn[0] - realIn[2],
            realIn[0] - realIn[1] + realIn[2] - realIn[3],
            realIn[0] - realIn[2]],
           [0.0, realIn[3] - realIn[1], 0.0, realIn[1] - realIn[3]])
  }

  /** The `N === 4` arm of `ifftReal`. */
  function IfftRealFourArm(realIn: seq<real>, imagIn: seq<real>): (y: seq<real>)
    requires |realIn| == 4 && |imagIn| == 4
    ensures |y| == 4 && y[0] == Sum(realIn)
  {
    SumFour(realIn);
    [realIn[0] + realIn[1] + realIn[2] + realIn[3],
     realIn[0] - imagIn[1] - realIn[2] + imagIn[3],
     realIn[0] - realIn[1] + realIn[2] - realIn[3],
     realIn[0] + imagIn[1] - realIn[2] - imagIn[3]]
  }

  /** Four equal entries make equal sequences. */
  lemma {:induction false} FourEntries(s: seq<real>, t: seq<real>)
    requires |s| == 4 && |t| == 4
    requires s[0] == t[0] && s[1] == t[1] && s[2] == t[2] && s[3] == t[3]
    ensures s == t
  {
    assert s == [s[0], s[1], s[2], s[3]];
    assert t == [t[0], t[1], t[2], t[3]];
  }

  /** The `fft` arm spells out the closed form of a forward four-point transform. */
  lemma {:induction false} FftFourStage(r: seq<real>, i: seq<real>, y: Signal)
    requires |r| == 4 && |i| == 4 && y.Valid() && |y.re| == 4
    requires FourStage(y, r, i, Forward)
    ensures y == FftFourArm(r, i)
  {
    var a := FftFourArm(r, i);
    FourEntries(y.re, a.re);
    FourEntries(y.im, a.im);
  }

  /** The `ifft` arm spells out the closed form of an inverse four-point transform. */
  lemma {:induction false} IfftFourStage(r: seq<real>, i: seq<real>, y: Signal)
    requires |r| == 4 && |i| == 4 && y.Valid() && |y.re| == 4
    requires FourStage(y, r, i, Inverse)
    ensures y == IfftFourArm(r, i)
  {
    var a := IfftFourArm(r, i);
    FourEntries(y.re, a.re);
    FourEntries(y.im, a.im);
  }

  lemma {:induction false} FftFourIsTransform(x: Signal, sin: SinFn)
    requires x.Valid() && |x.re| == 4
    ensures IsPow2(4) && FftFourArm(x.re, x.im) == Transform(x, sin, Forward)
  {
    FourPoint(x, sin, Forward);
    FftFourStage(x.re, x.im, Transform(x, sin, Forward));
  }

  lemma {:induction false} IfftFourIsTransform(x: Signal, sin: SinFn)
    requires x.Valid() && |x.re| == 4
    ensures IsPow2(4) && IfftFourArm(x.re, x.im) == Transform(x, sin, Inverse)
  {
    FourPoint(x, sin, Inverse);
    IfftFourStage(x.re, x.im, Transform(x, sin, Inverse));
  }

  /** The real-input arm is the full arm with a zero imaginary part. */
  lemma {:induction false} FftNoImagFourIsTransform(realIn: seq<real>, sin: SinFn)
    requires |realIn| == 4
    ensures IsPow2(4) && FftNoImagFourArm(realIn) == Transform(Signal(realIn, Zeros(4)), sin, Forward)
  {
    FftFourIsTransform(Signal(realIn, Zeros(4)), sin);
    NoImagFour(realIn);
  }

  lemma {:induction false} NoImagFour(realIn: seq<real>)
    requires |realIn| == 4
    ensures FftNoImagFourArm(realIn) == FftFourArm(realIn, Zeros(4))
  {
    var a, f := FftNoImagFourArm(realIn), FftFourArm(realIn, Zeros(4));
    FourEntries(a.re, f.re);
    FourEntries(a.im, f.im);
  }

  /** The real-output arm is the real part of the full inverse arm. */
  lemma {:induction false} IfftRealFourIsTransform(x: Signal, sin: SinFn)
    requires x.Valid() && |x.re| == 4
    ensures IsPow2(4) && IfftRealFourArm(x.re, x.im) == Transform(x, sin, Inverse).re
  {
    IfftFourIsTransform(x, sin);
  }

  // ---------------------------------------------------------------------------------
  // N = 8, inside the recursive workers. Each arm spells out the butterflies of the two
  // four-point halves and the last stage with the M = 4 table, whose entries at 1 and 3
  // are taken as the literal 0.7071067811865475.
  // ---------------------------------------------------------------------------------

  /** The `N === 8` arm of `_fft`. */
  function FftEightArm(realIn: seq<real>, imagIn: seq<real>): (y: Signal)
    requires |realIn| == 8 && |imagIn| == 8
    ensures y.Valid() && |y.re| == 8 && y.re[0] == Sum(realIn) && y.im[0] == Sum(imagIn)
  {
    SumEight(realIn);
    SumEight(imagIn);
    var realEvens0 := realIn[0] + realIn[2] + realIn[4] + realIn[6];
    var imagEvens0 := imagIn[0] + imagIn[2] + imagIn[4] + imagIn[6];
    var realOdds0 := realIn[1] + realIn[3] + realIn[5] + realIn[7];
    var imagOdds0 := imagIn[1] + imagIn[3] + imagIn[5] + imagIn[7];

    var realEvens1 := realIn[0] + imagIn[2] - realIn[4] - imagIn[6];
    var imagEvens1 := imagIn[0] - realIn[2] - imagIn[4] + realIn[6];
    var realOdds1 := realIn[1] + imagIn[3] - realIn[5] - imagIn[7];
    var imagOdds1 := imagIn[1] - realIn[3] - imagIn[5] + realIn[7];
    var realQ1 := (realOdds1 + imagOdds1) * SQRT1_2;
    var imagQ1 := (realOdds1 - imagOdds1) * SQRT1_2;

    var realEvens2 := realIn[0] - realIn[2] + realIn[4] - realIn[6];
    var imagEvens2 := imagIn[0] - imagIn[2] + imagIn[4] - imagIn[6];
    var realOdds2 := realIn[1] - realIn[3] + realIn[5] - realIn[7];
    var imagOdds2 := imagIn[1] - imagIn[3] + imagIn[5] - imagIn[7];

    var realEvens3 := realIn[0] - imagIn[2] - realIn[4] + imagIn[6];
    var imagEvens3 := imagIn[0] + realIn[2] - imagIn[4] - realIn[6];
    var realOdds3 := realIn[1] - imagIn[3] - realIn[5] + imagIn[7];
    var imagOdds3 := imagIn[1] + realIn[3] - imagIn[5] - realIn[7];
    var realQ3 := (realOdds3 - imagOdds3) * SQRT1_2;
    var imagQ3 := (realOdds3 + imagOdds3) * SQRT1_2;

    Signal([realEvens0 + realOdds0, realEvens1 + realQ1, realEvens2 + imagOdds2, realEvens3 - realQ3,
            realEvens0 - realOdds0, realEvens1 - realQ1, realEvens2 - imagOdds2, realEvens3 + realQ3],
           [imagEvens0 + imagOdds0, imagEvens1 - imagQ1, imagEvens2 - realOdds2, imagEvens3 - imagQ3,
            imagEvens0 - imagOdds0, imagEvens1 + imagQ1, imagEvens2 + realOdds2, imagEvens3 + imagQ3])
  }

  /** The `N === 8` arm of `_ifft`. */
  function IfftEightArm(realIn: seq<real>, imagIn: seq<real>): (y: Signal)
    requires |realIn| == 8 && |imagIn| == 8
    ensures y.Valid() && |y.re| == 8 && y.re[0] == Sum(realIn) && y.im[0] == Sum(imagIn)
  {
    SumEight(realIn);
    SumEight(imagIn);
    var realEvens0 := realIn[0] + realIn[2] + realIn[4] + realIn[6];
    var imagEvens0 := imagIn[0] + imagIn[2] + imagIn[4] + imagIn[6];
    var realOdds0 := realIn[1] + realIn[3] + realIn[5] + realIn[7];
    var imagOdds0 := imagIn[1] + imagIn[3] + imagIn[5] + imagIn[7];

    var realEvens1 := realIn[0] - imagIn[2] - realIn[4] + imagIn[6];
    var imagEvens1 := imagIn[0] + realIn[2] - imagIn[4] - realIn[6];
    var realOdds1 := realIn[1] - imagIn[3] - realIn[5] + imagIn[7];
    var imagOdds1 := imagIn[1] + realIn[3] - imagIn[5] - realIn[7];
    var realQ1 := (realOdds1 - imagOdds1) * SQRT1_2;
    var imagQ1 := (realOdds1 + imagOdds1) * SQRT1_2;

    var realEvens2 := realIn[0] - realIn[2] + realIn[4] - realIn[6];
    var imagEvens2 := imagIn[0] - imagIn[2] + imagIn[4] - imagIn[6];
    var realOdds2 := realIn[1] - realIn[3] + realIn[5] - realIn[7];
    var imagOdds2 := imagIn[1] - imagIn[3] + imagIn[5] - imagIn[7];

    var realEvens3 := realIn[0] + imagIn[2] - realIn[4] - imagIn[6];
    var imagEvens3 := imagIn[0] - realIn[2] - imagIn[4] + realIn[6];
    var realOdds3 := realIn[1] + imagIn[3] - realIn[5] - imagIn[7];
    var imagOdds3 := imagIn[1] - realIn[3] - imagIn[5] + realIn[7];
    var realQ3 := (realOdds3 + imagOdds3) * SQRT1_2;
    var imagQ3 := (realOdds3 - imagOdds3) * SQRT1_2;

    Signal([realEvens0 + realOdds0, realEvens1 + realQ1, realEvens2 - imagOdds2, realEvens3 - realQ3,
            realEvens0 - realOdds0, realEvens1 - realQ1, realEvens2 + imagOdds2, realEvens3 + realQ3],
           [imagEvens0 + imagOdds0, imagEvens1 + imagQ1, imagEvens2 + realOdds2, imagEvens3 + imagQ3,
            imagEvens0 - imagOdds0, imagEvens1 - imagQ1, imagEvens2 - realOdds2, imagEvens3 - imagQ3])
  }

  /** The `N === 8` arm of `_fftNoImagInner`: `imagOut[0]` and `imagOut[4]` keep their zero. */
  function FftNoImagEightArm(realIn: seq<real>): (y: Signal)
    requires |realIn| == 8
    ensures y.Valid() && |y.re| == 8 && y.re[0] == Sum(realIn) && y.im[0] == 0.0 && y.im[4] == 0.0
  {
    SumEight(realIn);
    var realEvens0 := realIn[0] + realIn[2] + realIn[4] + realIn[6];
    var realOdds0 := realIn[1] + realIn[3] + realIn[5] + realIn[7];

    var realEvens1 := realIn[0] - realIn[4];
    var imagEvens1 := realIn[6] - realIn[2];
    var realOdds1 := realIn[1] - realIn[5];
    var imagOdds1 := realIn[7] - realIn[3];
    var realQ1 := (realOdds1 + imagOdds1) * SQRT1_2;
    var imagQ1 := (realOdds1 - imagOdds1) * SQRT1_2;

    var realEvens2 := realIn[0] - realIn[2] + realIn[4] - realIn[6];
    var realOdds2 := realIn[1] - realIn[3] + realIn[5] - realIn[7];

    var realEvens3 := realIn[0] - realIn[4];
    var imagEvens3 := realIn[2] - realIn[6];
    var realOdds3 := realIn[1] - realIn[5];
    var imagOdds3 := realIn[3] - realIn[7];
    var realQ3 := (realOdds3 - imagOdds3) * SQRT1_2;
    var imagQ3 := (realOdds3 + imagOdds3) * SQRT1_2;

    Signal([realEvens0 + realOdds0, realEvens1 + realQ1, realEvens2, realEvens3 - realQ3,
            realEvens0 - realOdds0, realEvens1 - realQ1, realEvens2, realEvens3 + realQ3],
           [0.0, imagEvens1 - imagQ1, -realOdds2, imagEvens3 - imagQ3,
            0.0, imagEvens1 + imagQ1, realOdds2, imagEvens3 + imagQ3])
  }

  /** The `N === 8` arm of `_ifftReal`. */
  function IfftRealEightArm(realIn: seq<real>, imagIn: seq<real>): (y: seq<real>)
    requires |realIn| == 8 && |imagIn| == 8
    ensures |y| == 8 && y[0] == Sum(realIn)
  {
    SumEight(realIn);
    var realEvens0 := realIn[0] + realIn[2] + realIn[4] + realIn[6];
    var realOdds0 := realIn[1] + realIn[3] + realIn[5] + realIn[7];

    var realEvens1 := realIn[0] - imagIn[2] - realIn[4] + imagIn[6];
    var realOdds1 := realIn[1] - imagIn[3] - realIn[5] + imagIn[7];
    var imagOdds1 := imagIn[1] + realIn[3] - imagIn[5] - realIn[7];
    var realQ1 := (realOdds1 - imagOdds1) * SQRT1_2;

    var realEvens2 := realIn[0] - realIn[2] + realIn[4] - realIn[6];
    var imagOdds2 := imagIn[1] - imagIn[3] + imagIn[5] - imagIn[7];

    var realEvens3 := realIn[0] + imagIn[2] - realIn[4] - imagIn[6];
    var realOdds3 := realIn[1] + imagIn[3] - realIn[5] - imagIn[7];
    var imagOdds3 := imagIn[1] - realIn[3] - imagIn[5] + realIn[7];
    var realQ3 := (realOdds3 + imagOdds3) * SQRT1_2;

    [realEvens0 + realOdds0, realEvens1 + realQ1, realEvens2 - imagOdds2, realEvens3 - realQ3,
     realEvens0 - realOdds0, realEvens1 - realQ1, realEvens2 + imagOdds2, realEvens3 + realQ3]
  }

  /** Eight equal entries make equal sequences. */
  lemma {:induction false} EightEntries(s: seq<real>, t: seq<real>)
    requires |s| == 8 && |t| == 8
    requires s[0] == t[0] && s[1] == t[1] && s[2] == t[2] && s[3] == t[3]
    requires s[4] == t[4] && s[5] == t[5] && s[6] == t[6] && s[7] == t[7]
    ensures s == t
  {
    assert s == [s[0], s[1], s[2], s[3], s[4], s[5], s[6], s[7]];
    assert t == [t[0], t[1], t[2], t[3], t[4], t[5], t[6], t[7]];
  }

  /** The two four-point halves of an eight-point input, in terms of the input samples. */
  lemma {:induction false} EightHalves(x: Signal, sin: SinFn, dir: Direction)
    requires x.Valid() && |x.re| == 8
    ensures IsPow2(4) && EvensOf(x).Valid() && |EvensOf(x).re| == 4 && OddsOf(x).Valid() && |OddsOf(x).re| == 4
    ensures var e, o := EvensOf(x), OddsOf(x);
      e.re == [x.re[0], x.re[2], x.re[4], x.re[6]] && e.im == [x.im[0], x.im[2], x.im[4], x.im[6]] &&
      o.re == [x.re[1], x.re[3], x.re[5], x.re[7]] && o.im == [x.im[1], x.im[3], x.im[5], x.im[7]]
  {
    assert IsPow2(4) by { assert IsPow2(2); }
    var e, o := EvensOf(x), OddsOf(x);
    FourEntries(e.re, [x.re[0], x.re[2], x.re[4], x.re[6]]);
    FourEntries(e.im, [x.im[0], x.im[2], x.im[4], x.im[6]]);
    FourEntries(o.re, [x.re[1], x.re[3], x.re[5], x.re[7]]);
    FourEntries(o.im, [x.im[1], x.im[3], x.im[5], x.im[7]]);
  }

  /** The `_fft` arm is the closed-form last stage over the `fft` four-point arms of the halves. */
  lemma {:induction false} FftEightStage(r: seq<real>, i: seq<real>, y: Signal)
    requires |r| == 8 && |i| == 8 && y.Valid() && |y.re| == 8
    requires EightStage(y, FftFourArm([r[0], r[2], r[4], r[6]], [i[0], i[2], i[4], i[6]]),
                           FftFourArm([r[1], r[3], r[5], r[7]], [i[1], i[3], i[5], i[7]]), Forward)
    ensures y == FftEightArm(r, i)
  {
    var a := FftEightArm(r, i);
    EightEntries(y.re, a.re);
    EightEntries(y.im, a.im);
  }

  /** The `_ifft` arm is the closed-form last stage over the `ifft` four-point arms of the halves. */
  lemma {:induction false} IfftEightStage(r: seq<real>, i: seq<real>, y: Signal)
    requires |r| == 8 && |i| == 8 && y.Valid() && |y.re| == 8
    requires EightStage(y, IfftFourArm([r[0], r[2], r[4], r[6]], [i[0], i[2], i[4], i[6]]),
                           IfftFourArm([r[1], r[3], r[5], r[7]], [i[1], i[3], i[5], i[7]]), Inverse)
    ensures y == IfftEightArm(r, i)
  {
    var a := IfftEightArm(r, i);
    EightEntries(y.re, a.re);
    EightEntries(y.im, a.im);
  }

  lemma {:induction false} FftEightIsTransform(x: Signal, sin: SinFn)
    requires x.Valid() && |x.re| == 8
    ensures IsPow2(8) && FftEightArm(x.re, x.im) == Transform(x, sin, Forward)
  {
    assert IsPow2(8) by { assert IsPow2(4) by { assert IsPow2(2); } }
    EightPoint(x, sin, Forward);
    EightHalves(x, sin, Forward);
    FftFourIsTransform(EvensOf(x), sin);
    FftFourIsTransform(OddsOf(x), sin);
    FftEightStage(x.re, x.im, Transform(x, sin, Forward));
  }

  lemma {:induction false} IfftEightIsTransform(x: Signal, sin: SinFn)
    requires x.Valid() && |x.re| == 8
    ensures IsPow2(8) && IfftEightArm(x.re, x.im) == Transform(x, sin, Inverse)
  {
    assert IsPow2(8) by { assert IsPow2(4) by { assert IsPow2(2); } }
    EightPoint(x, sin, Inverse);
    EightHalves(x, sin, Inverse);
    IfftFourIsTransform(EvensOf(x), sin);
    IfftFourIsTransform(OddsOf(x), sin);
    IfftEightStage(x.re, x.im, Transform(x, sin, Inverse));
  }

  /** The real-input arm is the full arm with a zero imaginary part. */
  lemma {:induction false} FftNoImagEightIsTransform(realIn: seq<real>, sin: SinFn)
    requires |realIn| == 8
    ensures IsPow2(8) && FftNoImagEightArm(realIn) == Transform(Signal(realIn, Zeros(8)), sin, Forward)
  {
    FftEightIsTransform(Signal(realIn, Zeros(8)), sin);
    NoImagEight(realIn);
  }

  lemma {:induction false} NoImagEight(realIn: seq<real>)
    requires |realIn| == 8
    ensures FftNoImagEightArm(realIn) == FftEightArm(realIn, Zeros(8))
  {
    var a, f := FftNoImagEightArm(realIn), FftEightArm(realIn, Zeros(8));
    EightEntries(a.re, f.re);
    EightEntries(a.im, f.im);
  }

  /** The real-output arm is the real part of the full inverse arm. */
  lemma {:induction false} IfftRealEightIsTransform(x: Signal, sin: SinFn)
    requires x.Valid() && |x.re| == 8
    ensures IsPow2(8) && IfftRealEightArm(x.re, x.im) == Transform(x, sin, Inverse).re
  {
    IfftEightIsTransform(x, sin);
    var a, f := IfftRealEightArm(x.re, x.im), IfftEightArm(x.re, x.im);
    EightEntries(a, f.re);
  }
}
