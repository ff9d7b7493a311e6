/** The public transforms `fft`, `ifft` and `ifftReal` and their recursive workers.
    Each worker allocates zero-filled output buffers (`new Float64Array(N)`), fills them
    either by a hand-unrolled arm or by two recursive calls and a loop of butterflies,
    and is proved to produce the radix-2 recursion `Radix2.Transform` of its input. */
module Fft {
  import opened PowerOfTwo
  import opened Twiddle
  import opened Radix2
  import opened Arms

  datatype Option<T> = None | Some(value: T)

  /** The two errors the transforms throw: 'Length must be a power of two.' and
      'Must have an equal number of real and imaginary components'. */
  datatype Error = InvalidLength | LengthMismatch

  datatype Result<T> = Ok(value: T) | Err(error: Error)

  // ---------------------------------------------------------------------------------
  // What the public entry points compute.
  // ---------------------------------------------------------------------------------

  /** `fft(realIn, imagIn?)`: the length is checked first, then a missing imaginary part
      stands for zeros, and only a present one is checked against the length. */
  function FftSpec(realIn: seq<real>, imagIn: Option<seq<real>>, sin: SinFn): (r: Result<Signal>)
    ensures r.Ok? ==> r.value.Valid() && |r.value.re| == |realIn| && IsPow2(|realIn|)
    ensures r == Err(LengthMismatch) ==> imagIn.Some? && |imagIn.value| != |realIn|
  {
    var N := |realIn|;
    if N != CeilPow2(N) then Err(InvalidLength)
    else
      AcceptedLength(N);
      match imagIn
      case None => Ok(Transform(Signal(realIn, Zeros(N)), sin, Forward))
      case Some(imag) =>
        if |imag| != N then Err(LengthMismatch) else Ok(Transform(Signal(realIn, imag), sin, Forward))
  }

  /** `ifft(realIn, imagIn)`: the length is checked before the imaginary part. */
  function IfftSpec(realIn: seq<real>, imagIn: seq<real>, sin: SinFn): (r: Result<Signal>)
    ensures r.Ok? ==> r.value.Valid() && |r.value.re| == |realIn| && IsPow2(|realIn|)
    ensures r == Err(LengthMismatch) ==> |imagIn| != |realIn|
  {
    var N := |realIn|;
    if N != CeilPow2(N) then Err(InvalidLength)
    else if |imagIn| != N then Err(LengthMismatch)
    else
      AcceptedLength(N);
      Ok(Transform(Signal(realIn, imagIn), sin, Inverse))
  }

  /** The real part of a result, errors passed through. */
  function RealPart(r: Result<Signal>): Result<seq<real>>
  {
    match r
    case Ok(y) => Ok(y.re)
    case Err(e) => Err(e)
  }

  /** The conjugate of a result, errors passed through. */
  function ConjResult(r: Result<Signal>): Result<Signal>
  {
    match r
    case Ok(y) => Ok(Conj(y))
    case Err(e) => Err(e)
  }

  /** `fft` rejects exactly the lengths that are not powers of two up to 2^30, whatever the
      imaginary part; it reports a mismatch only for a present imaginary part of another
      length; on success both outputs have the input's length. */
  lemma {:induction false} FftValidation(realIn: seq<real>, imagIn: Option<seq<real>>, sin: SinFn)
    ensures var N, r := |realIn|, FftSpec(realIn, imagIn, sin);
      (r == Err(InvalidLength) <==> !(IsPow2(N) && N <= MAX_LENGTH)) &&
      (r == Err(LengthMismatch) <==> IsPow2(N) && N <= MAX_LENGTH && imagIn.Some? && |imagIn.value| != N) &&
      (r.Ok? ==> r.value.Valid() && |r.value.re| == N)
  {
    AcceptedLength(|realIn|);
  }

  /** The same for `ifft`. */
  lemma {:induction false} IfftValidation(realIn: seq<real>, imagIn: seq<real>, sin: SinFn)
    ensures var N, r := |realIn|, IfftSpec(realIn, imagIn, sin);
      (r == Err(InvalidLength) <==> !(IsPow2(N) && N <= MAX_LENGTH)) &&
      (r == Err(LengthMismatch) <==> IsPow2(N) && N <= MAX_LENGTH && |imagIn| != N) &&
      (r.Ok? ==> r.value.Valid() && |r.value.re| == N)
  {
    AcceptedLength(|realIn|);
  }

  /** `ifft(r, i)` is `fft(r, -i)` with the imaginary output negated, errors included. */
  lemma {:induction false} IfftIsConjugatedFft(realIn: seq<real>, imagIn: seq<real>, sin: SinFn)
    ensures IfftSpec(realIn, imagIn, sin) == ConjResult(FftSpec(realIn, Some(Negate(imagIn)), sin))
  {
    var N := |realIn|;
    if N == CeilPow2(N) && |imagIn| == N {
      AcceptedLength(N);
      InverseIsConjugatedForward(Signal(realIn, imagIn), sin);
    }
  }

  /** Leaving the imaginary part out is the same as passing zeros. */
  lemma {:induction false} MissingImagIsZero(realIn: seq<real>, sin: SinFn)
    ensures FftSpec(realIn, None, sin) == FftSpec(realIn, Some(Zeros(|realIn|)), sin)
  {
  }

  // ---------------------------------------------------------------------------------
  // The public entry points.
  // ---------------------------------------------------------------------------------

  /** `fft(realIn, imagIn?)`: validation, then `_fftNoImag` without an imaginary part, or
      the unrolled arms for N = 4, 2, 1 and the recursive worker `_fft` beyond. */
  method Fft(tables: TableStore, sin: SinFn, realIn: seq<real>, imagIn: Option<seq<real>>)
    returns (r: Result<Signal>)
    requires tables.Valid()
    ensures r == FftSpec(realIn, imagIn, sin)
  {
    var N := |realIn|;
    if N != CeilPow2(N) {
      return Err(InvalidLength);
    }
    AcceptedLength(N);
    if imagIn.None? {
      var y := FftNoImag(tables, sin, realIn);
      return Ok(y);
    }
    var imag := imagIn.value;
    if |imag| != N {
      return Err(LengthMismatch);
    }
    var y := FftComplex(tables, sin, realIn, imag);
    r := Ok(y);
  }

  /** `ifft(realIn, imagIn)`: validation, then the unrolled arms and `_ifft`. */
  method Ifft(tables: TableStore, sin: SinFn, realIn: seq<real>, imagIn: seq<real>)
    returns (r: Result<Signal>)
    requires tables.Valid()
    ensures r == IfftSpec(realIn, imagIn, sin)
  {
    var N := |realIn|;
    if N != CeilPow2(N) {
      return Err(InvalidLength);
    }
    if |imagIn| != N {
      return Err(LengthMismatch);
    }
    AcceptedLength(N);
    var y := IfftComplex(tables, sin, realIn, imagIn);
    r := Ok(y);
  }

  /** `ifftReal(realIn, imagIn)`: the real part of `ifft(realIn, imagIn)`, errors included,
      computed by the real-only arms and `_ifftReal`. */
  method IfftReal(tables: TableStore, sin: SinFn, realIn: seq<real>, imagIn: seq<real>)
    returns (r: Result<seq<real>>)
    requires tables.Valid()
    ensures r == RealPart(IfftSpec(realIn, imagIn, sin))
  {
    var N := |realIn|;
    if N != CeilPow2(N) {
      return Err(InvalidLength);
    }
    if |imagIn| != N {
      return Err(LengthMismatch);
    }
    AcceptedLength(N);
    var y := IfftRealSmall(tables, sin, realIn, imagIn);
    r := Ok(y);
  }

  /** `_resetTables` between two calls of `fft` does not change the result: the transforms
      read the store only through tables it rebuilds the same way. */
  method ResetKeepsResults(tables: TableStore, sin: SinFn, realIn: seq<real>, imagIn: Option<seq<real>>)
    returns (before: Result<Signal>, after: Result<Signal>)
    requires tables.Valid()
    modifies tables
    ensures before == after && after == FftSpec(realIn, imagIn, sin)
  {
    before := Fft(tables, sin, realIn, imagIn);
    tables.Reset();
    after := Fft(tables, sin, realIn, imagIn);
  }

  // ---------------------------------------------------------------------------------
  // The recursive workers.
  // ---------------------------------------------------------------------------------

  /** The rest of `fft` once the lengths are checked: the arms for N = 4, 2 and 1 written out
      on a complex input, then `_fft`. */
  method FftComplex(tables: TableStore, sin: SinFn, realIn: seq<real>, imagIn: seq<real>)
    returns (y: Signal)
    requires tables.Valid() && |realIn| == |imagIn| && IsPow2(|realIn|)
    ensures y == Transform(Signal(realIn, imagIn), sin, Forward)
  {
    var N := |realIn|;
    var x := Signal(realIn, imagIn);
    if N == 4 {
      y := FftFourArm(realIn, imagIn);
      FftFourIsTransform(x, sin);
    } else if N == 2 {
      y := TwoArm(realIn, imagIn);
      TwoIsTransform(x, sin, Forward);
    } else if N == 1 {
      y := OneArm(realIn, imagIn);
      OneIsTransform(x, sin, Forward);
    } else {
      BelowEight(N);
      y := FftRecursive(tables, sin, realIn, imagIn);
    }
  }

  /** The rest of `ifft` once the lengths are checked. */
  method IfftComplex(tables: TableStore, sin: SinFn, realIn: seq<real>, imagIn: seq<real>)
    returns (y: Signal)
    requires tables.Valid() && |realIn| == |imagIn| && IsPow2(|realIn|)
    ensures y == Transform(Signal(realIn, imagIn), sin, Inverse)
  {
    var N := |realIn|;
    var x := Signal(realIn, imagIn);
    if N == 4 {
      y := IfftFourArm(realIn, imagIn);
      IfftFourIsTransform(x, sin);
    } else if N == 2 {
      y := TwoArm(realIn, imagIn);
      TwoIsTransform(x, sin, Inverse);
    } else if N == 1 {
      y := OneArm(realIn, imagIn);
      OneIsTransform(x, sin, Inverse);
    } else {
      BelowEight(N);
      y := IfftRecursive(tables, sin, realIn, imagIn);
    }
  }

  /** The rest of `ifftReal` once the lengths are checked: only the real output is built. */
  method IfftRealSmall(tables: TableStore, sin: SinFn, realIn: seq<real>, imagIn: seq<real>)
    returns (y: seq<real>)
    requires tables.Valid() && |realIn| == |imagIn| && IsPow2(|realIn|)
    ensures y == Transform(Signal(realIn, imagIn), sin, Inverse).re
  {
    var N := |realIn|;
    var x := Signal(realIn, imagIn);
    if N == 4 {
      y := IfftRealFourArm(realIn, imagIn);
      IfftRealFourIsTransform(x, sin);
    } else if N == 2 {
      y := [realIn[0] + realIn[1], realIn[0] - realIn[1]];
      TwoIsTransform(x, sin, Inverse);
      assert TwoArm(realIn, imagIn).re == y;
    } else if N == 1 {
      y := [realIn[0]];
      OneIsTransform(x, sin, Inverse);
    } else {
      BelowEight(N);
      y := IfftRealRecursive(tables, sin, realIn, imagIn);
    }
  }

  /** `_fftNoImag`: the arms for a real input of length 4, 2 and 1, then `_fftNoImagInner`. */
  method FftNoImag(tables: TableStore, sin: SinFn, realIn: seq<real>) returns (y: Signal)
    requires tables.Valid() && IsPow2(|realIn|)
    ensures y == Transform(Signal(realIn, Zeros(|realIn|)), sin, Forward)
  {
    var N := |realIn|;
    if N == 4 {
      FftNoImagFourIsTransform(realIn, sin);
      return FftNoImagFourArm(realIn);
    }
    if N == 2 {
      TwoIsTransform(Signal(realIn, Zeros(2)), sin, Forward);
      y := Signal([realIn[0] + realIn[1], realIn[0] - realIn[1]], Zeros(2));
      assert y.im == TwoArm(realIn, Zeros(2)).im;
      return;
    }
    if N == 1 {
      OneIsTransform(Signal(realIn, Zeros(1)), sin, Forward);
      return Signal([realIn[0]], Zeros(1));
    }
    BelowEight(N);
    y := FftNoImagRecursive(tables, sin, realIn);
  }

  /** `_fftNoImagInner`: the forward transform of a real input, N >= 8. The halves of a real
      input are real, so the recursion stays in this worker. */
  method FftNoImagRecursive(tables: TableStore, sin: SinFn, realIn: seq<real>) returns (y: Signal)
    requires tables.Valid() && IsPow2(|realIn|) && |realIn| >= 8
    ensures y == Transform(Signal(realIn, Zeros(|realIn|)), sin, Forward)
    decreases |realIn|
  {
    var N := |realIn|;
    if N == 8 {
      FftNoImagEightIsTransform(realIn, sin);
      return FftNoImagEightArm(realIn);
    }
    AboveEight(N);
    var x := Signal(realIn, Zeros(N));
    TransformStep(x, sin, Forward);
    ZerosSplit(N);
    var evens := FftNoImagRecursive(tables, sin, Evens(realIn));
    var odds := FftNoImagRecursive(tables, sin, Odds(realIn));
    y := Butterflies(tables, sin, evens, odds, Forward);
  }

  /** `_fft`: the complex forward transform, N >= 8. */
  method FftRecursive(tables: TableStore, sin: SinFn, realIn: seq<real>, imagIn: seq<real>)
    returns (y: Signal)
    requires tables.Valid() && |realIn| == |imagIn| && IsPow2(|realIn|) && |realIn| >= 8
    ensures y == Transform(Signal(realIn, imagIn), sin, Forward)
    decreases |realIn|
  {
    var N := |realIn|;
    var x := Signal(realIn, imagIn);
    if N == 8 {
      FftEightIsTransform(x, sin);
      return FftEightArm(realIn, imagIn);
    }
    AboveEight(N);
    TransformStep(x, sin, Forward);
    var evens := FftRecursive(tables, sin, Evens(realIn), Evens(imagIn));
    var odds := FftRecursive(tables, sin, Odds(realIn), Odds(imagIn));
    y := Butterflies(tables, sin, evens, odds, Forward);
  }

  /** `_ifft`: the complex inverse transform, N >= 8. */
  method IfftRecursive(tables: TableStore, sin: SinFn, realIn: seq<real>, imagIn: seq<real>)
    returns (y: Signal)
    requires tables.Valid() && |realIn| == |imagIn| && IsPow2(|realIn|) && |realIn| >= 8
    ensures y == Transform(Signal(realIn, imagIn), sin, Inverse)
    decreases |realIn|
  {
    var N := |realIn|;
    var x := Signal(realIn, imagIn);
    if N == 8 {
      IfftEightIsTransform(x, sin);
      return IfftEightArm(realIn, imagIn);
    }
    AboveEight(N);
    TransformStep(x, sin, Inverse);
    var evens := IfftRecursive(tables, sin, Evens(realIn), Evens(imagIn));
    var odds := IfftRecursive(tables, sin, Odds(realIn), Odds(imagIn));
    y := Butterflies(tables, sin, evens, odds, Inverse);
  }

  /** `_ifftReal`: the real part of the inverse transform, N >= 8. Only the even half needs
      just its real part; the odd half is rotated, so it goes through the full `_ifft`. */
  method IfftRealRecursive(tables: TableStore, sin: SinFn, realIn: seq<real>, imagIn: seq<real>)
    returns (realOut: seq<real>)
    requires tables.Valid() && |realIn| == |imagIn| && IsPow2(|realIn|) && |realIn| >= 8
    ensures realOut == Transform(Signal(realIn, imagIn), sin, Inverse).re
    decreases |realIn|
  {
    var N := |realIn|;
    var x := Signal(realIn, imagIn);
    if N == 8 {
      IfftRealEightIsTransform(x, sin);
      return IfftRealEightArm(realIn, imagIn);
    }
    AboveEight(N);
    TransformStep(x, sin, Inverse);
    var realEvens := IfftRealRecursive(tables, sin, Evens(realIn), Evens(imagIn));
    var odds := IfftRecursive(tables, sin, Odds(realIn), Odds(imagIn));
    realOut := RealButterflies(tables, sin, realEvens, odds);
  }

  // ---------------------------------------------------------------------------------
  // The butterfly loops shared by `_fft`, `_fftNoImagInner` and `_ifft`, and the real-only
  // one of `_ifftReal`.
  // ---------------------------------------------------------------------------------

  /** Merges the transforms of the even and odd halves: outputs 0 and M directly, then
      `getTables(M)` and one butterfly per k in 1..M-1. */
  method Butterflies(tables: TableStore, sin: SinFn, evens: Signal, odds: Signal, dir: Direction)
    returns (y: Signal)
    requires tables.Valid()
    requires evens.Valid() && odds.Valid() && |evens.re| == |odds.re| >= 2 && IsPow2(|odds.re|)
    ensures y == Combine(evens, odds, sin, dir)
  {
    var M := |evens.re|;
    var realOut := new real[2 * M];
    var imagOut := new real[2 * M];
    Butterfly(realOut, 0, M, evens.re[0], odds.re[0]);
    Butterfly(imagOut, 0, M, evens.im[0], odds.im[0]);

    var cosines, sines := tables.GetTables(M, sin);
    TablesFilled(cosines[..], sines[..], M, sin);
    ButterflyLoop(realOut, imagOut, evens, odds, cosines[..], sines[..], dir);
    y := Signal(realOut[..], imagOut[..]);
    RealHalfMeetsCombine(evens.re, odds, sin, dir, cosines[..], sines[..], y.re);
    ImagHalfMeetsCombine(evens.im, odds, sin, dir, cosines[..], sines[..], y.im);
  }

  /** The real half of the inverse butterflies, from the real part of the even half and the
      whole odd half: `realQ = realOdds[k] * cosines[k] - imagOdds[k] * sines[k]`. */
  method RealButterflies(tables: TableStore, sin: SinFn, realEvens: seq<real>, odds: Signal)
    returns (realOut: seq<real>)
    requires tables.Valid()
    requires odds.Valid() && |realEvens| == |odds.re| >= 2 && IsPow2(|odds.re|)
    ensures realOut == CombineRe(realEvens, odds, sin, Inverse)
  {
    var M := |realEvens|;
    var out := new real[2 * M];
    Butterfly(out, 0, M, realEvens[0], odds.re[0]);

    var cosines, sines := tables.GetTables(M, sin);
    TablesFilled(cosines[..], sines[..], M, sin);
    RealButterflyLoop(out, realEvens, odds, cosines[..], sines[..]);
    realOut := out[..];
    RealButterfliesMeetCombine(realEvens, odds, sin, cosines[..], sines[..], realOut);
  }

  /** The loop `for (let k = 1; k < M; ++k)` of the butterflies: entries k and k + M of both
      outputs for every k in 1..M-1, and nothing else. */
  method ButterflyLoop(realOut: array<real>, imagOut: array<real>, evens: Signal, odds: Signal,
                       cosines: seq<Slot>, sines: seq<Slot>, dir: Direction)
    requires realOut != imagOut && evens.Valid() && odds.Valid()
    requires |evens.re| == |odds.re| == |cosines| == |sines| >= 1
    requires realOut.Length == imagOut.Length == 2 * |odds.re|
    requires forall j :: 1 <= j < |odds.re| ==> cosines[j].Num? && sines[j].Num?
    modifies realOut, imagOut
    ensures var M := |odds.re|;
      realOut[0] == old(realOut[0]) && realOut[M] == old(realOut[M]) &&
      imagOut[0] == old(imagOut[0]) && imagOut[M] == old(imagOut[M])
    ensures forall j {:trigger RealQ(odds, j, cosines[j].value, Rotate(sines[j].value, dir))} :: 1 <= j < |odds.re| ==>
      realOut[j] == evens.re[j] + RealQ(odds, j, cosines[j].value, Rotate(sines[j].value, dir)) &&
      realOut[j + |odds.re|] == evens.re[j] - RealQ(odds, j, cosines[j].value, Rotate(sines[j].value, dir))
    ensures forall j {:trigger ImagQ(odds, j, cosines[j].value, Rotate(sines[j].value, dir))} :: 1 <= j < |odds.re| ==>
      imagOut[j] == evens.im[j] + ImagQ(odds, j, cosines[j].value, Rotate(sines[j].value, dir)) &&
      imagOut[j + |odds.re|] == evens.im[j] - ImagQ(odds, j, cosines[j].value, Rotate(sines[j].value, dir))
  {
    var M := |odds.re|;
    for k := 1 to M
      invariant realOut[0] == old(realOut[0]) && realOut[M] == old(realOut[M])
      invariant imagOut[0] == old(imagOut[0]) && imagOut[M] == old(imagOut[M])
      invariant forall j {:trigger RealQ(odds, j, cosines[j].value, Rotate(sines[j].value, dir))} :: 1 <= j < k ==>
        realOut[j] == evens.re[j] + RealQ(odds, j, cosines[j].value, Rotate(sines[j].value, dir)) &&
        realOut[j + M] == evens.re[j] - RealQ(odds, j, cosines[j].value, Rotate(sines[j].value, dir))
      invariant forall j {:trigger ImagQ(odds, j, cosines[j].value, Rotate(sines[j].value, dir))} :: 1 <= j < k ==>
        imagOut[j] == evens.im[j] + ImagQ(odds, j, cosines[j].value, Rotate(sines[j].value, dir)) &&
        imagOut[j + M] == evens.im[j] - ImagQ(odds, j, cosines[j].value, Rotate(sines[j].value, dir))
    {
      var realZ := cosines[k].value;
      var imagZ := Rotate(sines[k].value, dir);
      var realQ := RealQ(odds, k, realZ, imagZ);
      var imagQ := ImagQ(odds, k, realZ, imagZ);
      Butterfly(realOut, k, M, evens.re[k], realQ);
      Butterfly(imagOut, k, M, evens.im[k], imagQ);
    }
  }

  /** One butterfly on one output: `out[k] = even + q` and `out[k + M] = even - q`. */
  method Butterfly(out: array<real>, k: int, M: int, even: real, q: real)
    requires 0 <= k < M && out.Length == 2 * M
    modifies out
    ensures out[k] == even + q && out[k + M] == even - q
    ensures forall i :: 0 <= i < out.Length && i != k && i != k + M ==> out[i] == old(out[i])
  {
    out[k] := even + q;
    out[k + M] := even - q;
  }

  /** The loop of `_ifftReal`: entries k and k + M of the real output for every k in 1..M-1. */
  method RealButterflyLoop(out: array<real>, realEvens: seq<real>, odds: Signal,
                           cosines: seq<Slot>, sines: seq<Slot>)
    requires odds.Valid() && |realEvens| == |odds.re| == |cosines| == |sines| >= 1
    requires out.Length == 2 * |odds.re|
    requires forall j :: 1 <= j < |odds.re| ==> cosines[j].Num? && sines[j].Num?
    modifies out
    ensures out[0] == old(out[0]) && out[|odds.re|] == old(out[|odds.re|])
    ensures forall j {:trigger RealQ(odds, j, cosines[j].value, sines[j].value)} :: 1 <= j < |odds.re| ==>
      out[j] == realEvens[j] + RealQ(odds, j, cosines[j].value, sines[j].value) &&
      out[j + |odds.re|] == realEvens[j] - RealQ(odds, j, cosines[j].value, sines[j].value)
  {
    var M := |odds.re|;
    for k := 1 to M
      invariant out[0] == old(out[0]) && out[M] == old(out[M])
      invariant forall j {:trigger RealQ(odds, j, cosines[j].value, sines[j].value)} :: 1 <= j < k ==>
        out[j] == realEvens[j] + RealQ(odds, j, cosines[j].value, sines[j].value) &&
        out[j + M] == realEvens[j] - RealQ(odds, j, cosines[j].value, sines[j].value)
    {
      var realQ := RealQ(odds, k, cosines[k].value, sines[k].value);
      Butterfly(out, k, M, realEvens[k], realQ);
    }
  }

  /** Outputs 0 and M from the first entries of the halves and the butterflies for k in
      1..M-1, with the twiddle factors read from the tables, are the real half of the merge
      `Combine`. */
  lemma {:induction false} RealHalfMeetsCombine(eRe: seq<real>, o: Signal, sin: SinFn, dir: Direction,
                                                cosines: seq<Slot>, sines: seq<Slot>, yRe: seq<real>)
    requires o.Valid() && |eRe| == |o.re| >= 2 && IsPow2(|o.re|)
    requires TwiddleTables(cosines, sines, |o.re|, sin)
    requires |yRe| == 2 * |o.re|
    requires yRe[0] == eRe[0] + o.re[0] && yRe[|o.re|] == eRe[0] - o.re[0]
    requires forall j {:trigger RealQ(o, j, cosines[j].value, Rotate(sines[j].value, dir))} ::
      1 <= j < |o.re| && cosines[j].Num? && sines[j].Num? ==>
      yRe[j] == eRe[j] + RealQ(o, j, cosines[j].value, Rotate(sines[j].value, dir)) &&
      yRe[j + |o.re|] == eRe[j] - RealQ(o, j, cosines[j].value, Rotate(sines[j].value, dir))
    ensures yRe == CombineRe(eRe, o, sin, dir)
  {
    forall j | 0 <= j < 2 * |o.re|
      ensures yRe[j] == CombineRe(eRe, o, sin, dir)[j]
    {
      RealHalfEntry(eRe, o, sin, dir, cosines, sines, yRe, j);
    }
  }

  /** Entry j of the real output is entry j of the real half of the merge. */
  lemma {:induction false} RealHalfEntry(eRe: seq<real>, o: Signal, sin: SinFn, dir: Direction,
                                         cosines: seq<Slot>, sines: seq<Slot>, yRe: seq<real>, j: int)
    requires o.Valid() && |eRe| == |o.re| >= 2 && IsPow2(|o.re|)
    requires TwiddleTables(cosines, sines, |o.re|, sin)
    requires |yRe| == 2 * |o.re| && 0 <= j < 2 * |o.re|
    requires yRe[0] == eRe[0] + o.re[0] && yRe[|o.re|] == eRe[0] - o.re[0]
    requires forall j {:trigger RealQ(o, j, cosines[j].value, Rotate(sines[j].value, dir))} ::
      1 <= j < |o.re| && cosines[j].Num? && sines[j].Num? ==>
      yRe[j] == eRe[j] + RealQ(o, j, cosines[j].value, Rotate(sines[j].value, dir)) &&
      yRe[j + |o.re|] == eRe[j] - RealQ(o, j, cosines[j].value, Rotate(sines[j].value, dir))
    ensures yRe[j] == CombineRe(eRe, o, sin, dir)[j]
  {
    var M := |o.re|;
    var k := if j < M then j else j - M;
    if k > 0 {
      TwiddleAt(cosines, sines, M, k, sin, dir);
      RealHalfAt(eRe, o, sin, dir, yRe, k, cosines[k].value, Rotate(sines[k].value, dir));
    }
  }

  /** The same for the imaginary half. */
  lemma {:induction false} ImagHalfMeetsCombine(eIm: seq<real>, o: Signal, sin: SinFn, dir: Direction,
                                                cosines: seq<Slot>, sines: seq<Slot>, yIm: seq<real>)
    requires o.Valid() && |eIm| == |o.re| >= 2 && IsPow2(|o.re|)
    requires TwiddleTables(cosines, sines, |o.re|, sin)
    requires |yIm| == 2 * |o.re|
    requires yIm[0] == eIm[0] + o.im[0] && yIm[|o.re|] == eIm[0] - o.im[0]
    requires forall j {:trigger ImagQ(o, j, cosines[j].value, Rotate(sines[j].value, dir))} ::
      1 <= j < |o.re| && cosines[j].Num? && sines[j].Num? ==>
      yIm[j] == eIm[j] + ImagQ(o, j, cosines[j].value, Rotate(sines[j].value, dir)) &&
      yIm[j + |o.re|] == eIm[j] - ImagQ(o, j, cosines[j].value, Rotate(sines[j].value, dir))
    ensures yIm == CombineIm(eIm, o, sin, dir)
  {
    forall j | 0 <= j < 2 * |o.re|
      ensures yIm[j] == CombineIm(eIm, o, sin, dir)[j]
    {
      ImagHalfEntry(eIm, o, sin, dir, cosines, sines, yIm, j);
    }
  }

  /** Entry j of the imaginary output is entry j of the imaginary half of the merge. */
  lemma {:induction false} ImagHalfEntry(eIm: seq<real>, o: Signal, sin: SinFn, dir: Direction,
                                         cosines: seq<Slot>, sines: seq<Slot>, yIm: seq<real>, j: int)
    requires o.Valid() && |eIm| == |o.re| >= 2 && IsPow2(|o.re|)
    requires TwiddleTables(cosines, sines, |o.re|, sin)
    requires |yIm| == 2 * |o.re| && 0 <= j < 2 * |o.re|
    requires yIm[0] == eIm[0] + o.im[0] && yIm[|o.re|] == eIm[0] - o.im[0]
    requires forall j {:trigger ImagQ(o, j, cosines[j].value, Rotate(sines[j].value, dir))} ::
      1 <= j < |o.re| && cosines[j].Num? && sines[j].Num? ==>
      yIm[j] == eIm[j] + ImagQ(o, j, cosines[j].value, Rotate(sines[j].value, dir)) &&
      yIm[j + |o.re|] == eIm[j] - ImagQ(o, j, cosines[j].value, Rotate(sines[j].value, dir))
    ensures yIm[j] == CombineIm(eIm, o, sin, dir)[j]
  {
    var M := |o.re|;
    var k := if j < M then j else j - M;
    if k > 0 {
      TwiddleAt(cosines, sines, M, k, sin, dir);
      ImagHalfAt(eIm, o, sin, dir, yIm, k, cosines[k].value, Rotate(sines[k].value, dir));
    }
  }

  /** Butterfly k of the real half, with the twiddle factor of the recursion. */
  lemma {:induction false} RealHalfAt(eRe: seq<real>, o: Signal, sin: SinFn, dir: Direction, yRe: seq<real>,
                                      k: int, realZ: real, imagZ: real)
    requires o.Valid() && |eRe| == |o.re| && IsPow2(|o.re|) && 1 <= k < |o.re| && |yRe| == 2 * |o.re|
    requires realZ == ZRe(|o.re|, k, sin) && imagZ == ZIm(|o.re|, k, sin, dir)
    requires yRe[k] == eRe[k] + RealQ(o, k, realZ, imagZ)
    requires yRe[k + |o.re|] == eRe[k] - RealQ(o, k, realZ, imagZ)
    ensures yRe[k] == CombineRe(eRe, o, sin, dir)[k]
    ensures yRe[k + |o.re|] == CombineRe(eRe, o, sin, dir)[k + |o.re|]
  {
    RotationAt(o, sin, dir, k, realZ, imagZ);
  }

  /** Butterfly k of the imaginary half. */
  lemma {:induction false} ImagHalfAt(eIm: seq<real>, o: Signal, sin: SinFn, dir: Direction, yIm: seq<real>,
                                      k: int, realZ: real, imagZ: real)
    requires o.Valid() && |eIm| == |o.re| && IsPow2(|o.re|) && 1 <= k < |o.re| && |yIm| == 2 * |o.re|
    requires realZ == ZRe(|o.re|, k, sin) && imagZ == ZIm(|o.re|, k, sin, dir)
    requires yIm[k] == eIm[k] + ImagQ(o, k, realZ, imagZ)
    requires yIm[k + |o.re|] == eIm[k] - ImagQ(o, k, realZ, imagZ)
    ensures yIm[k] == CombineIm(eIm, o, sin, dir)[k]
    ensures yIm[k + |o.re|] == CombineIm(eIm, o, sin, dir)[k + |o.re|]
  {
    RotationAt(o, sin, dir, k, realZ, imagZ);
  }

  /** The real-only inverse butterflies of `_ifftReal`, with `imagZ = sines[k]`, are the real
      half of the inverse merge. */
  lemma {:induction false} RealButterfliesMeetCombine(realEvens: seq<real>, o: Signal, sin: SinFn,
                                                      cosines: seq<Slot>, sines: seq<Slot>, y: seq<real>)
    requires o.Valid() && |realEvens| == |o.re| >= 2 && IsPow2(|o.re|)
    requires TwiddleTables(cosines, sines, |o.re|, sin)
    requires |y| == 2 * |o.re|
    requires y[0] == realEvens[0] + o.re[0] && y[|o.re|] == realEvens[0] - o.re[0]
    requires forall j {:trigger RealQ(o, j, cosines[j].value, sines[j].value)} ::
      1 <= j < |o.re| && cosines[j].Num? && sines[j].Num? ==>
      y[j] == realEvens[j] + RealQ(o, j, cosines[j].value, sines[j].value) &&
      y[j + |o.re|] == realEvens[j] - RealQ(o, j, cosines[j].value, sines[j].value)
    ensures y == CombineRe(realEvens, o, sin, Inverse)
  {
    var M, c := |o.re|, CombineRe(realEvens, o, sin, Inverse);
    forall j | 0 <= j < 2 * M
      ensures y[j] == c[j]
    {
      var k := if j < M then j else j - M;
      if k > 0 {
        TwiddleAt(cosines, sines, M, k, sin, Inverse);
        RotationAt(o, sin, Inverse, k, cosines[k].value, sines[k].value);
      }
    }
  }

  /** The real part of the twiddled odd output `z * odds[k]`. */
  function RealQ(o: Signal, k: int, realZ: real, imagZ: real): real
    requires o.Valid() && 0 <= k < |o.re|
  {
    o.re[k] * realZ - o.im[k] * imagZ
  }

  /** The imaginary part of the twiddled odd output `z * odds[k]`. */
  function ImagQ(o: Signal, k: int, realZ: real, imagZ: real): real
    requires o.Valid() && 0 <= k < |o.re|
  {
    o.re[k] * imagZ + o.im[k] * realZ
  }

  /** The imaginary part of the twiddle factor from the sine table: negated going forward. */
  function Rotate(sine: real, dir: Direction): real
  {
    if dir == Forward then -sine else sine
  }

  /** Entries 1..M-1 of the tables hold cos(k*pi/M) and sin(k*pi/M) as the recursion uses them. */
  predicate TwiddleTables(cosines: seq<Slot>, sines: seq<Slot>, M: int, sin: SinFn)
    requires M >= 2 && IsPow2(M)
  {
    |cosines| == M && |sines| == M &&
    forall k :: 1 <= k < M ==> cosines[k] == Num(ZRe(M, k, sin)) && sines[k] == Num(SinValue(M, k, sin))
  }

  /** Every entry but the first of the tables `getTables(M)` returns holds a number: the
      twiddle factor's parts. */
  lemma {:induction false} TablesFilled(cosines: seq<Slot>, sines: seq<Slot>, M: int, sin: SinFn)
    requires M >= 2 && IsPow2(M)
    requires cosines == CosTable(M, sin) && sines == SinTable(M, sin)
    ensures |cosines| == |sines| == M
    ensures forall k :: 1 <= k < M ==> cosines[k].Num? && sines[k].Num?
    ensures TwiddleTables(cosines, sines, M, sin)
  {
  }

  /** Entry k of the tables holds the twiddle factor's parts, the sine negated going forward. */
  lemma {:induction false} TwiddleAt(cosines: seq<Slot>, sines: seq<Slot>, M: int, k: int, sin: SinFn, dir: Direction)
    requires M >= 2 && IsPow2(M) && 1 <= k < M
    requires TwiddleTables(cosines, sines, M, sin)
    ensures cosines[k].Num? && sines[k].Num?
    ensures cosines[k].value == ZRe(M, k, sin) && Rotate(sines[k].value, dir) == ZIm(M, k, sin, dir)
  {
  }

  /** The rotated odd coefficient Q at k > 0 is the product of odds[k] and the twiddle factor. */
  lemma {:induction false} RotationAt(o: Signal, sin: SinFn, dir: Direction, k: int, realZ: real, imagZ: real)
    requires o.Valid() && IsPow2(|o.re|) && 1 <= k < |o.re|
    requires realZ == ZRe(|o.re|, k, sin) && imagZ == ZIm(|o.re|, k, sin, dir)
    ensures QRe(o, k, sin, dir) == RealQ(o, k, realZ, imagZ)
    ensures QIm(o, k, sin, dir) == ImagQ(o, k, realZ, imagZ)
  {
  }

  /** The powers of two below 8 are the lengths of the unrolled arms. */
  lemma {:induction false} BelowEight(N: int)
    requires IsPow2(N) && N != 1 && N != 2 && N != 4
    ensures N >= 8
  {
  }

  /** A power of two above 8 is at least 16. */
  lemma {:induction false} AboveEight(N: int)
    requires IsPow2(N) && N > 8
    ensures N >= 16 && N % 2 == 0 && IsPow2(N / 2) && N / 2 >= 8
  {
    assert Pow2(3) == 8 && Pow2(4) == 16;
    PowersAreSpaced(N, 3);
  }
}
