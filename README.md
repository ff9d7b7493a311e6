# frost-fft in Dafny

A model of `src/index.ts` of frost-fft, a radix-2 fast Fourier transform for JavaScript.
The library exports four functions:

- `fft(realIn, imagIn?)`: the unnormalised forward transform.
- `ifft(realIn, imagIn)`: the unnormalised inverse transform.
- `ifftReal(realIn, imagIn)`: only the real part of the inverse transform.
- `ceilPow2(x)`: the smallest power of two not below `x`.

Each transform validates its input lengths. Lengths 1, 2 and 4 are handled by hand-unrolled
arms. Longer inputs go to a recursive worker: `_fft`, `_fftNoImagInner`, `_ifft` or
`_ifftReal`. A missing imaginary part sends `fft` to `_fftNoImag`, which has its own arms for
1, 2 and 4 and delegates longer inputs to `_fftNoImagInner`. A worker splits its input into even- and odd-indexed samples,
transforms both halves, and merges them with one butterfly per index. It stops at an unrolled
eight-point arm. The twiddle factors come from cosine and sine tables built by `getTables`.
A module-wide store seeds those tables for half-length 2, and `_resetTables` resets the store.

The model has five modules:

- `PowerOfTwo` (`power_of_two.dfy`) writes out `ceilPow2` over the 32-bit semantics of
  `Math.clz32` and `<<`, with explicit wrap-around. It proves which lengths the transforms
  accept.
- `Twiddle` (`twiddle.dfy`) models the tables. The store is the class `TableStore`, with maps
  of arrays as fields. `getTables` and its two loops are methods over arrays. They are proved
  to produce the reference tables `CosTable`/`SinTable`. At k = 1..M-1, table `M` holds the
  values the source derives from table M/2 and from calls of `Math.sin(i·π/M)`; these stand
  for cos(k·π/M) and sin(k·π/M). Index 0 stays undefined, as in the source.
- `Radix2` (`radix2.dfy`) holds the reference recursion `Transform`: split, transform both
  halves, combine. The closed forms of its two-, four- and eight-point cases are proved here,
  as is the identity relating inverse to forward.
- `Arms` (`arms.dfy`) holds the hand-unrolled arms. Each is proved equal to `Transform`.
- `Fft` (`fft.dfy`) holds the public functions and the recursive workers. The butterfly loops
  write into arrays, as the source's `Float64Array` outputs do. Every entry point is proved to
  return the reference transform, or the error the source throws.

Numbers are exact reals rather than IEEE doubles. `Math.sin(i * (Math.PI / M))` is an
uninterpreted parameter `sin(i, M)`. Its one known value is `sin(1, 4) = 0.7071067811865475`,
the literal that the eight-point arms hard-code. Every result is therefore stated relative to
whatever `Math.sin` returns, which is exactly what the code computes from it.

## Model

| member | source | states |
|---|---|---|
| PowerOfTwo.CeilPow2IsLeastPow2 | src/index.ts:40-47 | for 1 <= x <= 2^30, `ceilPow2(x)` is a power of two, is at least x, and is at most every power of two not below x |
| PowerOfTwo.CeilPow2OfPow2 | src/index.ts:45-47 | every power of two up to 2^30 is its own `ceilPow2` |
| PowerOfTwo.CeilPow2OfZero | src/index.ts:45-47 | `ceilPow2(0)` is 1, because x - 1 wraps to 2^32 - 1 and the shift count 32 wraps to 0 |
| PowerOfTwo.CeilPow2 | src/index.ts:45-47 | definition, no contract: `1 << (32 - Math.clz32(x - 1))` over the 32-bit `Math.clz32` and `<<`; its values are stated by `CeilPow2IsLeastPow2`, `CeilPow2OfZero` and `CeilPow2AtMostMax` |
| PowerOfTwo.CeilPow2AtMostMax | src/index.ts:45-47 | for every integer input, `ceilPow2(x)` is at most 2^30, so no input makes the length test accept a length above 2^30 |
| PowerOfTwo.Clz32 | src/index.ts:46 | `Math.clz32(v)` lies in 0..32 |
| PowerOfTwo.Clz32Bits | src/index.ts:46 | `Math.clz32(v)` is 32 exactly when the 32-bit view of v is 0, and otherwise puts the highest set bit of that view at position 31 - z |
| PowerOfTwo.ShiftLeft32 | src/index.ts:46 | definition, no contract: `a << count` as an int32 with the count masked to five bits; its values for `1 << s` are stated by `ShiftOfOne` |
| PowerOfTwo.ShiftOfOne | src/index.ts:46 | `1 << s` is 2^s, a power of two no larger than 2^30, for a masked count s up to 30, and -2^31 for s = 31 |
| PowerOfTwo.AcceptedLength | src/index.ts:59-62 | the test `N !== ceilPow2(N)` passes exactly for powers of two up to 2^30; in particular it rejects 0 |
| PowerOfTwo.Log2 | src/index.ts:45-47 | every power of two is 2 raised to its exponent |
| PowerOfTwo.BitLength | src/index.ts:46 | `32 - Math.clz32(u)` is the exponent of the least power of two above u |
| PowerOfTwo.ToUint32 | src/index.ts:46 | ToUint32 lands in [0, 2^32), is the identity there, and maps -1 to 2^32 - 1 |
| PowerOfTwo.ToInt32 | src/index.ts:46 | ToInt32 lands in [-2^31, 2^31), is the identity there, and maps 2^31 to -2^31 |
| Twiddle.TableStore.constructor | src/index.ts:1-5 | the module initialisation leaves the store holding exactly the seeded tables `[NaN, 0]` and `[NaN, 1]` under key 2 |
| Twiddle.TableStore.Reset | src/index.ts:10-15 | `_resetTables` brings the store back to exactly that state, with new arrays |
| Twiddle.TableStore.GetTables | src/index.ts:17-38 | `getTables(M)` returns the tables for M. For M = 2 they are the stored seed arrays; for any other M they are new arrays that the store does not keep |
| Twiddle.DoubleTables | src/index.ts:23-37 | new arrays of length M, filled by the two loops from the tables for M/2, are the tables for M |
| Twiddle.CopyEvens | src/index.ts:28-31 | the first loop writes exactly the even slots 2..M-2 of both tables in one pass, copying entry i of each half table to slot 2i |
| Twiddle.FillOdds | src/index.ts:32-36 | the second loop writes exactly the odd cosine and sine slots, each with its final table entry |
| Twiddle.SetPair | src/index.ts:34-35 | one table's share of a step of the second loop: it writes two slots of one array (sines i and M - i, or cosines L - i and L + i) and keeps every other slot; each step calls it once per table |
| Twiddle.CosTable | src/index.ts:17-38 | the cosine table `getTables(M)` returns has length M; index 0 is the seed's NaN for M = 2 and undefined beyond; every other index holds a number |
| Twiddle.SinTable | src/index.ts:17-38 | the same for the sine table |
| Twiddle.CosValue | src/index.ts:26-36 | definition, no contract: entry k is the seed's 0 for M = 2, entry k/2 of table M/2 at even k, `Math.sin((M/2 - k)·π/M)` at odd k below M/2, and the negation of `Math.sin((k - M/2)·π/M)` at odd k above; its symmetries are stated by `Twiddle.QuarterWaveSymmetry` |
| Twiddle.SinValue | src/index.ts:26-36 | definition, no contract: the seed's 1 for M = 2, entry k/2 of table M/2 at even k, `Math.sin(k·π/M)` at odd k below M/2 and `Math.sin((M - k)·π/M)` above |
| Twiddle.SeedTables | src/index.ts:4-5 | the seeded arrays are the reference tables for M = 2 |
| Twiddle.QuarterTurn | src/index.ts:4-5 | every table holds cos = 0 and sin = 1 at its midpoint M/2, inherited from the seed through the even copies |
| Twiddle.QuarterWaveSymmetry | src/index.ts:33-36 | at every 1 <= i < M/2, sin(i) = sin(M - i) = cos(M/2 - i) and cos(M/2 + i) = -cos(M/2 - i); at odd i the common value is `Math.sin(i*pi/M)` |
| Twiddle.OddSymmetry | src/index.ts:33-36 | at odd i, the four slots one step of the second loop writes hold the single value `Math.sin(i*pi/M)`, the last one negated |
| Twiddle.EvenEntries | src/index.ts:28-31 | entry 2i of table M equals entry i of table M/2, for both tables |
| Twiddle.AllOddEntries | src/index.ts:33-36 | at each odd i, table M holds at the four written slots what that loop step writes |
| Twiddle.EvenStep | src/index.ts:29-30 | one step of the first loop adds slot 2i to the written slots |
| Twiddle.OddStepFills | src/index.ts:33-36 | one step of the second loop adds slots L-i and L+i of the cosines, and slots i and M-i of the sines, to the written slots |
| Twiddle.EvensThenOdds | src/index.ts:28-33 | when the first loop ends, the tables are in the state where the second loop starts |
| Twiddle.AllWritten | src/index.ts:33-37 | when the second loop ends, every slot but 0 is written and slot 0 is a hole: the tables are complete |
| Twiddle.NothingWritten | src/index.ts:23-24 | a table grown with `length = M` holds no entries yet |
| Radix2.Evens | src/index.ts:153 | `filter((_, k) => !(k & 1))` keeps ceil(n/2) samples, and entry j is sample 2j |
| Radix2.Odds | src/index.ts:157 | `filter((_, k) => k & 1)` keeps floor(n/2) samples, and entry j is sample 2j+1 |
| Radix2.SplitRoundTrip | src/index.ts:152-159 | the split loses nothing: interleaving the even and odd parts gives back the input |
| Radix2.SplitSum | src/index.ts:152-159 | the two parts together hold every sample once, so their sums add up to the input's sum |
| Radix2.ZerosSplit | src/index.ts:252-255 | both parts of an all-zero imaginary part are zero, so a real input stays real through the recursion |
| Radix2.SplitHalves | src/index.ts:152-161 | a power-of-two length N >= 2 splits into two halves of length M = N/2, again a power of two |
| Radix2.CombineAt | src/index.ts:163-179 | the merge writes outputs k and k + M as the even output plus and minus the rotated odd output |
| Radix2.ZRe | src/index.ts:170 | `realZ = cosines[k]`; at the midpoint k = M/2 it is 0 |
| Radix2.ZIm | src/index.ts:171 | `imagZ = -sines[k]` forward and `sines[k]` inverse; at the midpoint it is -1 forward and +1 inverse |
| Radix2.QRe | src/index.ts:172 | definition, no contract: the real part of `odds[k]` times the twiddle, with no rotation at k = 0; `Fft.RotationAt` ties it to `realQ` |
| Radix2.QIm | src/index.ts:173 | definition, no contract: the imaginary part of that product |
| Radix2.CombineRe | src/index.ts:163-179 | the real outputs of the merge of two halves of length M: 2M entries, given entry by entry by `Radix2.CombineAt` |
| Radix2.CombineIm | src/index.ts:165-178 | the same for the imaginary outputs |
| Radix2.Combine | src/index.ts:161-181 | the merge of two halves of length M is a valid signal of length 2M |
| Radix2.Transform | src/index.ts:101-182 | the radix-2 recursion keeps the length of its input |
| Radix2.TransformStep | src/index.ts:152-179 | one level of the recursion: the merge of the transforms of the two halves |
| Radix2.TwoPoint | src/index.ts:86-92 | the two-point transform is one butterfly, the same in both directions |
| Radix2.RotationTwo | src/index.ts:4-5 | the seeded table rotates by -i going forward and by +i going backward |
| Radix2.FourPoint | src/index.ts:74-84 | the four-point transform in closed form, both directions |
| Radix2.TableFour | src/index.ts:122-123 | the table for M = 4 is cos = sin = 0.7071067811865475 at 1, (0, 1) at 2, and (-0.7071067811865475, 0.7071067811865475) at 3 |
| Radix2.RotationsFour | src/index.ts:118-147 | the rotations of the last stage of an eight-point transform, as sums and differences scaled by 0.7071067811865475 |
| Radix2.EightPoint | src/index.ts:108-150 | the eight-point transform is one butterfly stage, in that closed form, over the four-point transforms of the two halves |
| Radix2.CombineFour | src/index.ts:108-150 | one butterfly stage over any two four-point halves equals the closed form the `N === 8` arms spell out |
| Radix2.ConjRotation | src/index.ts:397-400 | the `+sines[k]` rotation of `_ifft` is the conjugate of the `-sines[k]` rotation of `_fft` applied to the conjugate |
| Radix2.ConjCombine | src/index.ts:389-406 | the merge of `_ifft` is the conjugate of the merge of `_fft` applied to conjugated halves |
| Radix2.ConjSplits | src/index.ts:378-385 | the even/odd split commutes with conjugation |
| Radix2.InverseIsConjugatedForward | src/index.ts:328-409 | the inverse transform of x is the conjugate of the forward transform of the conjugate of x |
| Radix2.ZeroFrequencyIsSum | src/index.ts:163-166 | output 0 is never rotated: in both directions it is the plain sum of the input |
| Arms.OneArm | src/index.ts:93-97 | the `N === 1` arms return their input |
| Arms.TwoArm | src/index.ts:86-92 | the `N === 2` arms hold two outputs whose sum and difference are twice the inputs: the butterfly undoes itself up to the factor 2 |
| Arms.FftFourArm | src/index.ts:74-84 | the `fft` arm has four outputs, and output 0 is the sum of the input; the other values are fixed by `Arms.FftFourIsTransform` |
| Arms.IfftFourArm | src/index.ts:301-311 | the same for the `ifft` arm |
| Arms.FftNoImagFourArm | src/index.ts:188-197 | output 0 is the sum of the input; imaginary outputs 0 and 2 keep their zero; outputs 1 and 3 are conjugates |
| Arms.IfftRealFourArm | src/index.ts:431-437 | four real outputs, output 0 the sum of the real input |
| Arms.FftEightArm | src/index.ts:108-150 | the `_fft` arm has eight outputs, and output 0 is the sum of the input |
| Arms.IfftEightArm | src/index.ts:335-376 | the same for the `_ifft` arm |
| Arms.FftNoImagEightArm | src/index.ts:214-249 | output 0 is the sum of the input; imaginary outputs 0 and 4 keep their zero |
| Arms.IfftRealEightArm | src/index.ts:454-479 | eight real outputs, output 0 the sum of the real input |
| Arms.OneIsTransform | src/index.ts:93-97 | the `N === 1` arms copy the input, which is the transform of length 1 |
| Arms.TwoIsTransform | src/index.ts:86-92 | the `N === 2` arms are the transform of length 2 |
| Arms.FftFourIsTransform | src/index.ts:74-84 | the `N === 4` arm of `fft` is the forward transform |
| Arms.IfftFourIsTransform | src/index.ts:301-311 | the `N === 4` arm of `ifft` is the inverse transform |
| Arms.FftNoImagFourIsTransform | src/index.ts:188-197 | the `N === 4` arm of `_fftNoImag` is the forward transform of the input with a zero imaginary part |
| Arms.NoImagFour | src/index.ts:188-197 | that arm is the `fft` arm with zeros for the imaginary input; the two outputs it leaves unwritten are its zeros |
| Arms.IfftRealFourIsTransform | src/index.ts:431-437 | the `N === 4` arm of `ifftReal` is the real part of the inverse transform |
| Arms.FftFourStage | src/index.ts:74-84 | the `fft` arm spells out the closed form of the forward four-point transform |
| Arms.IfftFourStage | src/index.ts:301-311 | the `ifft` arm spells out the closed form of the inverse four-point transform |
| Arms.FftEightStage | src/index.ts:108-150 | the `N === 8` arm of `_fft` spells out the eight-point stage over the `fft` four-point arms of the halves |
| Arms.IfftEightStage | src/index.ts:335-376 | the same for `_ifft` |
| Arms.FftEightIsTransform | src/index.ts:108-150 | the `N === 8` arm of `_fft` is the forward transform |
| Arms.IfftEightIsTransform | src/index.ts:335-376 | the `N === 8` arm of `_ifft` is the inverse transform |
| Arms.FftNoImagEightIsTransform | src/index.ts:214-249 | the `N === 8` arm of `_fftNoImagInner` is the forward transform of a real input |
| Arms.NoImagEight | src/index.ts:214-249 | that arm is the `_fft` arm with zeros for the imaginary input |
| Arms.IfftRealEightIsTransform | src/index.ts:454-479 | the `N === 8` arm of `_ifftReal` is the real part of the inverse transform |
| Fft.FftValidation | src/index.ts:59-70 | `fft` rejects exactly the lengths that are not powers of two up to 2^30, whatever the imaginary part. It reports a mismatch only for a present imaginary part of another length. A success has the input's length |
| Fft.IfftValidation | src/index.ts:290-298 | the same for `ifft`, where the length check comes before the mismatch check |
| Fft.IfftIsConjugatedFft | src/index.ts:286-409 | `ifft(r, i)` equals `fft(r, -i)` with the imaginary output negated, errors included |
| Fft.FftSpec | src/index.ts:55-70 | what `fft` returns: a success has the input's length, which is a power of two; a mismatch is reported only for a present imaginary part of another length |
| Fft.IfftSpec | src/index.ts:286-298 | the same for `ifft`, whose imaginary part is never missing |
| Fft.ResetKeepsResults | src/index.ts:10-15 | calling `_resetTables` between two calls of `fft` leaves the result unchanged |
| Fft.MissingImagIsZero | src/index.ts:52-65 | leaving the imaginary part out is the same as passing zeros |
| Fft.Fft | src/index.ts:55-99 | `fft` returns the forward transform, or the error it throws, for every input |
| Fft.Ifft | src/index.ts:286-326 | `ifft` returns the inverse transform, or the error it throws |
| Fft.IfftReal | src/index.ts:417-449 | `ifftReal` returns the real part of what `ifft` returns on the same input, errors included |
| Fft.FftComplex | src/index.ts:72-98 | the dispatch of `fft` on a complex input of power-of-two length is the forward transform |
| Fft.IfftComplex | src/index.ts:300-325 | the dispatch of `ifft` is the inverse transform |
| Fft.IfftRealSmall | src/index.ts:430-448 | the dispatch of `ifftReal` is the real part of the inverse transform |
| Fft.FftNoImag | src/index.ts:184-208 | `_fftNoImag` is the forward transform of the input with a zero imaginary part |
| Fft.FftNoImagRecursive | src/index.ts:210-278 | `_fftNoImagInner` is the forward transform of a real input of length at least 8 |
| Fft.FftRecursive | src/index.ts:101-182 | `_fft` is the forward transform for lengths of at least 8 |
| Fft.IfftRecursive | src/index.ts:328-409 | `_ifft` is the inverse transform for lengths of at least 8 |
| Fft.IfftRealRecursive | src/index.ts:451-505 | `_ifftReal` is the real part of the inverse transform. Its even half recurses into `_ifftReal` and its odd half into `_ifft` |
| Fft.Butterflies | src/index.ts:161-181 | the outputs at 0 and M, then the table lookup and the butterfly loop, produce the merge of the two half transforms |
| Fft.RealButterflies | src/index.ts:490-504 | the real-only merge of `_ifftReal` produces the real part of the inverse merge |
| Fft.ButterflyLoop | src/index.ts:169-179 | after the loop, outputs k and k + M hold the even output plus and minus the odd output rotated by `cosines[k]` and `∓sines[k]`, for every 1 <= k < M; outputs 0 and M are untouched |
| Fft.RealButterflyLoop | src/index.ts:497-502 | the same for the real output of `_ifftReal`, rotated by `cosines[k]` and `+sines[k]` |
| Fft.Butterfly | src/index.ts:174-178 | one butterfly writes `even + q` at k and `even - q` at k + M and leaves every other output as it was |
| Fft.RealHalfMeetsCombine | src/index.ts:163-179 | real outputs written as the loop writes them, with the twiddles read from the tables, are the real half of the merge |
| Fft.ImagHalfMeetsCombine | src/index.ts:165-178 | the same for the imaginary outputs |
| Fft.RealHalfEntry | src/index.ts:170-177 | the same, entry by entry |
| Fft.ImagHalfEntry | src/index.ts:170-178 | the same, entry by entry |
| Fft.RealHalfAt | src/index.ts:170-177 | butterfly k of the real output agrees with the merge at k and k + M |
| Fft.ImagHalfAt | src/index.ts:170-178 | butterfly k of the imaginary output agrees with the merge at k and k + M |
| Fft.RealButterfliesMeetCombine | src/index.ts:492-502 | the real-only butterflies of `_ifftReal` are the real half of the inverse merge |
| Fft.RealQ | src/index.ts:172 | definition, no contract: `realQ = realOdds[k] * realZ - imagOdds[k] * imagZ` |
| Fft.ImagQ | src/index.ts:173 | definition, no contract: `imagQ = realOdds[k] * imagZ + imagOdds[k] * realZ` |
| Fft.Rotate | src/index.ts:171 | definition, no contract: `imagZ` is `-sines[k]` forward and `sines[k]` inverse (line 398) |
| Fft.TablesFilled | src/index.ts:168 | every entry but the first of the tables `getTables(M)` returns is a number: the twiddle factor's parts |
| Fft.TwiddleAt | src/index.ts:170-171 | `cosines[k]` is the real part of the twiddle; `-sines[k]` going forward and `sines[k]` going backward is its imaginary part |
| Fft.RotationAt | src/index.ts:172-173 | `realQ` and `imagQ` are the parts of the odd output multiplied by the twiddle |
| Fft.BelowEight | src/index.ts:74-98 | a power of two that none of the arms for 4, 2 and 1 takes is at least 8 |
| Fft.AboveEight | src/index.ts:152-161 | a power of two above 8 halves to a power of two that is at least 8 |

## Left out

- Floating point: all arithmetic is on exact reals. Rounding, NaN propagation, infinities and
  `-0` are not modelled. So the model says nothing about numerical accuracy. It shows that the
  code computes the radix-2 recursion exactly, given exact arithmetic.
- `Math.sin` and `Math.PI` are not interpreted. `sin(i, M)` stands for
  `Math.sin(i * (Math.PI / M))`, and the only value fixed is the one the eight-point arms
  hard-code. So the model does not state that the tables hold the true cosines and sines.
  Nor does it state that the result equals the textbook discrete Fourier transform, or that
  `ifft(fft(x))` equals N·x.
- The NaN at index 0 of the seeded tables is a distinct slot value. It is never read.
- `Fft.Fft`, `Fft.Ifft`, `Fft.IfftReal`: `Float64Array` inputs are sequences of reals. Thrown
  errors are `Err` results. The two output arrays are returned as one `Signal` value.
- The store is passed to every operation as a `TableStore` object, instead of being a module
  global. Values returned from the store are never mutated by the library, so aliasing of the
  seed arrays has no visible effect; the model does not follow that aliasing further.
- `Twiddle.TableStore.GetTables`: only M >= 2 is modelled. The workers never ask for smaller
  tables.
- The unrolled arms are modelled as sequence displays (`Arms.FftFourArm` and the like),
  not as element-by-element writes into zero-filled arrays. Outputs that an arm leaves
  unwritten appear as explicit zeros.
- The butterfly loops of `_fft`, `_fftNoImagInner` and `_ifft` are written out three times in
  the source. Here they are one method, `Fft.ButterflyLoop`, parameterised by the direction,
  which picks the sign of `imagZ`.
- The butterfly loops read the tables through sequence snapshots of the returned arrays.
  Nothing writes to those arrays while a loop runs.
- The dispatch after validation is separated into `Fft.FftComplex`, `Fft.IfftComplex` and
  `Fft.IfftRealSmall`, with the same branches in the same order.
- `Float64Array.prototype.filter` is the functions `Radix2.Evens`/`Radix2.Odds`, not a loop.
- Lengths above 2^30 are rejected by `ceilPow2`, and the model proves this
  (`PowerOfTwo.CeilPow2AtMostMax`). The JavaScript limits on array length are not modelled.
- The exported helpers of the package outside `src/index.ts`, its benchmarks and its tests
  are not part of this model.
