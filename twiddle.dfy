/** The cosine and sine tables of the butterfly stages, and the module-wide store that
    holds the seeded table for half-length 2.

    Table M serves the stage that merges two transforms of length M into one of length 2M:
    entry k stands for cos(k*pi/M) and sin(k*pi/M). Entry 0 is never used. The values come
    from `Math.sin`, which this model does not interpret: it is the parameter `sin`, where
    `sin(i, M)` stands for `Math.sin(i * (Math.PI / M))`. */
module Twiddle {
  import opened PowerOfTwo

  /** The value of `Math.sin(Math.PI / 4)`, which the eight-point arms write as a literal. */
  const SQRT1_2: real := 0.7071067811865475

  /** `Math.sin(i * (Math.PI / M))` as a function of i and M. The only thing known about it
      is its value at pi/4, which the source relies on by hard-coding that value. */
  type SinFn = f: (nat, nat) -> real | f(1, 4) == SQRT1_2 witness (i: nat, m: nat) => SQRT1_2

  /** A table slot: never written, the NaN the seeded tables hold at index 0, or a number. */
  datatype Slot = Hole | NaN | Num(value: real)

  /** The seeded tables for M = 2: cos(pi/2) = 0 and sin(pi/2) = 1. */
  const COS_SEED: seq<Slot> := [NaN, Num(0.0)]
  const SIN_SEED: seq<Slot> := [NaN, Num(1.0)]

  /** cos(k*pi/M) as `getTables(M)` computes it, for 1 <= k < M: the seed for M = 2;
      otherwise entry 2i is entry i of table M/2 and the odd entries come from `Math.sin`
      by quarter-wave symmetry. */
  function CosValue(M: int, k: int, sin: SinFn): real
    requires M >= 2 && IsPow2(M) && 1 <= k < M
    decreases M
  {
    var L := M / 2;
    if M == 2 then 0.0
    else if k % 2 == 0 then CosValue(L, k / 2, sin)  // cos(2i*pi/M) = cos(i*pi/L)
    else if k < L then sin(L - k, M)                 // cos(k*pi/M) = sin((L-k)*pi/M)
    else -sin(k - L, M)                              // cos((L+i)*pi/M) = -cos((L-i)*pi/M)
  }

  /** sin(k*pi/M) as `getTables(M)` computes it, built like `CosValue`. */
  function SinValue(M: int, k: int, sin: SinFn): real
    requires M >= 2 && IsPow2(M) && 1 <= k < M
    decreases M
  {
    var L := M / 2;
    if M == 2 then 1.0
    else if k % 2 == 0 then SinValue(L, k / 2, sin)
    else if k < L then sin(k, M)
    else sin(M - k, M)                               // sin((M-i)*pi/M) = sin(i*pi/M)
  }

  /** Slot k of the cosine table `getTables(M)` returns: index 0 is the seed's NaN for M = 2
      and is never written for larger M. */
  function CosEntry(M: int, k: int, sin: SinFn): Slot
    requires M >= 2 && IsPow2(M) && 0 <= k < M
  {
    if k == 0 then (if M == 2 then NaN else Hole) else Num(CosValue(M, k, sin))
  }

  function SinEntry(M: int, k: int, sin: SinFn): Slot
    requires M >= 2 && IsPow2(M) && 0 <= k < M
  {
    if k == 0 then (if M == 2 then NaN else Hole) else Num(SinValue(M, k, sin))
  }

  /** The cosine table `getTables(M)` returns: index 0 undefined (the seed's NaN for M = 2),
      every other index a number. */
  function CosTable(M: int, sin: SinFn): (t: seq<Slot>)
    requires M >= 2 && IsPow2(M)
    ensures |t| == M && t[0] == (if M == 2 then NaN else Hole)
    ensures forall k :: 1 <= k < M ==> t[k].Num?
  {
    seq(M, k requires 0 <= k < M => CosEntry(M, k, sin))
  }

  /** The sine table `getTables(M)` returns, shaped the same way. */
  function SinTable(M: int, sin: SinFn): (t: seq<Slot>)
    requires M >= 2 && IsPow2(M)
    ensures |t| == M && t[0] == (if M == 2 then NaN else Hole)
    ensures forall k :: 1 <= k < M ==> t[k].Num?
  {
    seq(M, k requires 0 <= k < M => SinEntry(M, k, sin))
  }

  /** A power of two M >= 4 is twice a power of two, which is even. */
  lemma {:induction false} Halves(M: int)
    requires M >= 4 && IsPow2(M)
    ensures M % 2 == 0 && M / 2 >= 2 && IsPow2(M / 2) && (M / 2) % 2 == 0
  {
  }

  /** The tables for M = 2 are the seeded ones. */
  lemma {:induction false} SeedTables(sin: SinFn)
    ensures IsPow2(2) && CosTable(2, sin) == COS_SEED && SinTable(2, sin) == SIN_SEED
  {
    assert IsPow2(2);
  }

  /** The midpoint entry: cos(pi/2) = 0 and sin(pi/2) = 1 in every table, inherited from the seed. */
  lemma {:induction false} QuarterTurn(M: int, sin: SinFn)
    requires M >= 2 && IsPow2(M)
    ensures CosValue(M, M / 2, sin) == 0.0
    ensures SinValue(M, M / 2, sin) == 1.0
    decreases M
  {
    if M > 2 {
      Halves(M);
      QuarterTurn(M / 2, sin);
    }
  }

  /** Quarter-wave symmetry at an odd index: the four entries the second loop of `getTables`
      writes in one step all hold the one value `sin(i, M)`, up to the sign of the last. */
  lemma {:induction false} OddSymmetry(M: int, i: int, sin: SinFn)
    requires M >= 4 && IsPow2(M) && 1 <= i < M / 2 && i % 2 == 1
    ensures SinValue(M, i, sin) == sin(i, M)
    ensures SinValue(M, M - i, sin) == sin(i, M)
    ensures CosValue(M, M / 2 - i, sin) == sin(i, M)
    ensures CosValue(M, M / 2 + i, sin) == -sin(i, M)
  {
    Halves(M);
    var L, H, q := M / 2, M / 4, i / 2;
    assert M == 2 * L && L == 2 * H && i == 2 * q + 1;
    OddIndex(M - i, L - q - 1);
    OddIndex(L - i, H - q - 1);
    OddIndex(L + i, H + q);
  }

  /** 2p + 1 is odd. */
  lemma {:induction false} OddIndex(n: int, p: int)
    requires n == 2 * p + 1
    ensures n % 2 == 1
  {
  }

  /** At an even index i of table M, the four symmetric indices are even too and halve to the
      symmetric indices of i/2 in table M/2. */
  lemma {:induction false} EvenIndices(M: int, i: int)
    requires M >= 4 && M % 2 == 0 && (M / 2) % 2 == 0 && 1 <= i < M / 2 && i % 2 == 0
    ensures var L, H, j := M / 2, M / 4, i / 2;
      1 <= j < H && i == 2 * j && L == 2 * H &&
      (M - i) % 2 == 0 && (M - i) / 2 == L - j &&
      (L - i) % 2 == 0 && (L - i) / 2 == H - j &&
      (L + i) % 2 == 0 && (L + i) / 2 == H + j
  {
    var L, H, j := M / 2, M / 4, i / 2;
    assert M == 2 * L && L == 2 * H && i == 2 * j;
    assert M - i == 2 * (L - j) && L - i == 2 * (H - j) && L + i == 2 * (H + j);
  }

  /** Quarter-wave symmetry holds at every index 1 <= i < M/2:
      sin(i) = sin(M - i) = cos(M/2 - i) and cos(M/2 + i) = -cos(M/2 - i).
      At odd i the common value is the one call `sin(i, M)`. */
  lemma {:induction false} QuarterWaveSymmetry(M: int, i: int, sin: SinFn)
    requires M >= 2 && IsPow2(M) && 1 <= i < M / 2
    ensures SinValue(M, i, sin) == SinValue(M, M - i, sin) == CosValue(M, M / 2 - i, sin)
    ensures CosValue(M, M / 2 + i, sin) == -CosValue(M, M / 2 - i, sin)
    ensures i % 2 == 1 ==> SinValue(M, i, sin) == sin(i, M)
    decreases M
  {
    if i % 2 == 1 {
      OddSymmetry(M, i, sin);
    } else {
      Halves(M);
      var L := M / 2;
      var H := L / 2;
      var j := i / 2;
      EvenIndices(M, i);
      QuarterWaveSymmetry(L, j, sin);
    }
  }

  /** The module-wide tables `COSINES` and `SINES`, keyed by half-length M. The source seeds
      entry 2 and never stores anything else: `getTables` builds every other table afresh on
      each call. `Valid` states exactly that state. */
  class TableStore {
    var cosines: map<int, array<Slot>>
    var sines: map<int, array<Slot>>
    ghost var Repr: set<object>

    ghost predicate Valid()
      reads this, Repr
    {
      cosines.Keys == {2} && sines.Keys == {2} &&
      cosines[2] in Repr && sines[2] in Repr &&
      cosines[2][..] == COS_SEED && sines[2][..] == SIN_SEED
    }

    /** The module's initialisation: `COSINES[2] = [NaN, 0]` and `SINES[2] = [NaN, 1]`. */
    constructor ()
      ensures Valid() && fresh(Repr)
    {
      var c := new Slot[] [NaN, Num(0.0)];
      var s := new Slot[] [NaN, Num(1.0)];
      cosines, sines := map[2 := c], map[2 := s];
      Repr := {c, s};
    }

    /** `_resetTables`: truncate both stores and reseed entry 2 with new arrays. */
    method Reset()
      modifies this
      ensures Valid() && fresh(Repr)
    {
      var c := new Slot[] [NaN, Num(0.0)];
      var s := new Slot[] [NaN, Num(1.0)];
      cosines, sines := map[2 := c], map[2 := s];
      Repr := {c, s};
    }

    /** `getTables(M)`: the stored arrays when the store has a non-empty entry for M (only
        M = 2), otherwise two new arrays of length M filled from the tables for M/2. Nothing
        is written back to the store. */
    method GetTables(M: int, sin: SinFn) returns (c: array<Slot>, s: array<Slot>)
      requires Valid() && M >= 2 && IsPow2(M)
      ensures c[..] == CosTable(M, sin) && s[..] == SinTable(M, sin)
      ensures M == 2 ==> c == cosines[2] && s == sines[2]
      ensures M != 2 ==> fresh(c) && fresh(s)
      decreases M
    {
      if M in cosines && cosines[M].Length > 0 {
        SeedTables(sin);
        return cosines[M], sines[M];
      }
      Halves(M);
      var L := M / 2;
      var halfCos, halfSin := GetTables(L, sin);
      c, s := DoubleTables(halfCos, halfSin, M, sin);
    }
  }

  /** The body of `getTables(M)` below the recursive call: new tables of length M, the even
      entries copied from the tables for M/2 by the first loop, the odd ones computed by the
      second. */
  method DoubleTables(halfCos: array<Slot>, halfSin: array<Slot>, M: int, sin: SinFn)
    returns (c: array<Slot>, s: array<Slot>)
    requires M >= 4 && IsPow2(M)
    requires IsPow2(M / 2) && halfCos[..] == CosTable(M / 2, sin) && halfSin[..] == SinTable(M / 2, sin)
    ensures fresh(c) && fresh(s)
    ensures c[..] == CosTable(M, sin) && s[..] == SinTable(M, sin)
  {
    var L := M / 2;
    Halves(M);
    c := new Slot[M](_ => Hole);
    s := new Slot[M](_ => Hole);
    var cosT, sinT := CosTable(M, sin), SinTable(M, sin);
    EvenEntries(M, sin);
    NothingWritten(c[..], cosT);
    NothingWritten(s[..], sinT);
    CopyEvens(c, s, halfCos, halfSin, cosT, sinT);
    EvensThenOdds(cosT, sinT, L);
    AllOddEntries(M, sin);
    FillOdds(c, s, L, cosT, sinT, (i: nat) => sin(i, M));
    AllWritten(M, sin);
  }

  /** The first loop of `getTables`: `cosines[2i] = c[i]` and `sines[2i] = s[i]` for
      1 <= i < L, where the half tables hc and hs hold the entries the full tables cosT and
      sinT have at the even indices. */
  method CopyEvens(c: array<Slot>, s: array<Slot>, hc: array<Slot>, hs: array<Slot>,
                   ghost cosT: seq<Slot>, ghost sinT: seq<Slot>)
    requires hc.Length == hs.Length >= 2
    requires c.Length == s.Length == 2 * hc.Length == |cosT| == |sinT|
    requires c != s && c != hc && c != hs && s != hc && s != hs
    requires c[..] == EvensSoFar(cosT, 1) && s[..] == EvensSoFar(sinT, 1)
    requires forall i :: 1 <= i < hc.Length ==> cosT[2 * i] == hc[i] && sinT[2 * i] == hs[i]
    modifies c, s
    ensures c[..] == EvensSoFar(cosT, hc.Length) && s[..] == EvensSoFar(sinT, hc.Length)
  {
    for i := 1 to hc.Length
      invariant c[..] == EvensSoFar(cosT, i)
      invariant s[..] == EvensSoFar(sinT, i)
    {
      EvenStep(cosT, i);
      EvenStep(sinT, i);
      c[2 * i] := hc[i];
      s[2 * i] := hs[i];
    }
  }

  /** What one step of the second loop of `getTables` relies on: at odd i, the sine table
      holds v at i and M - i, and the cosine table holds v at L - i and -v at L + i. */
  ghost predicate OddStep(cosT: seq<Slot>, sinT: seq<Slot>, L: int, i: int, v: real)
    requires |cosT| == |sinT| == 2 * L && 1 <= i < L
  {
    sinT[i] == Num(v) && sinT[2 * L - i] == Num(v) && cosT[L - i] == Num(v) && cosT[L + i] == Num(-v)
  }

  /** The second loop of `getTables`: for odd i < L,
      `sines[i] = sines[M - i] = cosines[L - i] = sin(i)` and `cosines[L + i] = -cosines[L - i]`. */
  method FillOdds(c: array<Slot>, s: array<Slot>, L: int, ghost cosT: seq<Slot>, ghost sinT: seq<Slot>,
                  sinAt: nat -> real)
    requires L >= 2 && L % 2 == 0 && c.Length == s.Length == |cosT| == |sinT| == 2 * L && c != s
    requires c[..] == CosSoFar(cosT, L, 1) && s[..] == SinSoFar(sinT, L, 1)
    requires forall i :: 1 <= i < L && i % 2 == 1 ==> OddStep(cosT, sinT, L, i, sinAt(i))
    modifies c, s
    ensures c[..] == CosSoFar(cosT, L, L + 1) && s[..] == SinSoFar(sinT, L, L + 1)
  {
    var M := 2 * L;
    var i := 1;
    ghost var h := 0;
    while i < L
      invariant 0 <= h && i == 2 * h + 1 && i <= L + 1
      invariant c[..] == CosSoFar(cosT, L, i)
      invariant s[..] == SinSoFar(sinT, L, i)
      decreases L - i
    {
      var v := sinAt(i);
      OddStepFills(cosT, sinT, L, i, v);
      SetPair(s, i, M - i, Num(v), Num(v));
      SetPair(c, L - i, L + i, Num(v), Num(-v));
      i, h := i + 2, h + 1;
    }
  }

  /** Two writes into one table: `a[p] = u` and `a[q] = w`, every other slot kept. */
  method SetPair(a: array<Slot>, p: int, q: int, u: Slot, w: Slot)
    requires 0 <= p < a.Length && 0 <= q < a.Length && p != q
    modifies a
    ensures a[..] == old(a[..])[p := u][q := w]
  {
    a[p] := u;
    a[q] := w;
  }

  /** The slots the second loop of `getTables(M)` writes at odd i. */
  lemma {:induction false} OddEntries(M: int, i: int, sin: SinFn)
    requires M >= 4 && IsPow2(M) && 1 <= i < M / 2 && i % 2 == 1
    ensures M == 2 * (M / 2)
    ensures OddStep(CosTable(M, sin), SinTable(M, sin), M / 2, i, sin(i, M))
  {
    Halves(M);
    OddSymmetry(M, i, sin);
    OddSines(M, i, sin);
    OddCosines(M, i, sin);
  }

  lemma {:induction false} OddSines(M: int, i: int, sin: SinFn)
    requires M >= 4 && IsPow2(M) && 1 <= i < M / 2 && i % 2 == 1
    ensures SinTable(M, sin)[i] == Num(SinValue(M, i, sin))
    ensures SinTable(M, sin)[M - i] == Num(SinValue(M, M - i, sin))
  {
  }

  lemma {:induction false} OddCosines(M: int, i: int, sin: SinFn)
    requires M >= 4 && IsPow2(M) && 1 <= i < M / 2 && i % 2 == 1
    ensures CosTable(M, sin)[M / 2 - i] == Num(CosValue(M, M / 2 - i, sin))
    ensures CosTable(M, sin)[M / 2 + i] == Num(CosValue(M, M / 2 + i, sin))
  {
  }

  /** The first loop of `getTables(M)` copies table M/2 to the even entries. */
  lemma {:induction false} EvenEntries(M: int, sin: SinFn)
    requires M >= 4 && IsPow2(M)
    ensures IsPow2(M / 2) && M / 2 >= 2 && |CosTable(M, sin)| == |SinTable(M, sin)| == M
    ensures forall i :: 1 <= i < M / 2 ==>
      CosTable(M, sin)[2 * i] == CosTable(M / 2, sin)[i] && SinTable(M, sin)[2 * i] == SinTable(M / 2, sin)[i]
  {
    Halves(M);
    forall i | 1 <= i < M / 2
      ensures CosTable(M, sin)[2 * i] == CosTable(M / 2, sin)[i] && SinTable(M, sin)[2 * i] == SinTable(M / 2, sin)[i]
    {
      EvenEntry(M, i, sin);
    }
  }

  /** The second loop of `getTables(M)` writes `sin(i)` and its negation at odd i. */
  lemma {:induction false} AllOddEntries(M: int, sin: SinFn)
    requires M >= 4 && IsPow2(M)
    ensures M == 2 * (M / 2)
    ensures forall i :: 1 <= i < M / 2 && i % 2 == 1 ==>
      OddStep(CosTable(M, sin), SinTable(M, sin), M / 2, i, sin(i, M))
  {
    Halves(M);
    forall i | 1 <= i < M / 2 && i % 2 == 1
      ensures OddStep(CosTable(M, sin), SinTable(M, sin), M / 2, i, sin(i, M))
    {
      OddEntries(M, i, sin);
    }
  }

  /** The first loop of `getTables(M)` copies entry i of table M/2 to entry 2i. */
  lemma {:induction false} EvenEntry(M: int, i: int, sin: SinFn)
    requires M >= 4 && IsPow2(M) && 1 <= i < M / 2
    ensures CosTable(M, sin)[2 * i] == CosTable(M / 2, sin)[i]
    ensures SinTable(M, sin)[2 * i] == SinTable(M / 2, sin)[i]
  {
    assert (2 * i) % 2 == 0 && (2 * i) / 2 == i;
  }

  /** After the first loop of `getTables` has run for the indices below i: the even slots
      2 .. 2i-2 are written. */
  predicate EvenFilled(k: int, i: int)
  {
    k % 2 == 0 && 2 <= k < 2 * i
  }

  /** One step of the second loop writes the odd cosine slots L - i and L + i and the odd
      sine slots i and M - i. */
  lemma {:induction false} FilledStep(L: int, i: int)
    requires L >= 2 && L % 2 == 0 && 1 <= i < L && i % 2 == 1
    ensures forall k :: CosFilled(L, k, i + 2) == (CosFilled(L, k, i) || k == L - i || k == L + i)
    ensures forall k :: SinFilled(L, k, i + 2) == (SinFilled(L, k, i) || k == i || k == 2 * L - i)
  {
    var H, q := L / 2, i / 2;
    assert L == 2 * H && i == 2 * q + 1;
    OddIndex(L - i, H - q - 1);
    OddIndex(L + i, H + q);
    OddIndex(2 * L - i, L - q - 1);
    forall k
      ensures CosFilled(L, k, i + 2) == (CosFilled(L, k, i) || k == L - i || k == L + i)
      ensures SinFilled(L, k, i + 2) == (SinFilled(L, k, i) || k == i || k == 2 * L - i)
    {
      var p := k / 2;
      if k % 2 == 1 {
        assert k == 2 * p + 1;
      } else {
        assert k == 2 * p;
      }
    }
  }

  /** After the second loop of `getTables(M)` has run for the odd indices below i: the cosine
      slots already written (even ones by the first loop, odd ones at L - i' and L + i'). */
  predicate CosFilled(L: int, k: int, i: int)
  {
    if k % 2 == 0 then k != 0 else if k < L then L - k < i else k - L < i
  }

  /** The same for the sine slots (odd ones at i' and M - i'). */
  predicate SinFilled(L: int, k: int, i: int)
  {
    if k % 2 == 0 then k != 0 else if k < L then k < i else 2 * L - k < i
  }

  /** The cosine table while the second loop of `getTables` runs: the slots written so far
      hold their final entries, the others are still holes. */
  function CosSoFar(cosT: seq<Slot>, L: int, i: int): (r: seq<Slot>)
    ensures |r| == |cosT|
  {
    seq(|cosT|, k requires 0 <= k < |cosT| => if CosFilled(L, k, i) then cosT[k] else Hole)
  }

  /** The same for the sine table. */
  function SinSoFar(sinT: seq<Slot>, L: int, i: int): (r: seq<Slot>)
    ensures |r| == |sinT|
  {
    seq(|sinT|, k requires 0 <= k < |sinT| => if SinFilled(L, k, i) then sinT[k] else Hole)
  }

  /** The table while the first loop of `getTables` runs: the even slots below 2i are written. */
  function EvensSoFar(t: seq<Slot>, i: int): (r: seq<Slot>)
    ensures |r| == |t|
  {
    seq(|t|, k requires 0 <= k < |t| => if EvenFilled(k, i) then t[k] else Hole)
  }

  /** A new table `new Array(M)` holds only holes: nothing is written yet. */
  lemma {:induction false} NothingWritten(a: seq<Slot>, t: seq<Slot>)
    requires |a| == |t| && forall k :: 0 <= k < |a| ==> a[k] == Hole
    ensures a == EvensSoFar(t, 1)
  {
  }

  /** One step of the first loop writes slot 2i. */
  lemma {:induction false} EvenStep(t: seq<Slot>, i: int)
    requires 1 <= i && 2 * i < |t|
    ensures EvensSoFar(t, i)[2 * i := t[2 * i]] == EvensSoFar(t, i + 1)
  {
    assert (2 * i) % 2 == 0;
  }

  /** After the first loop the tables are where the second loop starts. */
  lemma {:induction false} EvensThenOdds(cosT: seq<Slot>, sinT: seq<Slot>, L: int)
    requires L >= 2 && L % 2 == 0 && |cosT| == |sinT| == 2 * L
    ensures EvensSoFar(cosT, L) == CosSoFar(cosT, L, 1)
    ensures EvensSoFar(sinT, L) == SinSoFar(sinT, L, 1)
  {
    assert forall k :: 0 <= k < 2 * L ==> CosFilled(L, k, 1) == EvenFilled(k, L);
    assert forall k :: 0 <= k < 2 * L ==> SinFilled(L, k, 1) == EvenFilled(k, L);
  }

  /** After the second loop every slot but 0 is written, and slot 0 of a table beyond the
      seed is a hole: the tables are complete. */
  lemma {:induction false} AllWritten(M: int, sin: SinFn)
    requires M >= 4 && IsPow2(M)
    ensures M == 2 * (M / 2)
    ensures CosSoFar(CosTable(M, sin), M / 2, M / 2 + 1) == CosTable(M, sin)
    ensures SinSoFar(SinTable(M, sin), M / 2, M / 2 + 1) == SinTable(M, sin)
  {
    Halves(M);
  }

  /** One step of the second loop turns the tables written for the odd indices below i into
      those written for the odd indices below i + 2. */
  lemma {:induction false} OddStepFills(cosT: seq<Slot>, sinT: seq<Slot>, L: int, i: int, v: real)
    requires L >= 2 && L % 2 == 0 && |cosT| == |sinT| == 2 * L && 1 <= i < L && i % 2 == 1
    requires OddStep(cosT, sinT, L, i, v)
    ensures CosSoFar(cosT, L, i)[L - i := Num(v)][L + i := Num(-v)] == CosSoFar(cosT, L, i + 2)
    ensures SinSoFar(sinT, L, i)[i := Num(v)][2 * L - i := Num(v)] == SinSoFar(sinT, L, i + 2)
  {
    FilledStep(L, i);
  }
}
