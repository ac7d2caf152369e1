/** The combination formulas of `PTCalculator` (`get_pgg`, `get_pgm`,
    `get_pim`, `get_pgi`, `get_pii`): closed-form polynomials in the bias
    coefficients of two tracers, summed over correlator vectors.

    Every result is a grid of shape `(N_k, N_z)`. Entry `[i][j]` belongs to
    wavenumber `k_i` and redshift `z_j`: a redshift-indexed vector (the growth
    factor `g4`, a bias) contributes its element `j`, a wavenumber-indexed
    correlator its element `i`, and the matter spectrum `Pd1d1` its element
    `[i][j]`. This is numpy's `x[None, :] * y[:, None]` broadcast.

    The correlator bundles are passed in explicitly rather than read from the
    calculator object; `Calculator.PTCalculator` holds them. */
module Formulas {
  import opened Grids

  /** Bundle `b` has an element `t` sampled on the `nk`-point grid. */
  ghost predicate Has(b: seq<Vec>, t: nat, nk: nat)
  {
    t < |b| && |b[t]| == nk
  }

  /** Bundle `b` unpacks into exactly `count` vectors on the `nk`-point grid
      (Python's tuple unpacking `a, b, c, d = self.ia_ta`). */
  ghost predicate Tuple(b: seq<Vec>, count: nat, nk: nat)
  {
    |b| == count && AllOfLength(b, nk)
  }

  /** The elements of `dd_bias` that `get_pgg` reads: the vectors 2 to 6,
      and, only when the low-k term is subtracted, element 7. Element 7 is
      the scalar `sigma4`, not a wavenumber-indexed vector: it is held as a
      one-element vector and read as `dd[7][0]`. */
  ghost predicate PggReady(dd: seq<Vec>, nk: nat, subLowk: bool)
  {
    Has(dd, 2, nk) && Has(dd, 3, nk) && Has(dd, 4, nk) && Has(dd, 5, nk) && Has(dd, 6, nk)
    && (subLowk ==> Has(dd, 7, 1))
  }

  /** The scalar `sigma4` of a `dd_bias` bundle (its element 7). */
  function Sigma4(dd: seq<Vec>): real
    requires Has(dd, 7, 1)
  {
    dd[7][0]
  }

  /** The elements of `dd_bias` that `get_pgm` reads: 2 and 4. */
  ghost predicate PgmReady(dd: seq<Vec>, nk: nat)
  {
    Has(dd, 2, nk) && Has(dd, 4, nk)
  }

  /** The shape of the inputs that every formula shares: `Pd1d1` is an
      `(N_k, N_z)` grid and `g4` has one entry per redshift. */
  ghost predicate Spectrum(pd1d1: Grid, g4: Vec)
  {
    IsGrid(pd1d1, |pd1d1|, |g4|)
  }

  // ---------------------------------------------------------------------
  // Number counts x number counts

  /** `get_pgg`: the number-counts auto- (or cross-) spectrum. The low-k
      term `s4 = g4 * sigma4` depends on the redshift only and is the same at
      every wavenumber; it is subtracted only when `subLowk`, otherwise `s4`
      is `0` and `dd_bias[7]` is not read. */
  function Pgg(pd1d1: Grid, g4: Vec,
               b11: Vec, b21: Vec, bs1: Vec, b12: Vec, b22: Vec, bs2: Vec,
               dd: seq<Vec>, subLowk: bool): (r: Grid)
    requires Spectrum(pd1d1, g4)
    requires |b11| == |b21| == |bs1| == |b12| == |b22| == |bs2| == |g4|
    requires PggReady(dd, |pd1d1|, subLowk)
    ensures IsGrid(r, |pd1d1|, |g4|)
  {
    seq(|pd1d1|, i requires 0 <= i < |pd1d1| =>
      seq(|g4|, j requires 0 <= j < |g4| =>
        var s4 := if subLowk then g4[j] * Sigma4(dd) else 0.0;
        (b11[j] * b12[j]) * pd1d1[i][j]
        + 0.5 * (b11[j] * b22[j] + b12[j] * b21[j]) * (g4[j] * dd[2][i])
        + 0.25 * (b21[j] * b22[j]) * (g4[j] * dd[3][i] - 2.0 * s4)
        + 0.5 * (b11[j] * bs2[j] + b12[j] * bs1[j]) * (g4[j] * dd[4][i])
        + 0.25 * (b21[j] * bs2[j] + b22[j] * bs1[j]) * (g4[j] * dd[5][i] - (4.0 / 3.0) * s4)
        + 0.25 * (bs1[j] * bs2[j]) * (g4[j] * dd[6][i] - (8.0 / 9.0) * s4)))
  }

  /** With no second-order or tidal bias, `pgg` is the product of the two
      linear biases times `Pd1d1`, whether or not the low-k term is
      subtracted. */
  lemma PggLinearBias(pd1d1: Grid, g4: Vec, b11: Vec, b21: Vec, bs1: Vec,
                      b12: Vec, b22: Vec, bs2: Vec, dd: seq<Vec>, subLowk: bool)
    requires Spectrum(pd1d1, g4)
    requires |b11| == |b21| == |bs1| == |b12| == |b22| == |bs2| == |g4|
    requires PggReady(dd, |pd1d1|, subLowk)
    requires forall j :: 0 <= j < |g4| ==> b21[j] == 0.0 && bs1[j] == 0.0 && b22[j] == 0.0 && bs2[j] == 0.0
    ensures forall i, j :: 0 <= i < |pd1d1| && 0 <= j < |g4| ==>
      Pgg(pd1d1, g4, b11, b21, bs1, b12, b22, bs2, dd, subLowk)[i][j] == b11[j] * b12[j] * pd1d1[i][j]
  {
  }

  /** One number-counts tracer with `b1 = 2` and no higher bias, a flat
      spectrum `Pd1d1 = 1` and `g4 = 1`: every entry of `pgg` is `4`. */
  lemma PggFlatScenario(nk: nat, nz: nat, dd: seq<Vec>, subLowk: bool)
    requires PggReady(dd, nk, subLowk)
    ensures var ones := seq(nk, i requires 0 <= i < nk => Ones(nz));
            var two := seq(nz, j requires 0 <= j < nz => 2.0);
            var r := Pgg(ones, Ones(nz), two, Zeros(nz), Zeros(nz), two, Zeros(nz), Zeros(nz), dd, subLowk);
            forall i, j :: 0 <= i < nk && 0 <= j < nz ==> r[i][j] == 4.0
  {
    var ones := seq(nk, i requires 0 <= i < nk => Ones(nz));
    var two := seq(nz, j requires 0 <= j < nz => 2.0);
    PggLinearBias(ones, Ones(nz), two, Zeros(nz), Zeros(nz), two, Zeros(nz), Zeros(nz), dd, subLowk);
  }

  /** `pgg` is symmetric in its two tracers: swapping the triples
      `(b11, b21, bs1)` and `(b12, b22, bs2)` leaves it unchanged. */
  lemma PggSymmetric(pd1d1: Grid, g4: Vec, b11: Vec, b21: Vec, bs1: Vec,
                     b12: Vec, b22: Vec, bs2: Vec, dd: seq<Vec>, subLowk: bool)
    requires Spectrum(pd1d1, g4)
    requires |b11| == |b21| == |bs1| == |b12| == |b22| == |bs2| == |g4|
    requires PggReady(dd, |pd1d1|, subLowk)
    ensures Pgg(pd1d1, g4, b11, b21, bs1, b12, b22, bs2, dd, subLowk)
         == Pgg(pd1d1, g4, b12, b22, bs2, b11, b21, bs1, dd, subLowk)
  {
    var p := Pgg(pd1d1, g4, b11, b21, bs1, b12, b22, bs2, dd, subLowk);
    var q := Pgg(pd1d1, g4, b12, b22, bs2, b11, b21, bs1, dd, subLowk);
    forall i | 0 <= i < |pd1d1|
      ensures p[i] == q[i]
    {
      forall j | 0 <= j < |g4|
        ensures p[i][j] == q[i][j]
      {
      }
    }
  }

  /** Without low-k subtraction `pgg` reads only `dd_bias[2]` to
      `dd_bias[6]`: any bundle that agrees on those gives the same result,
      so `dd_bias[7]` (and `dd_bias[0]`, `dd_bias[1]`) are not read. */
  lemma PggReadsOnlyTwoToSix(pd1d1: Grid, g4: Vec, b11: Vec, b21: Vec, bs1: Vec,
                             b12: Vec, b22: Vec, bs2: Vec, dd: seq<Vec>, dd': seq<Vec>)
    requires Spectrum(pd1d1, g4)
    requires |b11| == |b21| == |bs1| == |b12| == |b22| == |bs2| == |g4|
    requires PggReady(dd, |pd1d1|, false) && 6 < |dd'|
    requires forall t :: 2 <= t <= 6 ==> dd'[t] == dd[t]
    ensures PggReady(dd', |pd1d1|, false)
    ensures Pgg(pd1d1, g4, b11, b21, bs1, b12, b22, bs2, dd, false)
         == Pgg(pd1d1, g4, b11, b21, bs1, b12, b22, bs2, dd', false)
  {
    var p := Pgg(pd1d1, g4, b11, b21, bs1, b12, b22, bs2, dd, false);
    var q := Pgg(pd1d1, g4, b11, b21, bs1, b12, b22, bs2, dd', false);
    assert dd'[2] == dd[2] && dd'[3] == dd[3] && dd'[4] == dd[4] && dd'[5] == dd[5] && dd'[6] == dd[6];
    forall i | 0 <= i < |pd1d1|
      ensures p[i] == q[i]
    {
      forall j | 0 <= j < |g4|
        ensures p[i][j] == q[i][j]
      {
      }
    }
  }

  /** Subtracting the low-k term changes each entry of `pgg` by exactly
      `-(b21 b22 / 2 + (b21 bs2 + b22 bs1) / 3 + 2 bs1 bs2 / 9) g4 sigma4`,
      the same amount at every wavenumber of one redshift. */
  lemma PggLowkSubtraction(pd1d1: Grid, g4: Vec, b11: Vec, b21: Vec, bs1: Vec,
                           b12: Vec, b22: Vec, bs2: Vec, dd: seq<Vec>)
    requires Spectrum(pd1d1, g4)
    requires |b11| == |b21| == |bs1| == |b12| == |b22| == |bs2| == |g4|
    requires PggReady(dd, |pd1d1|, true)
    ensures forall i, j :: 0 <= i < |pd1d1| && 0 <= j < |g4| ==>
      Pgg(pd1d1, g4, b11, b21, bs1, b12, b22, bs2, dd, true)[i][j]
      == Pgg(pd1d1, g4, b11, b21, bs1, b12, b22, bs2, dd, false)[i][j]
         - (0.5 * b21[j] * b22[j] + (b21[j] * bs2[j] + b22[j] * bs1[j]) / 3.0
            + (2.0 / 9.0) * bs1[j] * bs2[j]) * g4[j] * Sigma4(dd)
  {
  }

  // ---------------------------------------------------------------------
  // Number counts x matter

  /** `get_pgm`: the number-counts x matter cross-spectrum; it reads only
      `dd_bias[2]` and `dd_bias[4]`. */
  function Pgm(pd1d1: Grid, g4: Vec, b1: Vec, b2: Vec, bs: Vec, dd: seq<Vec>): (r: Grid)
    requires Spectrum(pd1d1, g4)
    requires |b1| == |b2| == |bs| == |g4|
    requires PgmReady(dd, |pd1d1|)
    ensures IsGrid(r, |pd1d1|, |g4|)
  {
    seq(|pd1d1|, i requires 0 <= i < |pd1d1| =>
      seq(|g4|, j requires 0 <= j < |g4| =>
        b1[j] * pd1d1[i][j]
        + 0.5 * b2[j] * (g4[j] * dd[2][i])
        + 0.5 * bs[j] * (g4[j] * dd[4][i])))
  }

  /** With `b2 = bs = 0`, `pgm` is `b1 * Pd1d1`. */
  lemma PgmLinearBias(pd1d1: Grid, g4: Vec, b1: Vec, b2: Vec, bs: Vec, dd: seq<Vec>)
    requires Spectrum(pd1d1, g4)
    requires |b1| == |b2| == |bs| == |g4|
    requires PgmReady(dd, |pd1d1|)
    requires forall j :: 0 <= j < |g4| ==> b2[j] == 0.0 && bs[j] == 0.0
    ensures forall i, j :: 0 <= i < |pd1d1| && 0 <= j < |g4| ==>
      Pgm(pd1d1, g4, b1, b2, bs, dd)[i][j] == b1[j] * pd1d1[i][j]
  {
  }

  /** `pgm` reads no element of `dd_bias` other than 2 and 4. */
  lemma PgmReadsOnlyTwoAndFour(pd1d1: Grid, g4: Vec, b1: Vec, b2: Vec, bs: Vec,
                               dd: seq<Vec>, dd': seq<Vec>)
    requires Spectrum(pd1d1, g4)
    requires |b1| == |b2| == |bs| == |g4|
    requires PgmReady(dd, |pd1d1|) && 4 < |dd'|
    requires dd'[2] == dd[2] && dd'[4] == dd[4]
    ensures PgmReady(dd', |pd1d1|)
    ensures Pgm(pd1d1, g4, b1, b2, bs, dd) == Pgm(pd1d1, g4, b1, b2, bs, dd')
  {
  }

  /** Matter behaves as a number-counts tracer with `b1 = 1` and no higher
      bias: `pgm` equals `pgg` against such a tracer, with or without the
      low-k subtraction. */
  lemma PgmIsPggWithUnitTracer(pd1d1: Grid, g4: Vec, b1: Vec, b2: Vec, bs: Vec,
                               dd: seq<Vec>, subLowk: bool)
    requires Spectrum(pd1d1, g4)
    requires |b1| == |b2| == |bs| == |g4|
    requires PggReady(dd, |pd1d1|, subLowk)
    ensures Pgm(pd1d1, g4, b1, b2, bs, dd)
         == Pgg(pd1d1, g4, b1, b2, bs, Ones(|g4|), Zeros(|g4|), Zeros(|g4|), dd, subLowk)
  {
    var p := Pgm(pd1d1, g4, b1, b2, bs, dd);
    var q := Pgg(pd1d1, g4, b1, b2, bs, Ones(|g4|), Zeros(|g4|), Zeros(|g4|), dd, subLowk);
    forall i | 0 <= i < |pd1d1|
      ensures p[i] == q[i]
    {
      forall j | 0 <= j < |g4|
        ensures p[i][j] == q[i][j]
      {
      }
    }
  }

  // ---------------------------------------------------------------------
  // Intrinsic alignments x matter, number counts x intrinsic alignments

  /** `get_pim`: the intrinsic-alignment x matter cross-spectrum, from
      `ia_ta = (a00e, c00e, a0e0e, a0b0b)` and
      `ia_mix = (a0e2, b0e2, d0ee2, d0bb2)`. */
  function Pim(pd1d1: Grid, g4: Vec, c1: Vec, c2: Vec, cd: Vec,
               ta: seq<Vec>, mix: seq<Vec>): (r: Grid)
    requires Spectrum(pd1d1, g4)
    requires |c1| == |c2| == |cd| == |g4|
    requires Tuple(ta, 4, |pd1d1|) && Tuple(mix, 4, |pd1d1|)
    ensures IsGrid(r, |pd1d1|, |g4|)
  {
    var a00e, c00e := ta[0], ta[1];
    var a0e2, b0e2 := mix[0], mix[1];
    seq(|pd1d1|, i requires 0 <= i < |pd1d1| =>
      seq(|g4|, j requires 0 <= j < |g4| =>
        c1[j] * pd1d1[i][j]
        + (g4[j] * cd[j]) * (a00e[i] + c00e[i])
        + (g4[j] * c2[j]) * (a0e2[i] + b0e2[i])))
  }

  /** With `c2 = cd = 0`, `pim` is `c1 * Pd1d1`. */
  lemma PimLinearAlignment(pd1d1: Grid, g4: Vec, c1: Vec, c2: Vec, cd: Vec,
                           ta: seq<Vec>, mix: seq<Vec>)
    requires Spectrum(pd1d1, g4)
    requires |c1| == |c2| == |cd| == |g4|
    requires Tuple(ta, 4, |pd1d1|) && Tuple(mix, 4, |pd1d1|)
    requires forall j :: 0 <= j < |g4| ==> c2[j] == 0.0 && cd[j] == 0.0
    ensures forall i, j :: 0 <= i < |pd1d1| && 0 <= j < |g4| ==>
      Pim(pd1d1, g4, c1, c2, cd, ta, mix)[i][j] == c1[j] * pd1d1[i][j]
  {
  }

  /** `get_pgi`: the number-counts x intrinsic-alignment cross-spectrum in
      the linearly-biased approximation. Only the linear number-counts bias
      `b1` enters; `b2` and `bs` are accepted and ignored. The warning the
      source issues on every call is recorded by `Orchestrator.GetPtPk2d`. */
  function Pgi(pd1d1: Grid, g4: Vec, b1: Vec, b2: Vec, bs: Vec,
               c1: Vec, c2: Vec, cd: Vec, ta: seq<Vec>, mix: seq<Vec>): (r: Grid)
    requires Spectrum(pd1d1, g4)
    requires |b1| == |b2| == |bs| == |c1| == |c2| == |cd| == |g4|
    requires Tuple(ta, 4, |pd1d1|) && Tuple(mix, 4, |pd1d1|)
    ensures IsGrid(r, |pd1d1|, |g4|)
  {
    var a00e, c00e := ta[0], ta[1];
    var a0e2, b0e2 := mix[0], mix[1];
    seq(|pd1d1|, i requires 0 <= i < |pd1d1| =>
      seq(|g4|, j requires 0 <= j < |g4| =>
        b1[j] * (c1[j] * pd1d1[i][j]
                 + (g4[j] * cd[j]) * (a00e[i] + c00e[i])
                 + (g4[j] * c2[j]) * (a0e2[i] + b0e2[i]))))
  }

  /** `pgi` is `pim` scaled by the number-counts linear bias, entry by
      entry; with `b1 = 1` the two coincide. */
  lemma PgiIsLinearlyBiasedPim(pd1d1: Grid, g4: Vec, b1: Vec, b2: Vec, bs: Vec,
                                c1: Vec, c2: Vec, cd: Vec, ta: seq<Vec>, mix: seq<Vec>)
    requires Spectrum(pd1d1, g4)
    requires |b1| == |b2| == |bs| == |c1| == |c2| == |cd| == |g4|
    requires Tuple(ta, 4, |pd1d1|) && Tuple(mix, 4, |pd1d1|)
    ensures forall i, j :: 0 <= i < |pd1d1| && 0 <= j < |g4| ==>
      Pgi(pd1d1, g4, b1, b2, bs, c1, c2, cd, ta, mix)[i][j]
      == b1[j] * Pim(pd1d1, g4, c1, c2, cd, ta, mix)[i][j]
    ensures (forall j :: 0 <= j < |g4| ==> b1[j] == 1.0) ==>
      Pgi(pd1d1, g4, b1, b2, bs, c1, c2, cd, ta, mix) == Pim(pd1d1, g4, c1, c2, cd, ta, mix)
  {
    var p := Pgi(pd1d1, g4, b1, b2, bs, c1, c2, cd, ta, mix);
    var q := Pim(pd1d1, g4, c1, c2, cd, ta, mix);
    if forall j :: 0 <= j < |g4| ==> b1[j] == 1.0 {
      forall i | 0 <= i < |pd1d1|
        ensures p[i] == q[i]
      {
        forall j | 0 <= j < |g4|
          ensures p[i][j] == q[i][j]
        {
        }
      }
    }
  }

  /** `pgi` does not depend on the second-order or tidal number-counts
      bias. */
  lemma PgiIgnoresHigherBias(pd1d1: Grid, g4: Vec, b1: Vec, b2: Vec, bs: Vec,
                             b2': Vec, bs': Vec,
                             c1: Vec, c2: Vec, cd: Vec, ta: seq<Vec>, mix: seq<Vec>)
    requires Spectrum(pd1d1, g4)
    requires |b1| == |b2| == |bs| == |b2'| == |bs'| == |c1| == |c2| == |cd| == |g4|
    requires Tuple(ta, 4, |pd1d1|) && Tuple(mix, 4, |pd1d1|)
    ensures Pgi(pd1d1, g4, b1, b2, bs, c1, c2, cd, ta, mix)
         == Pgi(pd1d1, g4, b1, b2', bs', c1, c2, cd, ta, mix)
  {
  }

  // ---------------------------------------------------------------------
  // Intrinsic alignments x intrinsic alignments

  /** `get_pii`: the intrinsic-alignment auto- (or cross-) spectrum, from
      `ia_ta = (a00e, c00e, a0e0e, a0b0b)`, `ia_tt = (ae2e2, ab2b2)` and
      `ia_mix = (a0e2, b0e2, d0ee2, d0bb2)`; the E-mode, or the B-mode when
      `returnBB`. The B-mode coefficient of `d0bb2` is
      `cd1 c22 + cd1 c21`, as the source has it. */
  function Pii(pd1d1: Grid, g4: Vec, c11: Vec, c21: Vec, cd1: Vec,
               c12: Vec, c22: Vec, cd2: Vec,
               ta: seq<Vec>, tt: seq<Vec>, mix: seq<Vec>, returnBB: bool): (r: Grid)
    requires Spectrum(pd1d1, g4)
    requires |c11| == |c21| == |cd1| == |c12| == |c22| == |cd2| == |g4|
    requires Tuple(ta, 4, |pd1d1|) && Tuple(tt, 2, |pd1d1|) && Tuple(mix, 4, |pd1d1|)
    ensures IsGrid(r, |pd1d1|, |g4|)
  {
    var a00e, c00e, a0e0e, a0b0b := ta[0], ta[1], ta[2], ta[3];
    var ae2e2, ab2b2 := tt[0], tt[1];
    var a0e2, b0e2, d0ee2, d0bb2 := mix[0], mix[1], mix[2], mix[3];
    if returnBB then
      seq(|pd1d1|, i requires 0 <= i < |pd1d1| =>
        seq(|g4|, j requires 0 <= j < |g4| =>
          (cd1[j] * cd2[j]) * a0b0b[i]
          + (cd1[j] * c22[j] * g4[j]) * ab2b2[i]
          + ((cd1[j] * c22[j] + cd1[j] * c21[j]) * g4[j]) * d0bb2[i]))
    else
      seq(|pd1d1|, i requires 0 <= i < |pd1d1| =>
        seq(|g4|, j requires 0 <= j < |g4| =>
          (c11[j] * c12[j] * g4[j]) * pd1d1[i][j]
          + ((c11[j] * cd2[j] + c12[j] * cd1[j]) * g4[j]) * (a00e[i] + c00e[i])
          + (cd1[j] * cd2[j] * g4[j]) * a0e0e[i]
          + (c21[j] * c22[j] * g4[j]) * ae2e2[i]
          + ((c11[j] * c22[j] + c21[j] * c12[j]) * g4[j]) * (a0e2[i] + b0e2[i])
          + ((cd1[j] * c22[j] + cd2[j] * c21[j]) * g4[j]) * d0ee2[i]))
  }

  /** The E-mode `pii` is symmetric in its two tracers. */
  lemma PiiEModeSymmetric(pd1d1: Grid, g4: Vec, c11: Vec, c21: Vec, cd1: Vec,
                          c12: Vec, c22: Vec, cd2: Vec,
                          ta: seq<Vec>, tt: seq<Vec>, mix: seq<Vec>)
    requires Spectrum(pd1d1, g4)
    requires |c11| == |c21| == |cd1| == |c12| == |c22| == |cd2| == |g4|
    requires Tuple(ta, 4, |pd1d1|) && Tuple(tt, 2, |pd1d1|) && Tuple(mix, 4, |pd1d1|)
    ensures Pii(pd1d1, g4, c11, c21, cd1, c12, c22, cd2, ta, tt, mix, false)
         == Pii(pd1d1, g4, c12, c22, cd2, c11, c21, cd1, ta, tt, mix, false)
  {
    var p := Pii(pd1d1, g4, c11, c21, cd1, c12, c22, cd2, ta, tt, mix, false);
    var q := Pii(pd1d1, g4, c12, c22, cd2, c11, c21, cd1, ta, tt, mix, false);
    forall i | 0 <= i < |pd1d1|
      ensures p[i] == q[i]
    {
      forall j | 0 <= j < |g4|
        ensures p[i][j] == q[i][j]
      {
      }
    }
  }

  /** The B-mode `pii` depends on neither `Pd1d1` nor the linear alignment
      biases `c11`, `c12`. */
  lemma PiiBModeIgnoresLinearTerms(pd1d1: Grid, g4: Vec, c11: Vec, c21: Vec, cd1: Vec,
                                   c12: Vec, c22: Vec, cd2: Vec,
                                   pd1d1': Grid, c11': Vec, c12': Vec,
                                   ta: seq<Vec>, tt: seq<Vec>, mix: seq<Vec>)
    requires Spectrum(pd1d1, g4) && IsGrid(pd1d1', |pd1d1|, |g4|)
    requires |c11| == |c21| == |cd1| == |c12| == |c22| == |cd2| == |c11'| == |c12'| == |g4|
    requires Tuple(ta, 4, |pd1d1|) && Tuple(tt, 2, |pd1d1|) && Tuple(mix, 4, |pd1d1|)
    ensures Pii(pd1d1, g4, c11, c21, cd1, c12, c22, cd2, ta, tt, mix, true)
         == Pii(pd1d1', g4, c11', c21, cd1, c12', c22, cd2, ta, tt, mix, true)
  {
  }

  /** Unlike the E-mode, the B-mode as written is not symmetric in its two
      tracers, through either of two coefficients. With one redshift, one
      wavenumber, `g4 = 1` and `Pd1d1 = 0`:
      - the `d0bb2` coefficient `cd1 c22 + cd1 c21`: with all correlators `1`,
        the first tracer `(c1, c2, cd) = (0, 1, 1)` and the second `(0, 0, 0)`,
        swapping the tracers turns `1` into `0`;
      - the `ab2b2` coefficient `cd1 c22`: with `d0bb2 = 0`, the other
        correlators `1`, the first tracer `(0, 0, 1)` and the second
        `(0, 1, 0)`, swapping the tracers turns `1` into `0`. */
  lemma PiiBModeNotSymmetric()
    ensures Pii([[0.0]], [1.0], [0.0], [1.0], [1.0], [0.0], [0.0], [0.0],
                [[1.0], [1.0], [1.0], [1.0]], [[1.0], [1.0]], [[1.0], [1.0], [1.0], [1.0]], true)
            == [[1.0]]
    ensures Pii([[0.0]], [1.0], [0.0], [0.0], [0.0], [0.0], [1.0], [1.0],
                [[1.0], [1.0], [1.0], [1.0]], [[1.0], [1.0]], [[1.0], [1.0], [1.0], [1.0]], true)
            == [[0.0]]
    ensures Pii([[0.0]], [1.0], [0.0], [0.0], [1.0], [0.0], [1.0], [0.0],
                [[1.0], [1.0], [1.0], [1.0]], [[1.0], [1.0]], [[1.0], [1.0], [1.0], [0.0]], true)
            == [[1.0]]
    ensures Pii([[0.0]], [1.0], [0.0], [1.0], [0.0], [0.0], [0.0], [1.0],
                [[1.0], [1.0], [1.0], [1.0]], [[1.0], [1.0]], [[1.0], [1.0], [1.0], [0.0]], true)
            == [[0.0]]
  {
    var ta := [[1.0], [1.0], [1.0], [1.0]];
    var tt := [[1.0], [1.0]];
    var mix := [[1.0], [1.0], [1.0], [0.0]];
    var p := Pii([[0.0]], [1.0], [0.0], [1.0], [1.0], [0.0], [0.0], [0.0], ta, tt, ta, true);
    var q := Pii([[0.0]], [1.0], [0.0], [0.0], [0.0], [0.0], [1.0], [1.0], ta, tt, ta, true);
    assert p[0] == [1.0];
    assert q[0] == [0.0];
    var p' := Pii([[0.0]], [1.0], [0.0], [0.0], [1.0], [0.0], [1.0], [0.0], ta, tt, mix, true);
    var q' := Pii([[0.0]], [1.0], [0.0], [1.0], [0.0], [0.0], [0.0], [1.0], ta, tt, mix, true);
    assert p'[0] == [1.0];
    assert q'[0] == [0.0];
  }

  /** Against an alignment tracer with `c1 = 1` and no higher bias, the
      E-mode `pii` differs from `pim` only through the factor `g4` that
      `pii` puts on its `Pd1d1` term: the difference is
      `(g4 - 1) c1 Pd1d1`. */
  lemma PiiUnitTracerVersusPim(pd1d1: Grid, g4: Vec, c1: Vec, c2: Vec, cd: Vec,
                               ta: seq<Vec>, tt: seq<Vec>, mix: seq<Vec>)
    requires Spectrum(pd1d1, g4)
    requires |c1| == |c2| == |cd| == |g4|
    requires Tuple(ta, 4, |pd1d1|) && Tuple(tt, 2, |pd1d1|) && Tuple(mix, 4, |pd1d1|)
    ensures forall i, j :: 0 <= i < |pd1d1| && 0 <= j < |g4| ==>
      Pii(pd1d1, g4, c1, c2, cd, Ones(|g4|), Zeros(|g4|), Zeros(|g4|), ta, tt, mix, false)[i][j]
      == Pim(pd1d1, g4, c1, c2, cd, ta, mix)[i][j] + (g4[j] - 1.0) * c1[j] * pd1d1[i][j]
  {
  }
}
