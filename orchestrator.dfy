/** `get_pt_pk2d`: fill in the defaults, check the argument types and the
    calculator's features, refresh the calculator's caches with the linear
    spectrum at `a = 1`, build `Pd1d1` and `g4`, dispatch on the ordered pair
    of tracer types, and hand the transposed grid to the output spectrum. */
module Orchestrator {
  import opened Wrappers
  import opened Grids
  import opened Formulas
  import opened Calculator

  // ---------------------------------------------------------------------
  // Collaborators

  /** The cosmology, through the calls the core makes on it. Wavenumbers are
      given by their decimal logarithms. `splineA` is the scale-factor
      sampling of the cosmology's own splines (the default `a_arr`). */
  datatype Cosmology = Cosmology(
    linearPower: (real, real) -> real,
    nonlinPower: (real, real) -> real,
    growthFactor: real -> real,
    splineA: Vec)
  {
    ghost predicate Valid()
    {
      ScaleFactors(splineA)
    }
  }

  /** A usable scale-factor sampling: non-empty, and free of `a = 0`. */
  ghost predicate ScaleFactors(a: Vec)
  {
    |a| > 0 && forall j :: 0 <= j < |a| ==> a[j] != 0.0
  }

  /** A tracer of the closed set of PT tracer types, with its bias functions
      of redshift: number counts `(b1, b2, bs)`, intrinsic alignments
      `(c1, c2, cdelta)`, or matter (no biases). */
  datatype PTTracer =
    | NumberCounts(b1: real -> real, b2: real -> real, bs: real -> real)
    | IntrinsicAlignment(c1: real -> real, c2: real -> real, cdelta: real -> real)
    | Matter

  /** A Python argument that is omitted (`None`), of the expected type, or of
      some other type. */
  datatype Arg<+T> = Missing | Given(value: T) | WrongType

  /** What is handed to `Pk2D`: the scale factors, the wavenumber axis (by the
      decimal logarithms of its points), the `(N_a, N_k)` power grid and the
      storage flag `is_logp`. */
  datatype Pk2D = Pk2D(aArr: Vec, log10kArr: Vec, pkArr: Grid, isLogp: bool)

  const Tracer1Message := "tracer1 must be of type `PTTracer`"
  const Tracer2Message := "tracer2 must be of type `PTTracer`"
  const PtcMessage := "ptc should be of type `PTCalculator`"
  const NeedNcMessage := "Need number counts bias, but workspace didn't compute it"
  const NeedIaMessage := "Need intrinsic alignment bias, but workspace didn't compute it"
  const PgiWarning := "The full non-linear model for the cross-correlation between number counts and intrinsic alignments is still work in progress in FastPT. As a workaround CCL assumes a non-linear treatment of IAs, but only linearly biased number counts."

  // ---------------------------------------------------------------------
  // The arrays get_pt_pk2d prepares

  /** `tracer2` defaults to `tracer1`. */
  function SecondTracer(tracer1: Arg<PTTracer>, tracer2: Arg<PTTracer>): (t2: Arg<PTTracer>)
    ensures tracer2.Missing? ==> t2 == tracer1
    ensures !tracer2.Missing? ==> t2 == tracer2
  {
    if tracer2.Missing? then tracer1 else tracer2
  }

  /** `a_arr` defaults to the cosmology's spline sampling. */
  function ScaleFactorSamples(cosmo: Cosmology, aArr: Option<Vec>): (a: Vec)
    ensures aArr.Some? ==> a == aArr.value
    ensures aArr.None? ==> a == cosmo.splineA
  {
    if aArr.Some? then aArr.value else cosmo.splineA
  }

  /** `z_arr = 1 / a_arr - 1`. */
  function Redshifts(a: Vec): (z: Vec)
    requires forall j :: 0 <= j < |a| ==> a[j] != 0.0
    ensures |z| == |a|
    ensures forall j :: 0 <= j < |a| ==> z[j] == 1.0 / a[j] - 1.0
  {
    seq(|a|, j requires 0 <= j < |a| => 1.0 / a[j] - 1.0)
  }

  /** Each redshift gives back its scale factor: `a = 1 / (1 + z)`. */
  lemma RedshiftsInvert(a: Vec)
    requires forall j :: 0 <= j < |a| ==> a[j] != 0.0
    ensures forall j :: 0 <= j < |a| ==>
      1.0 + Redshifts(a)[j] != 0.0 && 1.0 / (1.0 + Redshifts(a)[j]) == a[j]
  {
    var z := Redshifts(a);
    forall j | 0 <= j < |a|
      ensures 1.0 + z[j] != 0.0 && 1.0 / (1.0 + z[j]) == a[j]
    {
      assert 1.0 + z[j] == 1.0 / a[j];
    }
  }

  /** `ga4 = (ga**2)**2` with `ga` the growth factor at each scale factor. */
  function GrowthFourth(cosmo: Cosmology, a: Vec): (g4: Vec)
    ensures |g4| == |a|
    ensures forall j :: 0 <= j < |a| ==>
      g4[j] == (cosmo.growthFactor(a[j]) * cosmo.growthFactor(a[j]))
               * (cosmo.growthFactor(a[j]) * cosmo.growthFactor(a[j]))
  {
    var ga := Map(cosmo.growthFactor, a);
    var ga2 := seq(|a|, j requires 0 <= j < |a| => ga[j] * ga[j]);
    seq(|a|, j requires 0 <= j < |a| => ga2[j] * ga2[j])
  }

  /** `g4` is the fourth power of the growth factor, hence never negative. */
  lemma GrowthFourthIsFourthPower(cosmo: Cosmology, a: Vec)
    ensures forall j :: 0 <= j < |a| ==>
      var g := cosmo.growthFactor(a[j]);
      GrowthFourth(cosmo, a)[j] == g * g * g * g && GrowthFourth(cosmo, a)[j] >= 0.0
  {
    forall j | 0 <= j < |a|
      ensures var g := cosmo.growthFactor(a[j]);
              GrowthFourth(cosmo, a)[j] == g * g * g * g && GrowthFourth(cosmo, a)[j] >= 0.0
    {
      var g := cosmo.growthFactor(a[j]);
      var g2 := g * g;
      assert g2 >= 0.0;
      assert GrowthFourth(cosmo, a)[j] == g2 * g2;
    }
  }

  /** `linear_matter_power(cosmo, ks, a)` (or its non-linear twin): the
      spectrum `power` on every grid point at one scale factor. */
  function PowerOnGrid(power: (real, real) -> real, log10ks: Vec, a: real): (p: Vec)
    ensures |p| == |log10ks|
    ensures forall i :: 0 <= i < |log10ks| ==> p[i] == power(log10ks[i], a)
  {
    seq(|log10ks|, i requires 0 <= i < |log10ks| => power(log10ks[i], a))
  }

  /** The spectra `power` at each scale factor, stacked: row `j` is the
      spectrum at `a[j]` on the grid. */
  function SpectraByScaleFactor(power: (real, real) -> real, log10ks: Vec, a: Vec): (rows: Grid)
    ensures IsGrid(rows, |a|, |log10ks|)
    ensures forall j :: 0 <= j < |a| ==> rows[j] == PowerOnGrid(power, log10ks, a[j])
  {
    seq(|a|, j requires 0 <= j < |a| => PowerOnGrid(power, log10ks, a[j]))
  }

  /** `Pd1d1`: one spectrum per scale factor, stacked and transposed. */
  function MatterPowerGrid(cosmo: Cosmology, log10ks: Vec, a: Vec, useNonlin: bool): (pd: Grid)
    ensures IsGrid(pd, |log10ks|, |a|)
    ensures forall i, j :: 0 <= i < |log10ks| && 0 <= j < |a| ==>
      pd[i][j] == if useNonlin then cosmo.nonlinPower(log10ks[i], a[j]) else cosmo.linearPower(log10ks[i], a[j])
  {
    var power := if useNonlin then cosmo.nonlinPower else cosmo.linearPower;
    var rows := SpectraByScaleFactor(power, log10ks, a);
    var pd := Transpose(rows, |a|, |log10ks|);
    assert forall i, j :: 0 <= i < |log10ks| && 0 <= j < |a| ==>
      pd[i][j] == rows[j][i] == PowerOnGrid(power, log10ks, a[j])[i];
    pd
  }

  // ---------------------------------------------------------------------
  // Dispatch on the pair of tracer types

  /** The pair needs the number-counts cache. */
  predicate NeedsNC(t1: PTTracer, t2: PTTracer)
  {
    t1.NumberCounts? || t2.NumberCounts?
  }

  /** The pair needs the intrinsic-alignment caches. */
  predicate NeedsIA(t1: PTTracer, t2: PTTracer)
  {
    t1.IntrinsicAlignment? || t2.IntrinsicAlignment?
  }

  /** The pair is computed by `get_pgi`, which warns. */
  predicate UsesPgi(t1: PTTracer, t2: PTTracer)
  {
    (t1.NumberCounts? && t2.IntrinsicAlignment?) || (t1.IntrinsicAlignment? && t2.NumberCounts?)
  }

  /** The if/elif chain of `get_pt_pk2d` over `(tracer1.type, tracer2.type)`:
      exactly one formula per ordered pair. A number-counts tracer's tidal
      bias is read from its `b2` function, as in the source. */
  function Combine(t1: PTTracer, t2: PTTracer, z: Vec, pd1d1: Grid, g4: Vec,
                   c: Correlators, subLowk: bool, returnBB: bool): (r: Grid)
    requires Spectrum(pd1d1, g4) && |z| == |g4|
    requires c.Ready(|pd1d1|, NeedsNC(t1, t2), NeedsIA(t1, t2))
    ensures IsGrid(r, |pd1d1|, |g4|)
  {
    match (t1, t2)
    case (NumberCounts(_, _, _), NumberCounts(_, _, _)) =>
      Pgg(pd1d1, g4, Map(t1.b1, z), Map(t1.b2, z), Map(t1.b2, z),
          Map(t2.b1, z), Map(t2.b2, z), Map(t2.b2, z), c.ddBias.value, subLowk)
    case (NumberCounts(_, _, _), IntrinsicAlignment(_, _, _)) =>
      Pgi(pd1d1, g4, Map(t1.b1, z), Map(t1.b2, z), Map(t1.b2, z),
          Map(t2.c1, z), Map(t2.c2, z), Map(t2.cdelta, z), c.iaTa.value, c.iaMix.value)
    case (NumberCounts(_, _, _), Matter) =>
      Pgm(pd1d1, g4, Map(t1.b1, z), Map(t1.b2, z), Map(t1.b2, z), c.ddBias.value)
    case (IntrinsicAlignment(_, _, _), IntrinsicAlignment(_, _, _)) =>
      Pii(pd1d1, g4, Map(t1.c1, z), Map(t1.c2, z), Map(t1.cdelta, z),
          Map(t2.c1, z), Map(t2.c2, z), Map(t2.cdelta, z),
          c.iaTa.value, c.iaTt.value, c.iaMix.value, returnBB)
    case (IntrinsicAlignment(_, _, _), NumberCounts(_, _, _)) =>
      Pgi(pd1d1, g4, Map(t2.b1, z), Map(t2.b2, z), Map(t2.b2, z),
          Map(t1.c1, z), Map(t1.c2, z), Map(t1.cdelta, z), c.iaTa.value, c.iaMix.value)
    case (IntrinsicAlignment(_, _, _), Matter) =>
      Pim(pd1d1, g4, Map(t1.c1, z), Map(t1.c2, z), Map(t1.cdelta, z), c.iaTa.value, c.iaMix.value)
    case (Matter, NumberCounts(_, _, _)) =>
      Pgm(pd1d1, g4, Map(t2.b1, z), Map(t2.b2, z), Map(t2.b2, z), c.ddBias.value)
    case (Matter, IntrinsicAlignment(_, _, _)) =>
      Pim(pd1d1, g4, Map(t2.c1, z), Map(t2.c2, z), Map(t2.cdelta, z), c.iaTa.value, c.iaMix.value)
    case (Matter, Matter) =>
      pd1d1
  }

  /** Matter x matter is `Pd1d1` itself. */
  lemma CombineMatterMatter(z: Vec, pd1d1: Grid, g4: Vec, c: Correlators, subLowk: bool, returnBB: bool)
    requires Spectrum(pd1d1, g4) && |z| == |g4|
    ensures Combine(Matter, Matter, z, pd1d1, g4, c, subLowk, returnBB) == pd1d1
  {
  }

  /** Intrinsic alignments x number counts is computed as number counts x
      intrinsic alignments with the tracers swapped. */
  lemma CombineIaNcIsSwappedNcIa(t1: PTTracer, t2: PTTracer, z: Vec, pd1d1: Grid, g4: Vec,
                                 c: Correlators, subLowk: bool, returnBB: bool)
    requires t1.IntrinsicAlignment? && t2.NumberCounts?
    requires Spectrum(pd1d1, g4) && |z| == |g4|
    requires c.Ready(|pd1d1|, true, true)
    ensures Combine(t1, t2, z, pd1d1, g4, c, subLowk, returnBB)
         == Combine(t2, t1, z, pd1d1, g4, c, subLowk, returnBB)
  {
  }

  /** Every pairing is symmetric in its two tracers except the
      intrinsic-alignment B-mode (see `Formulas.PiiBModeNotSymmetric`). */
  lemma CombineSymmetric(t1: PTTracer, t2: PTTracer, z: Vec, pd1d1: Grid, g4: Vec,
                         c: Correlators, subLowk: bool, returnBB: bool)
    requires Spectrum(pd1d1, g4) && |z| == |g4|
    requires c.Ready(|pd1d1|, NeedsNC(t1, t2), NeedsIA(t1, t2))
    requires !(t1.IntrinsicAlignment? && t2.IntrinsicAlignment? && returnBB)
    ensures Combine(t1, t2, z, pd1d1, g4, c, subLowk, returnBB)
         == Combine(t2, t1, z, pd1d1, g4, c, subLowk, returnBB)
  {
    match (t1, t2)
    case (NumberCounts(_, _, _), NumberCounts(_, _, _)) =>
      PggSymmetric(pd1d1, g4, Map(t1.b1, z), Map(t1.b2, z), Map(t1.b2, z),
                   Map(t2.b1, z), Map(t2.b2, z), Map(t2.b2, z), c.ddBias.value, subLowk);
    case (IntrinsicAlignment(_, _, _), IntrinsicAlignment(_, _, _)) =>
      PiiEModeSymmetric(pd1d1, g4, Map(t1.c1, z), Map(t1.c2, z), Map(t1.cdelta, z),
                        Map(t2.c1, z), Map(t2.c2, z), Map(t2.cdelta, z),
                        c.iaTa.value, c.iaTt.value, c.iaMix.value);
    case _ =>
  }

  /** A number-counts tracer's own tidal-bias function is never read, in
      either position: the result is the same whatever `bs` it carries. */
  lemma CombineIgnoresTidalBiasFunction(b1: real -> real, b2: real -> real, bs: real -> real,
                                        bs': real -> real, t2: PTTracer, z: Vec, pd1d1: Grid,
                                        g4: Vec, c: Correlators, subLowk: bool, returnBB: bool)
    requires Spectrum(pd1d1, g4) && |z| == |g4|
    requires c.Ready(|pd1d1|, true, NeedsIA(NumberCounts(b1, b2, bs), t2))
    ensures Combine(NumberCounts(b1, b2, bs), t2, z, pd1d1, g4, c, subLowk, returnBB)
         == Combine(NumberCounts(b1, b2, bs'), t2, z, pd1d1, g4, c, subLowk, returnBB)
    ensures Combine(t2, NumberCounts(b1, b2, bs), z, pd1d1, g4, c, subLowk, returnBB)
         == Combine(t2, NumberCounts(b1, b2, bs'), z, pd1d1, g4, c, subLowk, returnBB)
  {
  }

  /** The grid handed to `Pk2D`: the combined `(N_k, N_a)` grid, transposed
      to `(N_a, N_k)`. */
  function PtGrid(cosmo: Cosmology, t1: PTTracer, t2: PTTracer, log10ks: Vec, c: Correlators,
                  a: Vec, subLowk: bool, useNonlin: bool, returnBB: bool): (r: Grid)
    requires forall j :: 0 <= j < |a| ==> a[j] != 0.0
    requires c.Ready(|log10ks|, NeedsNC(t1, t2), NeedsIA(t1, t2))
    ensures IsGrid(r, |a|, |log10ks|)
  {
    var pd := MatterPowerGrid(cosmo, log10ks, a, useNonlin);
    Transpose(Combine(t1, t2, Redshifts(a), pd, GrowthFourth(cosmo, a), c, subLowk, returnBB),
              |log10ks|, |a|)
  }

  /** For two matter tracers the output reproduces the matter spectrum
      exactly: row `j` is the spectrum at `a[j]` on every grid point, so the
      output is the per-scale-factor spectra stacked, the transpose of
      `Pd1d1` undone by the final transpose. */
  lemma MatterMatterReproducesPower(cosmo: Cosmology, log10ks: Vec, c: Correlators, a: Vec,
                                    subLowk: bool, useNonlin: bool, returnBB: bool)
    requires forall j :: 0 <= j < |a| ==> a[j] != 0.0
    ensures forall j, i :: 0 <= j < |a| && 0 <= i < |log10ks| ==>
      PtGrid(cosmo, Matter, Matter, log10ks, c, a, subLowk, useNonlin, returnBB)[j][i]
      == if useNonlin then cosmo.nonlinPower(log10ks[i], a[j]) else cosmo.linearPower(log10ks[i], a[j])
    ensures PtGrid(cosmo, Matter, Matter, log10ks, c, a, subLowk, useNonlin, returnBB)
         == SpectraByScaleFactor(if useNonlin then cosmo.nonlinPower else cosmo.linearPower, log10ks, a)
  {
    var pd := MatterPowerGrid(cosmo, log10ks, a, useNonlin);
    CombineMatterMatter(Redshifts(a), pd, GrowthFourth(cosmo, a), c, subLowk, returnBB);
    var rows := SpectraByScaleFactor(if useNonlin then cosmo.nonlinPower else cosmo.linearPower, log10ks, a);
    assert pd == Transpose(rows, |a|, |log10ks|);
    TransposeInvolution(rows, |a|, |log10ks|);
  }

  // ---------------------------------------------------------------------
  // get_pt_pk2d

  /** A calculator's caches after `update_pk` of `pkLin`, given its flags. */
  ghost predicate Refreshed(pc: PTCalculator, pkLin: Vec)
    reads pc
  {
    && (pc.withNC ==> pc.ddBias == Some(pc.pt.oneLoopDdBias(pkLin, pc.pWindow, pc.cWindow)))
    && (pc.withIA ==>
          && pc.iaTa == Some(pc.pt.iaTa(pkLin, pc.pWindow, pc.cWindow))
          && pc.iaTt == Some(pc.pt.iaTt(pkLin, pc.pWindow, pc.cWindow))
          && pc.iaMix == Some(pc.pt.iaMix(pkLin, pc.pWindow, pc.cWindow)))
  }

  /** The part of `get_pt_pk2d` after the argument checks: refresh the
      calculator with the linear spectrum at `a = 1`, then combine and
      transpose. */
  method ComputePk2d(cosmo: Cosmology, t1: PTTracer, t2: PTTracer, pc: PTCalculator, a: Vec,
                     subLowk: bool, useNonlin: bool, returnIaBB: bool)
    returns (res: Pk2D, warnings: seq<string>)
    requires pc.Valid() && ScaleFactors(a)
    requires NeedsNC(t1, t2) ==> pc.withNC
    requires NeedsIA(t1, t2) ==> pc.withIA
    modifies pc`ddBias, pc`iaTa, pc`iaTt, pc`iaMix
    ensures pc.Valid()
    ensures Refreshed(pc, PowerOnGrid(cosmo.linearPower, pc.log10ks, 1.0))
    ensures !pc.withNC ==> pc.ddBias == old(pc.ddBias)
    ensures !pc.withIA ==> pc.iaTa == old(pc.iaTa) && pc.iaTt == old(pc.iaTt) && pc.iaMix == old(pc.iaMix)
    ensures pc.Cache().Ready(|pc.log10ks|, NeedsNC(t1, t2), NeedsIA(t1, t2))
    ensures res == Pk2D(a, pc.log10ks,
                        PtGrid(cosmo, t1, t2, pc.log10ks, pc.Cache(), a, subLowk, useNonlin, returnIaBB),
                        false)
    ensures warnings == if UsesPgi(t1, t2) then [PgiWarning] else []
  {
    var zArr := Redshifts(a);
    var pkLinZ0 := PowerOnGrid(cosmo.linearPower, pc.log10ks, 1.0);
    var refreshed := pc.UpdatePk(pkLinZ0);
    assert refreshed.Pass?;

    var ga4 := GrowthFourth(cosmo, a);
    var pd1d1 := MatterPowerGrid(cosmo, pc.log10ks, a, useNonlin);

    var pPt := Combine(t1, t2, zArr, pd1d1, ga4, pc.Cache(), subLowk, returnIaBB);
    warnings := [];
    if UsesPgi(t1, t2) {
      warnings := warnings + [PgiWarning];
    }
    res := Pk2D(a, pc.log10ks, Transpose(pPt, |pc.log10ks|, |a|), false);
  }

  /** A calculator as `PTCalculator()` builds it with every default: both
      flags set, the 120-point grid from `10^-4` to `10^2`, all three FAST-PT
      terms, `n_pad = 120`, no windows but `C_window = 0.75`, and an engine
      built with `low_extrap = -5` and `high_extrap = 3`. */
  ghost predicate IsDefault(pc: PTCalculator, newFastPT: FastPTSetup -> FastPT)
  {
    && pc.withNC && pc.withIA
    && pc.log10ks == LogGrid(-4.0, 2.0, 120) && pc.pWindow == None && pc.cWindow == 0.75
    && pc.toDo == ["one_loop_dd", "dd_bias", "IA"] && pc.nPad == 120.0
    && pc.pt == newFastPT(FastPTSetup(pc.log10ks, pc.toDo, -5.0, 3.0, pc.nPad))
  }

  /** `ptc = PTCalculator()`: a fresh calculator with every default and
      empty caches. */
  method DefaultCalculator(newFastPT: FastPTSetup -> FastPT) returns (pc: PTCalculator)
    requires forall s :: newFastPT(s).Sound(|s.log10ks|)
    ensures fresh(pc) && pc.Valid() && IsDefault(pc, newFastPT)
    ensures pc.ddBias == None && pc.iaTa == None && pc.iaTt == None && pc.iaMix == None
  {
    DefaultGridSize();
    pc := new PTCalculator(newFastPT);
  }

  /** `get_pt_pk2d`. `newFastPT` stands for the FAST-PT constructor, used when
      no calculator is passed. Besides the result, it returns the warnings
      issued and (as a ghost) the calculator it used. The extrapolation
      orders are accepted and, as in the source, not passed on. */
  method GetPtPk2d(cosmo: Cosmology, tracer1: Arg<PTTracer>, newFastPT: FastPTSetup -> FastPT,
                   ptc: Arg<PTCalculator> := Missing, tracer2: Arg<PTTracer> := Missing,
                   subLowk: bool := false, useNonlin: bool := true, aArr: Option<Vec> := None,
                   extrapOrderLok: int := 1, extrapOrderHik: int := 2, returnIaBB: bool := false)
    returns (r: Result<Pk2D, Error>, warnings: seq<string>, ghost used: PTCalculator?)
    requires cosmo.Valid()
    requires aArr.Some? ==> ScaleFactors(aArr.value)
    requires ptc.Given? ==> ptc.value.Valid()
    requires forall s :: newFastPT(s).Sound(|s.log10ks|)
    modifies if ptc.Given? then {ptc.value} else {}
    // type errors
    ensures !tracer1.Given? ==> r == Failure(TypeError(Tracer1Message))
    ensures tracer1.Given? && tracer2.WrongType? ==> r == Failure(TypeError(Tracer2Message))
    ensures tracer1.Given? && !tracer2.WrongType? && ptc.WrongType? ==> r == Failure(TypeError(PtcMessage))
    // feature errors
    ensures tracer1.Given? && !tracer2.WrongType? && ptc.Given? ==>
      var t1 := tracer1.value;
      var t2 := SecondTracer(tracer1, tracer2).value;
      if NeedsNC(t1, t2) && !ptc.value.withNC then r == Failure(ValueError(NeedNcMessage))
      else if NeedsIA(t1, t2) && !ptc.value.withIA then r == Failure(ValueError(NeedIaMessage))
      else r.Success?
    ensures tracer1.Given? && !tracer2.WrongType? && ptc.Missing? ==> r.Success?
    // every error is raised before the calculator is touched
    ensures r.Failure? ==> warnings == [] && (ptc.Given? ==> unchanged(ptc.value))
    // the calculator used
    ensures r.Success? ==> used != null && used.Valid()
    ensures r.Success? && ptc.Given? ==> used == ptc.value
    ensures r.Success? && ptc.Missing? ==>
      used != null && fresh(used) && IsDefault(used, newFastPT)
    // its caches: refreshed where its flags allow, untouched elsewhere
    ensures r.Success? ==> used != null && Refreshed(used, PowerOnGrid(cosmo.linearPower, used.log10ks, 1.0))
    ensures r.Success? && ptc.Given? && !ptc.value.withNC ==> ptc.value.ddBias == old(ptc.value.ddBias)
    ensures r.Success? && ptc.Given? && !ptc.value.withIA ==>
      ptc.value.iaTa == old(ptc.value.iaTa) && ptc.value.iaTt == old(ptc.value.iaTt)
      && ptc.value.iaMix == old(ptc.value.iaMix)
    // the spectrum handed to Pk2D, and the warning of get_pgi
    ensures r.Success? ==>
      && used != null && tracer1.Given? && SecondTracer(tracer1, tracer2).Given?
      && var t1 := tracer1.value;
         var t2 := SecondTracer(tracer1, tracer2).value;
         var a := ScaleFactorSamples(cosmo, aArr);
         && used.Cache().Ready(|used.log10ks|, NeedsNC(t1, t2), NeedsIA(t1, t2))
         && r.value == Pk2D(a, used.log10ks,
                            PtGrid(cosmo, t1, t2, used.log10ks, used.Cache(), a, subLowk, useNonlin, returnIaBB),
                            false)
         && warnings == (if UsesPgi(t1, t2) then [PgiWarning] else [])
  {
    warnings := [];
    used := null;
    var a := ScaleFactorSamples(cosmo, aArr);
    var second := SecondTracer(tracer1, tracer2);
    if !tracer1.Given? {
      return Failure(TypeError(Tracer1Message)), warnings, used;
    }
    if !second.Given? {
      return Failure(TypeError(Tracer2Message)), warnings, used;
    }
    var t1, t2 := tracer1.value, second.value;

    var pc: PTCalculator;
    if ptc.Missing? {
      pc := DefaultCalculator(newFastPT);
    } else if ptc.WrongType? {
      return Failure(TypeError(PtcMessage)), warnings, used;
    } else {
      pc := ptc.value;
    }

    if t1.NumberCounts? || t2.NumberCounts? {
      if !pc.withNC {
        return Failure(ValueError(NeedNcMessage)), warnings, used;
      }
    }
    if t1.IntrinsicAlignment? || t2.IntrinsicAlignment? {
      if !pc.withIA {
        return Failure(ValueError(NeedIaMessage)), warnings, used;
      }
    }

    var res;
    res, warnings := ComputePk2d(cosmo, t1, t2, pc, a, subLowk, useNonlin, returnIaBB);
    used := pc;
    r := Success(res);
  }
}
