/** `PTCalculator`: the object that owns the logarithmic wavenumber grid,
    the FAST-PT engine built over it, and the four correlator caches that
    `update_pk` refreshes in place. */
module Calculator {
  import opened Wrappers
  import opened Grids
  import opened Formulas

  /** The exceptions raised by the core (`TypeError`, `ValueError`). */
  datatype Error = TypeError(message: string) | ValueError(message: string)

  const WrongShapeMessage := "Input spectrum has wrong shape"

  // ---------------------------------------------------------------------
  // The wavenumber grid

  /** Python's `int(x)` on a float: truncation toward zero. */
  function TruncateToInt(x: real): (n: int)
    ensures 0.0 <= x ==> n as real <= x < n as real + 1.0
    ensures x < 0.0 ==> n as real - 1.0 < x <= n as real
  {
    if 0.0 <= x then x.Floor else -((-x).Floor)
  }

  /** The number of grid points, `int((log10k_max - log10k_min) * nk_per_decade)`. */
  function NkTotal(log10kMin: real, log10kMax: real, nkPerDecade: real): (n: int)
    ensures var x := (log10kMax - log10kMin) * nkPerDecade;
            (0.0 <= x ==> n as real <= x < n as real + 1.0)
            && (x < 0.0 ==> n as real - 1.0 < x <= n as real)
  {
    TruncateToInt((log10kMax - log10kMin) * nkPerDecade)
  }

  /** An arithmetic progression `lo + i * step` is `step` apart from one
      point to the next, and strictly increasing when `step` is positive. */
  lemma ArithmeticProgression(r: Vec, lo: real, step: real)
    requires forall i :: 0 <= i < |r| ==> r[i] == lo + (i as real) * step
    ensures forall i :: 0 <= i < |r| - 1 ==> r[i + 1] - r[i] == step
    ensures step > 0.0 ==> forall i, j :: 0 <= i < j < |r| ==> r[i] < r[j]
  {
    forall i | 0 <= i < |r| - 1
      ensures r[i + 1] - r[i] == step
    {
      assert ((i + 1) as real) * step == (i as real) * step + step;
    }
    if step > 0.0 {
      forall i, j | 0 <= i < j < |r|
        ensures r[i] < r[j]
      {
        assert r[j] - r[i] == ((j - i) as real) * step;
      }
    }
  }

  /** The exponents of `np.logspace(lo, hi, n)`: `n` points evenly spaced
      from `lo` to `hi`, both included (only `lo` when `n == 1`). The grid
      of wavenumbers is `10` raised to these. */
  function LogGrid(lo: real, hi: real, n: nat): (r: Vec)
    ensures |r| == n
    ensures n >= 1 ==> r[0] == lo
    ensures n >= 2 ==> r[n - 1] == hi
    ensures lo < hi ==> forall i, j :: 0 <= i < j < n ==> r[i] < r[j]
    ensures n >= 2 ==> forall i :: 0 <= i < n - 1 ==> r[i + 1] - r[i] == (hi - lo) / ((n - 1) as real)
  {
    if n < 2 then seq(n, i requires 0 <= i < n => lo)
    else
      var step := (hi - lo) / ((n - 1) as real);
      var r := seq(n, i requires 0 <= i < n => lo + (i as real) * step);
      assert r[n - 1] == hi by {
        assert ((n - 1) as real) * step == hi - lo;
      }
      assert lo < hi ==> step > 0.0;
      ArithmeticProgression(r, lo, step);
      r
  }

  // ---------------------------------------------------------------------
  // The FAST-PT engine, as opaque functions with length guarantees

  /** The arguments `fpt.FASTPT(ks, to_do=..., low_extrap=..., high_extrap=...,
      n_pad=...)` is called with. */
  datatype FastPTSetup = FastPTSetup(log10ks: Vec, toDo: seq<string>,
                                     lowExtrap: real, highExtrap: real, nPad: real)

  /** The tapering window `P_window`: a pair, or `None`. */
  type PWindow = Option<(real, real)>

  /** A FAST-PT object: its four correlator routines, each a function of the
      input spectrum and the windows `P_window`, `C_window`. */
  datatype FastPT = FastPT(
    oneLoopDdBias: (Vec, PWindow, real) -> seq<Vec>,
    iaTa: (Vec, PWindow, real) -> seq<Vec>,
    iaTt: (Vec, PWindow, real) -> seq<Vec>,
    iaMix: (Vec, PWindow, real) -> seq<Vec>)
  {
    /** On a spectrum sampled on the `nk`-point grid, `one_loop_dd_bias`
        returns a `DdBundle` (7 vectors on the grid, then the scalar
        `sigma4`), and `IA_ta`, `IA_tt`, `IA_mix` return 4, 2 and 4 vectors
        sampled on the same grid. */
    ghost predicate Sound(nk: nat)
    {
      (forall pk, pw, cw :: |pk| == nk ==> DdBundle(oneLoopDdBias(pk, pw, cw), nk))
      && (forall pk, pw, cw :: |pk| == nk ==> Tuple(iaTa(pk, pw, cw), 4, nk))
      && (forall pk, pw, cw :: |pk| == nk ==> Tuple(iaTt(pk, pw, cw), 2, nk))
      && (forall pk, pw, cw :: |pk| == nk ==> Tuple(iaMix(pk, pw, cw), 4, nk))
    }
  }

  /** A `dd_bias` bundle: at least 8 elements; elements 0 to 6 are vectors
      on the `nk`-point grid and element 7 is the scalar `sigma4`, held as a
      one-element vector. */
  ghost predicate DdBundle(b: seq<Vec>, nk: nat)
  {
    |b| >= 8 && (forall t :: 0 <= t < 7 ==> |b[t]| == nk) && |b[7]| == 1
  }

  /** The four caches of a calculator, as one value. */
  datatype Correlators = Correlators(ddBias: Option<seq<Vec>>, iaTa: Option<seq<Vec>>,
                                     iaTt: Option<seq<Vec>>, iaMix: Option<seq<Vec>>)
  {
    /** The number-counts bundle is present when `nc`, the three
        intrinsic-alignment bundles when `ia`, all on the `nk`-point grid. */
    ghost predicate Ready(nk: nat, nc: bool, ia: bool)
    {
      (nc ==> ddBias.Some? && DdBundle(ddBias.value, nk))
      && (ia ==> iaTa.Some? && Tuple(iaTa.value, 4, nk)
                 && iaTt.Some? && Tuple(iaTt.value, 2, nk)
                 && iaMix.Some? && Tuple(iaMix.value, 4, nk))
    }
  }

  // ---------------------------------------------------------------------
  // The calculator

  class PTCalculator {
    const withNC: bool
    const withIA: bool
    const pWindow: PWindow
    const cWindow: real
    /** The FAST-PT term list built in the constructor. */
    const toDo: seq<string>
    /** The wavenumber grid, held by the decimal logarithms of its points. */
    const log10ks: Vec
    const nPad: real
    const pt: FastPT
    var ddBias: Option<seq<Vec>>
    var iaTa: Option<seq<Vec>>
    var iaTt: Option<seq<Vec>>
    var iaMix: Option<seq<Vec>>

    /** The engine is sound on the grid, and every cache that is present is
        sampled on the grid. */
    ghost predicate Valid()
      reads this
    {
      pt.Sound(|log10ks|)
      && (ddBias.Some? ==> DdBundle(ddBias.value, |log10ks|))
      && (iaTa.Some? ==> Tuple(iaTa.value, 4, |log10ks|))
      && (iaTt.Some? ==> Tuple(iaTt.value, 2, |log10ks|))
      && (iaMix.Some? ==> Tuple(iaMix.value, 4, |log10ks|))
    }

    /** The current caches. */
    function Cache(): (c: Correlators)
      reads this
      ensures c.ddBias == ddBias && c.iaTa == iaTa && c.iaTt == iaTt && c.iaMix == iaMix
    {
      Correlators(ddBias, iaTa, iaTt, iaMix)
    }

    /** `PTCalculator.__init__`. `newFastPT` stands for the FAST-PT
        constructor. */
    constructor (newFastPT: FastPTSetup -> FastPT,
                 withNC: bool := true, withIA: bool := true,
                 log10kMin: real := -4.0, log10kMax: real := 2.0, nkPerDecade: real := 20.0,
                 padFactor: real := 1.0, lowExtrap: real := -5.0, highExtrap: real := 3.0,
                 pWindow: PWindow := None, cWindow: real := 0.75)
      requires NkTotal(log10kMin, log10kMax, nkPerDecade) >= 0
      requires forall s :: newFastPT(s).Sound(|s.log10ks|)
      ensures Valid()
      ensures this.withNC == withNC && this.withIA == withIA
      ensures this.pWindow == pWindow && this.cWindow == cWindow
      ensures toDo == ["one_loop_dd"] + (if withNC then ["dd_bias"] else [])
                                      + (if withIA then ["IA"] else [])
      ensures "one_loop_dd" in toDo
      ensures "dd_bias" in toDo <==> withNC
      ensures "IA" in toDo <==> withIA
      ensures |log10ks| == NkTotal(log10kMin, log10kMax, nkPerDecade)
      ensures log10ks == LogGrid(log10kMin, log10kMax, |log10ks|)
      ensures nPad == padFactor * (|log10ks| as real)
      ensures pt == newFastPT(FastPTSetup(log10ks, toDo, lowExtrap, highExtrap, nPad))
      ensures ddBias == None && iaTa == None && iaTt == None && iaMix == None
    {
      this.withNC := withNC;
      this.withIA := withIA;
      this.pWindow := pWindow;
      this.cWindow := cWindow;
      var terms := ["one_loop_dd"];
      if withNC {
        terms := terms + ["dd_bias"];
      }
      if withIA {
        terms := terms + ["IA"];
      }
      var nkTotal := NkTotal(log10kMin, log10kMax, nkPerDecade);
      var ks := LogGrid(log10kMin, log10kMax, nkTotal);
      var pad := padFactor * (|ks| as real);
      toDo := terms;
      log10ks := ks;
      nPad := pad;
      pt := newFastPT(FastPTSetup(ks, terms, lowExtrap, highExtrap, pad));
      ddBias := None;
      iaTa := None;
      iaTt := None;
      iaMix := None;
    }

    /** `update_pk`: a spectrum not sampled on the grid raises `ValueError`
        and leaves every cache as it was; otherwise the number-counts cache
        is recomputed when `withNC`, the three alignment caches when
        `withIA`, and the others keep their values. */
    method UpdatePk(pk: Vec) returns (r: Outcome<Error>)
      requires Valid()
      modifies this`ddBias, this`iaTa, this`iaTt, this`iaMix
      ensures Valid()
      ensures r == if |pk| == |log10ks| then Pass else Fail(ValueError(WrongShapeMessage))
      ensures ddBias == if r.Pass? && withNC then Some(pt.oneLoopDdBias(pk, pWindow, cWindow)) else old(ddBias)
      ensures iaTa == if r.Pass? && withIA then Some(pt.iaTa(pk, pWindow, cWindow)) else old(iaTa)
      ensures iaTt == if r.Pass? && withIA then Some(pt.iaTt(pk, pWindow, cWindow)) else old(iaTt)
      ensures iaMix == if r.Pass? && withIA then Some(pt.iaMix(pk, pWindow, cWindow)) else old(iaMix)
      ensures r.Pass? ==> Cache().Ready(|log10ks|, withNC, withIA)
    {
      if |pk| != |log10ks| {
        return Fail(ValueError(WrongShapeMessage));
      }
      if withNC {
        GetDdBias(pk);
      }
      if withIA {
        GetIaBias(pk);
      }
      return Pass;
    }

    /** `_get_dd_bias`: recompute the number-counts cache. */
    method GetDdBias(pk: Vec)
      requires Valid() && |pk| == |log10ks|
      modifies this`ddBias
      ensures Valid()
      ensures ddBias == Some(pt.oneLoopDdBias(pk, pWindow, cWindow))
    {
      ddBias := Some(pt.oneLoopDdBias(pk, pWindow, cWindow));
    }

    /** `_get_ia_bias`: recompute the three intrinsic-alignment caches. */
    method GetIaBias(pk: Vec)
      requires Valid() && |pk| == |log10ks|
      modifies this`iaTa, this`iaTt, this`iaMix
      ensures Valid()
      ensures iaTa == Some(pt.iaTa(pk, pWindow, cWindow))
      ensures iaTt == Some(pt.iaTt(pk, pWindow, cWindow))
      ensures iaMix == Some(pt.iaMix(pk, pWindow, cWindow))
    {
      iaTa := Some(pt.iaTa(pk, pWindow, cWindow));
      iaTt := Some(pt.iaTt(pk, pWindow, cWindow));
      iaMix := Some(pt.iaMix(pk, pWindow, cWindow));
    }
  }

  /** The default calculator has `int((2 - (-4)) * 20) = 120` grid points. */
  lemma DefaultGridSize()
    ensures NkTotal(-4.0, 2.0, 20.0) == 120
  {
  }
}
