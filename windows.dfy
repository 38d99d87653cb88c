/**
  Window functions for sinc interpolation filters, and the relative cutoff
  frequency to use with each of them.

  A window of `npoints` coefficients is periodic: element x is a cosine sum in
  the angle 2 pi x / npoints, so the denominator is npoints and not
  npoints - 1. The squared variants square every coefficient of the matching
  base window. The cutoff is a rational fit in npoints with a fixed triple of
  constants per window function.
*/
module Windows {
  import opened Sample

  /** The six window functions a caller can select. */
  datatype WindowFunction =
    | Blackman
    | Blackman2
    | BlackmanHarris
    | BlackmanHarris2
    | Hann
    | Hann2

  /** The three variants that square the coefficients of a base window. */
  predicate IsSquared(f: WindowFunction) {
    f.Blackman2? || f.BlackmanHarris2? || f.Hann2?
  }

  /** The base variant a squared variant is derived from; a base variant maps to itself. */
  function Unsquared(f: WindowFunction): WindowFunction {
    match f
    case Blackman | Blackman2 => Blackman
    case BlackmanHarris | BlackmanHarris2 => BlackmanHarris
    case Hann | Hann2 => Hann
  }

  // ---------------------------------------------------------------------------
  // Element formulas.

  /**
    The angle (c pi) * x / npoints at which element x evaluates a cosine,
    given c pi as `scaledPi`; the generators use c = 2, 4 and 6.
  */
  function Angle(scaledPi: real, x: nat, npoints: nat): real
    requires x < npoints
  {
    scaledPi * (x as real) / (npoints as real)
  }

  function BlackmanHarrisAt(t: Trig, npoints: nat, x: nat): real
    requires x < npoints
  {
    0.35875 - 0.48829 * t.cos(Angle(2.0 * t.pi, x, npoints))
      + 0.14128 * t.cos(Angle(4.0 * t.pi, x, npoints))
      - 0.01168 * t.cos(Angle(6.0 * t.pi, x, npoints))
  }

  function BlackmanAt(t: Trig, npoints: nat, x: nat): real
    requires x < npoints
  {
    0.42 - 0.5 * t.cos(Angle(2.0 * t.pi, x, npoints)) + 0.08 * t.cos(Angle(4.0 * t.pi, x, npoints))
  }

  function HannAt(t: Trig, npoints: nat, x: nat): real
    requires x < npoints
  {
    0.5 - 0.5 * t.cos(Angle(2.0 * t.pi, x, npoints))
  }

  // ---------------------------------------------------------------------------
  // Whole windows as sequences.

  /** The periodic Blackman-Harris window of `npoints` coefficients. */
  function BlackmanHarrisWindow(t: Trig, npoints: nat): (w: seq<real>)
    ensures |w| == npoints
    ensures forall x :: 0 <= x < npoints ==> w[x] == BlackmanHarrisAt(t, npoints, x)
  {
    seq(npoints, x requires 0 <= x < npoints => BlackmanHarrisAt(t, npoints, x))
  }

  /** The periodic Blackman window of `npoints` coefficients. */
  function BlackmanWindow(t: Trig, npoints: nat): (w: seq<real>)
    ensures |w| == npoints
    ensures forall x :: 0 <= x < npoints ==> w[x] == BlackmanAt(t, npoints, x)
  {
    seq(npoints, x requires 0 <= x < npoints => BlackmanAt(t, npoints, x))
  }

  /** The periodic Hann window of `npoints` coefficients. */
  function HannWindow(t: Trig, npoints: nat): (w: seq<real>)
    ensures |w| == npoints
    ensures forall x :: 0 <= x < npoints ==> w[x] == HannAt(t, npoints, x)
  {
    seq(npoints, x requires 0 <= x < npoints => HannAt(t, npoints, x))
  }

  /** Every coefficient replaced by its square; none of them is negative afterwards. */
  function Squared(s: seq<real>): (r: seq<real>)
    ensures |r| == |s|
    ensures forall i :: 0 <= i < |s| ==> r[i] == s[i] * s[i] && r[i] >= 0.0
  {
    seq(|s|, i requires 0 <= i < |s| => s[i] * s[i])
  }

  /**
    The window each of the six variants stands for, one case per variant: a
    base variant is its generator's output unchanged, a squared variant is
    that output squared.
  */
  function Window(t: Trig, f: WindowFunction, npoints: nat): (w: seq<real>)
    ensures |w| == npoints
  {
    match f
    case BlackmanHarris => BlackmanHarrisWindow(t, npoints)
    case BlackmanHarris2 => Squared(BlackmanHarrisWindow(t, npoints))
    case Blackman => BlackmanWindow(t, npoints)
    case Blackman2 => Squared(BlackmanWindow(t, npoints))
    case Hann => HannWindow(t, npoints)
    case Hann2 => Squared(HannWindow(t, npoints))
  }

  // ---------------------------------------------------------------------------
  // The generators: each allocates `npoints` zeros and fills them in order.

  method BuildBlackmanHarris(t: Trig, npoints: nat) returns (window: array<real>)
    ensures fresh(window)
    ensures window[..] == BlackmanHarrisWindow(t, npoints)
  {
    window := new real[npoints](_ => 0.0);
    var pi2 := 2.0 * t.pi;
    var pi4 := 4.0 * t.pi;
    var pi6 := 6.0 * t.pi;
    var a, b, c, d := 0.35875, 0.48829, 0.14128, 0.01168;
    for x := 0 to npoints
      invariant forall j :: 0 <= j < x ==> window[j] == BlackmanHarrisAt(t, npoints, j)
    {
      window[x] := a - b * t.cos(Angle(pi2, x, npoints)) + c * t.cos(Angle(pi4, x, npoints))
        - d * t.cos(Angle(pi6, x, npoints));
    }
  }

  method BuildBlackman(t: Trig, npoints: nat) returns (window: array<real>)
    ensures fresh(window)
    ensures window[..] == BlackmanWindow(t, npoints)
  {
    window := new real[npoints](_ => 0.0);
    var pi2 := 2.0 * t.pi;
    var pi4 := 4.0 * t.pi;
    var a, b, c := 0.42, 0.5, 0.08;
    for x := 0 to npoints
      invariant forall j :: 0 <= j < x ==> window[j] == BlackmanAt(t, npoints, j)
    {
      window[x] := a - b * t.cos(Angle(pi2, x, npoints)) + c * t.cos(Angle(pi4, x, npoints));
    }
  }

  method BuildHann(t: Trig, npoints: nat) returns (window: array<real>)
    ensures fresh(window)
    ensures window[..] == HannWindow(t, npoints)
  {
    window := new real[npoints](_ => 0.0);
    var pi2 := 2.0 * t.pi;
    var a := 0.5;
    for x := 0 to npoints
      invariant forall j :: 0 <= j < x ==> window[j] == HannAt(t, npoints, j)
    {
      window[x] := a - a * t.cos(Angle(pi2, x, npoints));
    }
  }

  /**
    Dispatch to the generator of the selected variant, then square every
    coefficient in place when the variant is a squared one.
  */
  method MakeWindow(t: Trig, npoints: nat, f: WindowFunction) returns (window: array<real>)
    ensures fresh(window)
    ensures window.Length == npoints
    ensures window[..] == Window(t, f, npoints)
  {
    match f {
      case BlackmanHarris | BlackmanHarris2 =>
        window := BuildBlackmanHarris(t, npoints);
      case Blackman | Blackman2 =>
        window := BuildBlackman(t, npoints);
      case Hann | Hann2 =>
        window := BuildHann(t, npoints);
    }
    match f {
      case Blackman2 | BlackmanHarris2 | Hann2 =>
        SquareInPlace(window);
      case _ =>
    }
  }

  /** Replace every coefficient of `window` by its square, in place. */
  method SquareInPlace(window: array<real>)
    modifies window
    ensures window[..] == Squared(old(window[..]))
  {
    for i := 0 to window.Length
      invariant forall j :: 0 <= j < i ==> window[j] == old(window[j]) * old(window[j])
      invariant forall j :: i <= j < window.Length ==> window[j] == old(window[j])
    {
      window[i] := window[i] * window[i];
    }
    assert forall j :: 0 <= j < window.Length ==> window[..][j] == Squared(old(window[..]))[j];
  }

  // ---------------------------------------------------------------------------
  // Values at the start and at the middle of the window.

  /** In the middle of an even-length window the angle (c pi) * x / npoints is c pi / 2. */
  lemma HalfwayAngle(scaledPi: real, npoints: nat)
    requires npoints > 0 && npoints % 2 == 0
    ensures Angle(scaledPi, npoints / 2, npoints) == scaledPi / 2.0
  {
    var h := (npoints / 2) as real;
    assert npoints as real == 2.0 * h;
    assert scaledPi * h == (scaledPi / 2.0) * (2.0 * h);
  }

  /** At x = 0 every angle is 0, where cosine is 1. */
  lemma StartAngle(t: Trig, scaledPi: real, npoints: nat)
    requires t.Valid() && npoints > 0
    ensures t.cos(Angle(scaledPi, 0, npoints)) == 1.0
  {
    assert scaledPi * (0 as real) == 0.0;
  }

  /** The Blackman-Harris coefficients sum to 1, so the middle of an even-length window is 1. */
  lemma BlackmanHarrisPeak(t: Trig, npoints: nat)
    requires t.Valid() && npoints > 0 && npoints % 2 == 0
    ensures BlackmanHarrisWindow(t, npoints)[npoints / 2] == 1.0
  {
    HalfwayAngle(2.0 * t.pi, npoints);
    HalfwayAngle(4.0 * t.pi, npoints);
    HalfwayAngle(6.0 * t.pi, npoints);
  }

  /** The Blackman coefficients sum to 1, so the middle of an even-length window is 1. */
  lemma BlackmanPeak(t: Trig, npoints: nat)
    requires t.Valid() && npoints > 0 && npoints % 2 == 0
    ensures BlackmanWindow(t, npoints)[npoints / 2] == 1.0
  {
    HalfwayAngle(2.0 * t.pi, npoints);
    HalfwayAngle(4.0 * t.pi, npoints);
  }

  /** The Hann coefficients sum to 1, so the middle of an even-length window is 1. */
  lemma HannPeak(t: Trig, npoints: nat)
    requires t.Valid() && npoints > 0 && npoints % 2 == 0
    ensures HannWindow(t, npoints)[npoints / 2] == 1.0
  {
    HalfwayAngle(2.0 * t.pi, npoints);
  }

  /** The first Blackman-Harris coefficient is 0.00006: small, but not zero. */
  lemma BlackmanHarrisStart(t: Trig, npoints: nat)
    requires t.Valid() && npoints > 0
    ensures BlackmanHarrisWindow(t, npoints)[0] == 0.00006
    ensures BlackmanHarrisWindow(t, npoints)[0] < 0.001
  {
    StartAngle(t, 2.0 * t.pi, npoints);
    StartAngle(t, 4.0 * t.pi, npoints);
    StartAngle(t, 6.0 * t.pi, npoints);
  }

  /** The first Blackman coefficient is exactly 0. */
  lemma BlackmanStart(t: Trig, npoints: nat)
    requires t.Valid() && npoints > 0
    ensures BlackmanWindow(t, npoints)[0] == 0.0
  {
    StartAngle(t, 2.0 * t.pi, npoints);
    StartAngle(t, 4.0 * t.pi, npoints);
  }

  /** The first Hann coefficient is exactly 0. */
  lemma HannStart(t: Trig, npoints: nat)
    requires t.Valid() && npoints > 0
    ensures HannWindow(t, npoints)[0] == 0.0
  {
    StartAngle(t, 2.0 * t.pi, npoints);
  }

  /** Every one of the six windows is exactly 1 in the middle when npoints is even. */
  lemma PeakIsOne(t: Trig, f: WindowFunction, npoints: nat)
    requires t.Valid() && npoints > 0 && npoints % 2 == 0
    ensures Window(t, f, npoints)[npoints / 2] == 1.0
  {
    match Unsquared(f)
    case BlackmanHarris => BlackmanHarrisPeak(t, npoints);
    case Blackman => BlackmanPeak(t, npoints);
    case Hann => HannPeak(t, npoints);
  }

  /**
    The first coefficient of each of the six windows: 0 for the Hann and
    Blackman families, 0.00006 for Blackman-Harris and its square for the
    squared Blackman-Harris.
  */
  lemma StartValue(t: Trig, f: WindowFunction, npoints: nat)
    requires t.Valid() && npoints > 0
    ensures Window(t, f, npoints)[0] == match f
      case BlackmanHarris => 0.00006
      case BlackmanHarris2 => 0.00006 * 0.00006
      case _ => 0.0
  {
    match Unsquared(f)
    case BlackmanHarris => BlackmanHarrisStart(t, npoints);
    case Blackman => BlackmanStart(t, npoints);
    case Hann => HannStart(t, npoints);
  }

  /**
    Element i of a squared variant is the square of element i of its base
    variant, and so never negative.
  */
  lemma SquaredVariantLaw(t: Trig, f: WindowFunction, npoints: nat, i: nat)
    requires IsSquared(f) && i < npoints
    ensures Window(t, f, npoints)[i]
         == Window(t, Unsquared(f), npoints)[i] * Window(t, Unsquared(f), npoints)[i]
    ensures Window(t, f, npoints)[i] >= 0.0
  {
  }

  // ---------------------------------------------------------------------------
  // Cutoff estimate.

  /** The fitted constants (k1, k2, k3) of each variant; all of them are positive. */
  function CutoffCoefficients(f: WindowFunction): (k: (real, real, real))
    ensures Positive(k)
  {
    match f
    case BlackmanHarris => (8.041443677716476, 55.9506779343387, 898.0287985384213)
    case BlackmanHarris2 => (13.745202940783823, 121.73532586374934, 5964.163279612051)
    case Blackman => (6.159598046201173, 18.926415097606878, 653.4247430458968)
    case Blackman2 => (9.506235102129398, 79.13120634953742, 1502.2316160588925)
    case Hann => (3.3481080887677166, 10.106519434875038, 78.96345249024414)
    case Hann2 => (5.38751148378734, 29.69451915489501, 184.82117462266237)
  }

  predicate Positive(k: (real, real, real)) {
    k.0 > 0.0 && k.1 > 0.0 && k.2 > 0.0
  }

  /** k1 / n + k2 / n^2 + k3 / n^3 + 1, which exceeds 1 for positive constants and length. */
  function FitDenominator(k: (real, real, real), n: real): (d: real)
    requires Positive(k) && n > 0.0
    ensures d > 1.0
  {
    k.0 / n + k.1 / (n * n) + k.2 / (n * n * n) + 1.0
  }

  /** The relative cutoff for a sinc of `npoints` points windowed by `f`: strictly between 0 and 1. */
  function CalculateCutoff(npoints: nat, f: WindowFunction): (cutoff: real)
    requires npoints > 0
    ensures 0.0 < cutoff < 1.0
  {
    1.0 / FitDenominator(CutoffCoefficients(f), npoints as real)
  }

  // Facts over the reals used by the cutoff lemmas.

  lemma QuotientShrinks(k: real, a: real, b: real)
    requires k > 0.0 && 0.0 < a < b
    ensures k / b < k / a
  {
    assert k / b * b == k == k / a * a;
  }

  /** For d > 1, 1 - 1 / d = (d - 1) / d falls short of d - 1. */
  lemma ReciprocalGap(d: real)
    requires d > 1.0
    ensures 1.0 - 1.0 / d < d - 1.0
  {
    assert 1.0 - 1.0 / d == (d - 1.0) / d;
    QuotientShrinks(d - 1.0, 1.0, d);
  }

  /** Each term k / n^j of the denominator shrinks as n grows, so the denominator does too. */
  lemma FitDenominatorDecreasing(k: (real, real, real), a: real, b: real)
    requires Positive(k) && 0.0 < a < b
    ensures FitDenominator(k, b) < FitDenominator(k, a)
  {
    assert 0.0 < a * a < b * b;
    assert 0.0 < a * a * a < b * b * b;
    assert k.0 / b < k.0 / a by {
      assert k.0 / b * b == k.0 == k.0 / a * a;
    }
    assert k.1 / (b * b) < k.1 / (a * a) by {
      assert k.1 / (b * b) * (b * b) == k.1 == k.1 / (a * a) * (a * a);
    }
    assert k.2 / (b * b * b) < k.2 / (a * a * a) by {
      assert k.2 / (b * b * b) * (b * b * b) == k.2 == k.2 / (a * a * a) * (a * a * a);
    }
  }

  lemma SquareTermAtMost(k: real, n: real)
    requires k > 0.0 && n >= 1.0
    ensures k / (n * n) <= k / n
  {
    assert n <= n * n;
    assert k / (n * n) * (n * n) == k == k / n * n;
  }

  lemma CubeTermAtMost(k: real, n: real)
    requires k > 0.0 && n >= 1.0
    ensures k / (n * n * n) <= k / n
  {
    assert n <= n * n <= n * n * n;
    assert k / (n * n * n) * (n * n * n) == k == k / n * n;
  }

  /** For n >= 1 the denominator exceeds 1 by at most (k1 + k2 + k3) / n. */
  lemma FitDenominatorExcess(k: (real, real, real), n: real)
    requires Positive(k) && n >= 1.0
    ensures FitDenominator(k, n) - 1.0 <= (k.0 + k.1 + k.2) / n
  {
    SquareTermAtMost(k.1, n);
    CubeTermAtMost(k.2, n);
    assert k.0 / n + k.1 / n + k.2 / n == (k.0 + k.1 + k.2) / n;
  }

  /** The longer the sinc, the closer its cutoff gets to 1: the fit is strictly increasing in npoints. */
  lemma CutoffIncreasing(f: WindowFunction, npoints: nat, longer: nat)
    requires 0 < npoints < longer
    ensures CalculateCutoff(npoints, f) < CalculateCutoff(longer, f)
  {
    var k := CutoffCoefficients(f);
    FitDenominatorDecreasing(k, npoints as real, longer as real);
    QuotientShrinks(1.0, FitDenominator(k, longer as real), FitDenominator(k, npoints as real));
  }

  /** The cutoff falls short of 1 by less than (k1 + k2 + k3) / npoints, so it tends to 1. */
  lemma CutoffGap(f: WindowFunction, npoints: nat)
    requires npoints > 0
    ensures 1.0 - CalculateCutoff(npoints, f)
          < (CutoffCoefficients(f).0 + CutoffCoefficients(f).1 + CutoffCoefficients(f).2) / (npoints as real)
  {
    var k := CutoffCoefficients(f);
    ReciprocalGap(FitDenominator(k, npoints as real));
    FitDenominatorExcess(k, npoints as real);
  }

  /** The cutoffs at 128 and 256 points lie within 0.001 of the documented values. */
  lemma CutoffAtTestLengths()
    ensures 0.952 <= CalculateCutoff(128, Blackman) <= 0.954
    ensures 0.975 <= CalculateCutoff(256, Blackman) <= 0.977
    ensures 0.925 <= CalculateCutoff(128, Blackman2) <= 0.927
    ensures 0.962 <= CalculateCutoff(256, Blackman2) <= 0.964
    ensures 0.936 <= CalculateCutoff(128, BlackmanHarris) <= 0.938
    ensures 0.968 <= CalculateCutoff(256, BlackmanHarris) <= 0.970
    ensures 0.893 <= CalculateCutoff(128, BlackmanHarris2) <= 0.895
    ensures 0.946 <= CalculateCutoff(256, BlackmanHarris2) <= 0.948
    ensures 0.973 <= CalculateCutoff(128, Hann) <= 0.975
    ensures 0.986 <= CalculateCutoff(256, Hann) <= 0.988
    ensures 0.957 <= CalculateCutoff(128, Hann2) <= 0.959
    ensures 0.978 <= CalculateCutoff(256, Hann2) <= 0.980
  {
  }
}
