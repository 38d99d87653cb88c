# Sinc window functions and cutoff estimate

This project models the window module of a sample-rate converter (`src/windows.rs`). The module does two things:

- it builds the tapering windows that multiply a truncated sinc to form interpolation filters;
- it estimates the relative cutoff frequency to use with each window.

There are six window functions: Blackman, Blackman-Harris and Hann, and a squared variant of each (`Blackman2`, `BlackmanHarris2`, `Hann2`).

- Each base window is a periodic cosine sum. Element `x` of an `npoints`-long window uses the angle `2·pi·x / npoints`, so the denominator is `npoints`, not `npoints - 1`.
- A squared variant builds the matching base window and then squares every element in place.
- The cutoff is `1 / (k1/n + k2/n² + k3/n³ + 1)`, with a fixed triple `(k1, k2, k3)` per window function.

Files:

- `sample.dfy`, module `Sample`: the numeric capability the code is generic over. Samples are `real`. Coercion from integers and decimal literals is exact. A `Trig` value supplies the constant pi and the cosine function. `Trig.Valid()` asks only that pi > 0 and that cos 0 = 1, cos pi = -1, cos 2pi = 1 and cos 3pi = -1.
- `windows.dfy`, module `Windows`: the rest.
  - `WindowFunction`.
  - The element formulas (`HannAt`, `BlackmanAt`, `BlackmanHarrisAt`) and the whole windows as sequences.
  - The three generators, as methods that allocate an array of zeros and fill it in a loop.
  - `MakeWindow`, which dispatches with the same two matches as the code and squares the array in place.
  - The cutoff function and its constant table.
  - The lemmas.

`Window(t, f, npoints)` is an independent, flat, six-case statement of what each variant produces. `MakeWindow` is proved to produce exactly that, even though it selects a generator first and decides on squaring second.

The division by `npoints` sits in `Angle`. `Angle` requires `x < npoints`, so a window of length 0 is empty and no division is ever made for it.

## Model

| member | source | states |
|---|---|---|
| `Windows.BlackmanHarrisWindow` | src/windows.rs:22-42 | the Blackman-Harris window has exactly `npoints` elements, and element `x` is `0.35875 - 0.48829·cos(2πx/n) + 0.14128·cos(4πx/n) - 0.01168·cos(6πx/n)` |
| `Windows.BlackmanWindow` | src/windows.rs:46-63 | the Blackman window has exactly `npoints` elements, and element `x` is `0.42 - 0.5·cos(2πx/n) + 0.08·cos(4πx/n)` |
| `Windows.HannWindow` | src/windows.rs:67-81 | the Hann window has exactly `npoints` elements, and element `x` is `0.5 - 0.5·cos(2πx/n)` |
| `Windows.BuildBlackmanHarris` | src/windows.rs:22-42 | returns a freshly allocated array whose contents are the Blackman-Harris window of length `npoints`; every element is written by the loop |
| `Windows.BuildBlackman` | src/windows.rs:46-63 | returns a freshly allocated array whose contents are the Blackman window of length `npoints` |
| `Windows.BuildHann` | src/windows.rs:67-81 | returns a freshly allocated array whose contents are the Hann window of length `npoints` |
| `Windows.Squared` | src/windows.rs:97 | squaring keeps the length; element `i` becomes the square of element `i` and is never negative |
| `Windows.Window` | src/windows.rs:84-101 | every variant yields exactly `npoints` elements; the table maps each of the six variants to one generator, squared exactly for the `*2` variants |
| `Windows.MakeWindow` | src/windows.rs:84-101 | for every variant and length, the fresh array returned has length `npoints` and equals `Window(t, f, npoints)`: the generator's output unchanged for a base variant, squared for a `*2` variant |
| `Windows.SquareInPlace` | src/windows.rs:95-98 | the in-place pass leaves the array equal to the elementwise square of its old contents, with nothing else changed |
| `Windows.HalfwayAngle` | src/windows.rs:38 | at `x = npoints/2` of an even-length window, the angle `(c·π)·x/npoints` is exactly `c·π/2`, so the generators reach π, 2π and 3π |
| `Windows.StartAngle` | src/windows.rs:38 | at `x = 0` every angle is 0, so every cosine term is 1 |
| `Windows.BlackmanHarrisPeak` | src/windows.rs:36-39 | for even `npoints`, element `npoints/2` of the Blackman-Harris window is exactly 1, because the coefficients sum to 1 (the test at line 166 checks this at 16 points) |
| `Windows.BlackmanPeak` | src/windows.rs:58-60 | for even `npoints`, element `npoints/2` of the Blackman window is exactly 1 (test at line 174) |
| `Windows.HannPeak` | src/windows.rs:76-78 | for even `npoints`, element `npoints/2` of the Hann window is exactly 1 (test at line 194) |
| `Windows.BlackmanHarrisStart` | src/windows.rs:36-39 | element 0 of the Blackman-Harris window is exactly 0.00006, so it is below 0.001 (test at line 167) |
| `Windows.BlackmanStart` | src/windows.rs:58-60 | element 0 of the Blackman window is exactly 0 (test at line 175) |
| `Windows.HannStart` | src/windows.rs:76-78 | element 0 of the Hann window is exactly 0 (test at line 195) |
| `Windows.PeakIsOne` | src/windows.rs:84-101 | for each of the six variants and every even `npoints`, the window produced is exactly 1 at index `npoints/2` |
| `Windows.StartValue` | src/windows.rs:84-101 | element 0 for each of the six variants: 0 for the Hann and Blackman families, 0.00006 for Blackman-Harris, and 0.00006² for its square |
| `Windows.SquaredVariantLaw` | src/windows.rs:95-98 | element `i` of a `*2` variant equals the square of element `i` of its base variant, so it is ≥ 0 (the test at lines 179-189 compares them) |
| `Windows.CutoffCoefficients` | src/windows.rs:111-142 | the constant triple of every variant, transcribed verbatim; every constant is positive |
| `Windows.FitDenominator` | src/windows.rs:143-148 | `k1/n + k2/(n·n) + k3/(n·n·n) + 1` exceeds 1 when the constants and `n` are positive |
| `Windows.CalculateCutoff` | src/windows.rs:106-149 | for `npoints > 0` the cutoff of every variant lies strictly between 0 and 1 |
| `Windows.FitDenominatorDecreasing` | src/windows.rs:145-148 | each term of the denominator shrinks as `n` grows, so the whole denominator strictly decreases in `n` |
| `Windows.FitDenominatorExcess` | src/windows.rs:145-148 | for `n ≥ 1` the denominator exceeds 1 by at most `(k1 + k2 + k3)/n` |
| `Windows.CutoffIncreasing` | src/windows.rs:106-149 | for every variant the cutoff strictly increases with `npoints` |
| `Windows.CutoffGap` | src/windows.rs:106-149 | `1 - cutoff < (k1 + k2 + k3)/npoints`, so the cutoff tends to 1 as the sinc grows |
| `Windows.CutoffAtTestLengths` | src/windows.rs:199-225 | with the exact constants, the cutoff of each of the six variants at 128 and 256 points is within 0.001 of the values the tests assert |

## Left out

- The `trace!` calls at lines 26, 50 and 71 only log a diagnostic message. They are not modelled.
- The generic `Sample` trait is not part of this model; its definition is elsewhere in the crate. Samples are exact reals, coercion is exact, and cosine is known only at 0, π, 2π and 3π.
  - So the model does not state the assertions that depend on cosine at other angles: `wnd[15] < 0.1` (lines 168, 176, 196) and `wnd2[i] > 0.000001` (lines 186-188).
  - It also does not state the symmetry of the window about its middle.
- IEEE floating-point rounding is not modelled. The tests' `1e-6` tolerances on the peak, the start and the squaring law are proved as exact equalities over the reals.
- CalculateCutoff: requires `npoints > 0`. At `npoints = 0` the source divides by zero. Over `f64` that gives `1/∞ = 0`, which exact reals cannot express.
- The peak lemmas are stated for even `npoints` only. For odd lengths, index `npoints/2` is not at angle π, and the code promises nothing there.
- Index 0 is sometimes described as nonzero for every family. The Hann and Blackman formulas give exactly 0 there, and the model follows the code (`HannStart`, `BlackmanStart`).
- The claim that the fit is accurate only for lengths 32 to 2048 (line 105) is empirical, and so is the offline fitting of the constants (line 110). Neither is modelled.
- Genericity over the sample type is not modelled: `Vec<T>` becomes `array<real>` and `Sample` becomes the `Trig` parameter.
