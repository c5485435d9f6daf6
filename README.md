# Moving-edges ellipse tracker: parameter state and implicit conic

This project models the part of ViSP's moving-edges ellipse tracker
(`vpMeEllipse`) whose behaviour is written out in its header:

- the tracker's own parameter state: the five conic coefficients `K`, the
  centre `iPc`, the semiminor and semimajor axes `a` and `b`, the orientation
  `e`, the arc end points `iP1`, `iP2` and angles `alpha1`, `alpha2`, the
  cached `cos(e)` and `sin(e)`, the per-site angle list, the raw and central
  moments, the robust threshold `thresholdWeight` and the `circle` flag;
- the two inline setters, `setThresholdRobust` (clamps its argument into
  [0, 1]) and `setCircle`, each of which changes exactly one field;
- the inline getters, each of which returns one stored field and changes nothing;
- the implicit equation i^2 + K0 j^2 + 2 K1 i j + 2 K2 i + 2 K3 j + K4 = 0 that
  the class documentation uses to define the tracked ellipse, with the
  circle case K0 = 1, K1 = 0 and the geometric facts behind a centred
  ellipse: the centre where the gradient vanishes, the symmetry about it,
  and the positive-definite quadratic form that remains after the centre is
  removed.

Two modules:

- `ImplicitConic` (`conic.dfy`): image points, the coefficient record and the
  pure real-valued equation with its lemmas.
- `MovingEdgesEllipse` (`me_ellipse.dfy`): the class `MeEllipse` with every
  field of the header. `State()` collects the fields into one `EllipseState`
  value. Each setter's contract gives the new `State()` as a function of the
  old one (`ThresholdUpdate`, `CircleUpdate`), and its `modifies` frame names
  the one field it writes. `Clamp` is an independent reference definition,
  max(0, min(1, x)), of the value `setThresholdRobust` stores. Its branches are
  proved equal to it.

Doubles are modelled as Dafny `real`, so rounding is not modelled.

The documentation comments of `get_m20` and `get_m02` say they return m11.
The code returns `m20` and `m02`, and the model follows the code.

## Model

| member | source | states |
|---|---|---|
| `MovingEdgesEllipse.Clamp` | src/tracking/moving-edges/vpMeEllipse.h:280-297 | the stored robust threshold always lies in [0, 1] |
| `MovingEdgesEllipse.ClampCases` | src/tracking/moving-edges/vpMeEllipse.h:289-297 | an input below 0 gives exactly 0, an input above 1 gives exactly 1, an input in [0, 1] is kept as it is |
| `MovingEdgesEllipse.ClampFixedPoints` | src/tracking/moving-edges/vpMeEllipse.h:294-296 | the input is stored unchanged if and only if it lies in [0, 1] |
| `MovingEdgesEllipse.ClampIdempotent` | src/tracking/moving-edges/vpMeEllipse.h:289-297 | clamping an already clamped threshold changes nothing |
| `MovingEdgesEllipse.ClampMonotone` | src/tracking/moving-edges/vpMeEllipse.h:289-297 | a larger input never gives a smaller threshold |
| `MovingEdgesEllipse.ClampNearest` | src/tracking/moving-edges/vpMeEllipse.h:285-297 | the stored value is the point of [0, 1] nearest to the input |
| `MovingEdgesEllipse.ThresholdUpdate` | src/tracking/moving-edges/vpMeEllipse.h:289-297 | after the threshold update the state's threshold is Clamp(x), and every other component equals the old one |
| `MovingEdgesEllipse.CircleUpdate` | src/tracking/moving-edges/vpMeEllipse.h:180 | after the circle update the flag is the argument, and every other component equals the old one |
| `MovingEdgesEllipse.ThresholdUpdateIdempotent` | src/tracking/moving-edges/vpMeEllipse.h:289-297 | setting the same threshold twice gives the same state as setting it once |
| `MovingEdgesEllipse.ThresholdUpdateLastWins` | src/tracking/moving-edges/vpMeEllipse.h:289-297 | of two threshold settings in a row, the second alone determines the state |
| `MovingEdgesEllipse.UpdatesCommute` | src/tracking/moving-edges/vpMeEllipse.h:180-297 | setting the threshold and setting circle mode commute |
| `MovingEdgesEllipse.MeEllipse.SetThresholdRobust` | src/tracking/moving-edges/vpMeEllipse.h:289-297 | the method's three branches store exactly Clamp(threshold), a value in [0, 1]; only `thresholdWeight` is written and the whole new state is ThresholdUpdate of the old one |
| `MovingEdgesEllipse.MeEllipse.SetCircle` | src/tracking/moving-edges/vpMeEllipse.h:180 | the circle flag becomes the argument; only `circle` is written and the new state is CircleUpdate of the old one |
| `MovingEdgesEllipse.MeEllipse.GetM00` | src/tracking/moving-edges/vpMeEllipse.h:187 | returns the stored area moment m00 |
| `MovingEdgesEllipse.MeEllipse.GetM10` | src/tracking/moving-edges/vpMeEllipse.h:194 | returns the stored raw moment m10 |
| `MovingEdgesEllipse.MeEllipse.GetM01` | src/tracking/moving-edges/vpMeEllipse.h:201 | returns the stored raw moment m01 |
| `MovingEdgesEllipse.MeEllipse.GetM11` | src/tracking/moving-edges/vpMeEllipse.h:208 | returns the stored raw moment m11 |
| `MovingEdgesEllipse.MeEllipse.GetM20` | src/tracking/moving-edges/vpMeEllipse.h:210-215 | returns the stored raw moment m20 (the code's value, not the m11 its comment names) |
| `MovingEdgesEllipse.MeEllipse.GetM02` | src/tracking/moving-edges/vpMeEllipse.h:217-222 | returns the stored raw moment m02 (the code's value, not the m11 its comment names) |
| `MovingEdgesEllipse.MeEllipse.GetMu11` | src/tracking/moving-edges/vpMeEllipse.h:229 | returns the stored central moment mu11 |
| `MovingEdgesEllipse.MeEllipse.GetMu02` | src/tracking/moving-edges/vpMeEllipse.h:236 | returns the stored central moment mu02 |
| `MovingEdgesEllipse.MeEllipse.GetMu20` | src/tracking/moving-edges/vpMeEllipse.h:243 | returns the stored central moment mu20 |
| `MovingEdgesEllipse.MeEllipse.GetCenter` | src/tracking/moving-edges/vpMeEllipse.h:248 | returns the stored centre iPc |
| `MovingEdgesEllipse.MeEllipse.GetA` | src/tracking/moving-edges/vpMeEllipse.h:253 | returns the stored semiminor axis a |
| `MovingEdgesEllipse.MeEllipse.GetB` | src/tracking/moving-edges/vpMeEllipse.h:258 | returns the stored semimajor axis b |
| `MovingEdgesEllipse.MeEllipse.GetE` | src/tracking/moving-edges/vpMeEllipse.h:263 | returns the stored orientation e |
| `MovingEdgesEllipse.MeEllipse.GetEquationParam` | src/tracking/moving-edges/vpMeEllipse.h:268 | its three results are exactly what GetA, GetB and GetE return; it modifies nothing |
| `MovingEdgesEllipse.MeEllipse.GetSmallestAngle` | src/tracking/moving-edges/vpMeEllipse.h:273 | returns the stored smallest angle alpha1 |
| `MovingEdgesEllipse.MeEllipse.GetHighestAngle` | src/tracking/moving-edges/vpMeEllipse.h:278 | returns the stored highest angle alpha2 |
| `ImplicitConic.CircleSpecialisation` | src/tracking/moving-edges/vpMeEllipse.h:172-176 | with K0 = 1 and K1 = 0 the general equation equals the circle equation i^2 + j^2 + 2 K2 i + 2 K3 j + K4 at every point, so both have the same solutions |
| `ImplicitConic.CircleGeometry` | src/tracking/moving-edges/vpMeEllipse.h:71-73 | with K0 = 1 and K1 = 0 the equation describes the circle centred at (-K2, -K3) with squared radius K2^2 + K3^2 - K4 |
| `ImplicitConic.Centre` | src/tracking/moving-edges/vpMeEllipse.h:306-311 | when K0 - K1^2 is not zero, the centre is the point where both partial derivatives of the equation vanish |
| `ImplicitConic.ExpandAbout` | src/tracking/moving-edges/vpMeEllipse.h:306-309 | expanding the equation about any point gives its value there, plus the quadratic part of the offset, plus the offset times the gradient |
| `ImplicitConic.CentredForm` | src/tracking/moving-edges/vpMeEllipse.h:306-311 | about the centre the equation has no first-order terms: the value at centre + d is the value at the centre plus the quadratic part of d |
| `ImplicitConic.CentralSymmetry` | src/tracking/moving-edges/vpMeEllipse.h:306-311 | centre + d lies on the curve if and only if centre - d does |
| `ImplicitConic.QuadraticPartSquares` | src/tracking/moving-edges/vpMeEllipse.h:306-309 | the quadratic part equals (di + K1 dj)^2 + (K0 - K1^2) dj^2 |
| `ImplicitConic.PositiveDefinite` | src/tracking/moving-edges/vpMeEllipse.h:69-77 | for K0 - K1^2 > 0 the quadratic part is never negative, and it is zero only for the zero offset |
| `ImplicitConic.CentreMinimises` | src/tracking/moving-edges/vpMeEllipse.h:69-77 | for an ellipse-type conic the centre is the unique point with the smallest value of the equation |
| `ImplicitConic.ImaginaryEllipse` | src/tracking/moving-edges/vpMeEllipse.h:69-71 | an ellipse-type conic whose value at the centre is positive has no point at all |

## Left out

- The default constructor, the copy constructor and the destructor (vpMeEllipse.h:145-147): their bodies are in `vpMeEllipse.cpp`, which is not part of this model. `MeEllipse`'s constructor takes the initial state as a value instead.
- `track`, both `initTracking` overloads, `leastSquare`, `getParameters`, `computeMoments`, `computeAngle`, `updateTheta`, `suppressPoints`, `seekExtremities`, `setExtremities`, `sample` and `reSample` (vpMeEllipse.h:149-153, 349-358): the header only declares them and their definitions are not part of this model. They are also floating-point numerics (robust least squares, eigen-decomposition, trigonometry) and edge searches through the generic moving-edges tracker and its sites.
- Because of this, nothing ties the stored `iPc`, `a`, `b`, `e`, moments or arc angles to `K`. The `ImplicitConic` lemmas are facts about the equation, not about the stored values.
- The behaviour claims that depend on that code are also left out: a noise-free fit reproducing the ellipse, the fit keeping K0 = 1, K1 = 0 in circle mode, arc growth under occlusion, and rejecting a fit with too few points.
- The parametric point formula (vpMeEllipse.h:83-88): it needs cos and sin.
- `display` (all three overloads) and `printParameters` (vpMeEllipse.h:154-155, 373-380): rendering and printing through external classes.
- The deprecated `initTracking` and `computeAngle` overloads (vpMeEllipse.h:157-165, 360-369).
- State inherited from the generic moving-edges tracker (the list of sites, the moving-edges settings): that class is not part of this model.
- `K` is exactly five coefficients. The source's dynamically sized column vector could hold another number of entries; that case is not represented.
- `MovingEdgesEllipse.MeEllipse.SetThresholdRobust`: does not model a NaN argument. A NaN fails both comparisons and would be stored unchanged, but a `real` cannot be NaN.
- The model uses unbounded reals, not IEEE 754 doubles, so rounding, infinities and overflow are not modelled.
- `tutorial/tracking/model-based/edges/tutorial-mb-edge-tracker.cpp` is an application of a different tracker (file loading, display, clicks, timing) and holds no logic of this class.
