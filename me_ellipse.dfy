/** The parameter state of the moving-edges ellipse tracker (class
    vpMeEllipse) and its inline members: the robust-threshold setter, the
    circle-mode setter and the read-only accessors. Doubles are `real`, an
    image point is an `ImagePoint`, the coefficient vector K is a `Conic`. */
module MovingEdgesEllipse {
  import opened ImplicitConic

  /** The moments of the filled ellipse the tracker stores: area m00, raw
      moments m10, m01, m11, m20, m02 and central moments mu11, mu20, mu02. */
  datatype Moments = Moments(
    m00: real,
    m10: real, m01: real,
    m11: real, m20: real, m02: real,
    mu11: real, mu20: real, mu02: real)

  /** Every field of the tracker as one value, so that a contract can say
      which single component an operation changes. */
  datatype EllipseState = EllipseState(
    K: Conic,
    iPc: ImagePoint,
    a: real, b: real, e: real,
    iP1: ImagePoint, iP2: ImagePoint,
    alpha1: real, alpha2: real,
    ce: real, se: real,
    angle: seq<real>,
    moments: Moments,
    thresholdWeight: real,
    circle: bool)

  function Min(x: real, y: real): real {
    if x <= y then x else y
  }

  function Max(x: real, y: real): real {
    if x <= y then y else x
  }

  function Abs(x: real): real {
    if x < 0.0 then -x else x
  }

  /** Reference definition of the value the robust threshold is given:
      the input forced into [0, 1], written as max(0, min(1, x)). */
  function Clamp(x: real): (r: real)
    ensures 0.0 <= r <= 1.0
  {
    Max(0.0, Min(1.0, x))
  }

  /** The three cases of the setter: below the interval gives 0, above it
      gives 1, inside it the input itself. */
  lemma ClampCases(x: real)
    ensures x < 0.0 ==> Clamp(x) == 0.0
    ensures x > 1.0 ==> Clamp(x) == 1.0
    ensures 0.0 <= x <= 1.0 ==> Clamp(x) == x
  {
  }

  /** The input is stored unchanged exactly when it already lies in [0, 1]. */
  lemma ClampFixedPoints(x: real)
    ensures Clamp(x) == x <==> 0.0 <= x <= 1.0
  {
  }

  /** Clamping a clamped value changes nothing. */
  lemma ClampIdempotent(x: real)
    ensures Clamp(Clamp(x)) == Clamp(x)
  {
  }

  /** A larger input never gives a smaller threshold. */
  lemma ClampMonotone(x: real, y: real)
    requires x <= y
    ensures Clamp(x) <= Clamp(y)
  {
  }

  /** Of all values in [0, 1], the stored one is the closest to the input. */
  lemma ClampNearest(x: real, y: real)
    requires 0.0 <= y <= 1.0
    ensures Abs(x - Clamp(x)) <= Abs(x - y)
  {
  }

  /** The state after the robust threshold is set to x: the threshold is
      Clamp(x), and putting the old threshold back gives the old state. */
  function ThresholdUpdate(s: EllipseState, x: real): (r: EllipseState)
    ensures r.thresholdWeight == Clamp(x)
    ensures r.(thresholdWeight := s.thresholdWeight) == s
  {
    s.(thresholdWeight := Clamp(x))
  }

  /** The state after circle mode is set to c: only the flag differs. */
  function CircleUpdate(s: EllipseState, c: bool): (r: EllipseState)
    ensures r.circle == c
    ensures r.(circle := s.circle) == s
  {
    s.(circle := c)
  }

  /** Setting the same threshold twice has the effect of setting it once. */
  lemma ThresholdUpdateIdempotent(s: EllipseState, x: real)
    ensures ThresholdUpdate(ThresholdUpdate(s, x), x) == ThresholdUpdate(s, x)
  {
  }

  /** Of two threshold settings in a row only the second one is visible. */
  lemma ThresholdUpdateLastWins(s: EllipseState, x: real, y: real)
    ensures ThresholdUpdate(ThresholdUpdate(s, x), y) == ThresholdUpdate(s, y)
  {
  }

  /** The two setters touch different fields, so their order does not matter. */
  lemma UpdatesCommute(s: EllipseState, x: real, c: bool)
    ensures ThresholdUpdate(CircleUpdate(s, c), x) == CircleUpdate(ThresholdUpdate(s, x), c)
  {
  }

  /** The moving-edges ellipse tracker's own fields. The state inherited from
      the generic moving-edges tracker is not part of this model. */
  class MeEllipse {
    /** Coefficients of i^2 + K0 j^2 + 2 K1 i j + 2 K2 i + 2 K3 j + K4 = 0. */
    var K: Conic
    /** The centre of the ellipse. */
    var iPc: ImagePoint
    /** Semiminor axis. */
    var a: real
    /** Semimajor axis. */
    var b: real
    /** Angle between the major axis and the i axis. */
    var e: real
    /** Points at the smallest and at the highest alpha angle. */
    var iP1: ImagePoint
    var iP2: ImagePoint
    /** Smallest and highest alpha angle of the tracked arc. */
    var alpha1: real
    var alpha2: real
    /** Cached cos(e) and sin(e). */
    var ce: real
    var se: real
    /** The alpha angle of each tracked site. */
    var angle: seq<real>
    var m00: real
    var mu11: real
    var mu20: real
    var mu02: real
    var m10: real
    var m01: real
    var m11: real
    var m02: real
    var m20: real
    /** Threshold for the robust least-squares fit. */
    var thresholdWeight: real
    /** True when the tracked shape is a circle. */
    var circle: bool

    /** The fields as one value. */
    function State(): EllipseState
      reads this
    {
      EllipseState(K, iPc, a, b, e, iP1, iP2, alpha1, alpha2, ce, se, angle,
                   Moments(m00, m10, m01, m11, m20, m02, mu11, mu20, mu02),
                   thresholdWeight, circle)
    }

    /** Builds a tracker whose fields hold the given state. */
    constructor (s: EllipseState)
      ensures State() == s
    {
      K, iPc, a, b, e := s.K, s.iPc, s.a, s.b, s.e;
      iP1, iP2, alpha1, alpha2 := s.iP1, s.iP2, s.alpha1, s.alpha2;
      ce, se, angle := s.ce, s.se, s.angle;
      m00, m10, m01 := s.moments.m00, s.moments.m10, s.moments.m01;
      m11, m20, m02 := s.moments.m11, s.moments.m20, s.moments.m02;
      mu11, mu20, mu02 := s.moments.mu11, s.moments.mu20, s.moments.mu02;
      thresholdWeight, circle := s.thresholdWeight, s.circle;
    }

    /** Selects circle mode; no other field changes. */
    method SetCircle(circle: bool)
      modifies this`circle
      ensures this.circle == circle
      ensures State() == CircleUpdate(old(State()), circle)
    {
      this.circle := circle;
    }

    /** Stores the robust threshold forced into [0, 1]; no other field changes. */
    method SetThresholdRobust(threshold: real)
      modifies this`thresholdWeight
      ensures thresholdWeight == Clamp(threshold)
      ensures 0.0 <= thresholdWeight <= 1.0
      ensures State() == ThresholdUpdate(old(State()), threshold)
    {
      if threshold < 0.0 {
        thresholdWeight := 0.0;
      } else if threshold > 1.0 {
        thresholdWeight := 1.0;
      } else {
        thresholdWeight := threshold;
      }
    }

    function GetM00(): (r: real)
      reads this
      ensures r == State().moments.m00
    {
      m00
    }

    function GetM10(): (r: real)
      reads this
      ensures r == State().moments.m10
    {
      m10
    }

    function GetM01(): (r: real)
      reads this
      ensures r == State().moments.m01
    {
      m01
    }

    function GetM11(): (r: real)
      reads this
      ensures r == State().moments.m11
    {
      m11
    }

    function GetM20(): (r: real)
      reads this
      ensures r == State().moments.m20
    {
      m20
    }

    function GetM02(): (r: real)
      reads this
      ensures r == State().moments.m02
    {
      m02
    }

    function GetMu11(): (r: real)
      reads this
      ensures r == State().moments.mu11
    {
      mu11
    }

    function GetMu02(): (r: real)
      reads this
      ensures r == State().moments.mu02
    {
      mu02
    }

    function GetMu20(): (r: real)
      reads this
      ensures r == State().moments.mu20
    {
      mu20
    }

    function GetCenter(): (r: ImagePoint)
      reads this
      ensures r == State().iPc
    {
      iPc
    }

    function GetA(): (r: real)
      reads this
      ensures r == State().a
    {
      a
    }

    function GetB(): (r: real)
      reads this
      ensures r == State().b
    {
      b
    }

    function GetE(): (r: real)
      reads this
      ensures r == State().e
    {
      e
    }

    /** Hands back a, b and e through its three results; changes nothing. */
    method GetEquationParam() returns (A: real, B: real, E: real)
      ensures A == GetA() && B == GetB() && E == GetE()
    {
      A := a;
      B := b;
      E := e;
    }

    function GetSmallestAngle(): (r: real)
      reads this
      ensures r == State().alpha1
    {
      alpha1
    }

    function GetHighestAngle(): (r: real)
      reads this
      ensures r == State().alpha2
    {
      alpha2
    }
  }
}
