/**
 * Distance estimator of the Smart Stick web app (`estimateDistance` in
 * smartstick-webapp/src/app.js): reference object width over box width,
 * falling back to 0 for a falsy quotient, then clamped to [0.5, 5] metres.
 * JavaScript division can produce `NaN` and `Infinity`, and those decide the
 * edge cases, so the quotient is modelled as a JavaScript number.
 */
module Distance {
  import opened Wrappers

  /** The JavaScript numbers the computation can meet (negative zero is not modelled). */
  datatype JsNumber = Finite(value: real) | PosInfinity | NegInfinity | NaN

  /** Typical object width in pixels at one metre. */
  const RefObjWidth: real := 80.0
  /** Lower and upper clamp bounds, in metres. */
  const MinDistance: real := 0.5
  const MaxDistance: real := 5.0

  /** `n / d` for a positive numerator; an absent denominator is `undefined`. */
  function Divide(n: real, d: Option<real>): JsNumber
    requires n > 0.0
  {
    match d
    case None => NaN
    case Some(w) => if w == 0.0 then PosInfinity else Finite(n / w)
  }

  /** JavaScript `x || 0`: `NaN` and zero are falsy. */
  function OrZero(x: JsNumber): JsNumber
  {
    if x == NaN || x == Finite(0.0) then Finite(0.0) else x
  }

  /** `Math.min(x, c)` for a finite `c`. */
  function JsMin(x: JsNumber, c: real): JsNumber
  {
    match x
    case NaN => NaN
    case PosInfinity => Finite(c)
    case NegInfinity => NegInfinity
    case Finite(v) => Finite(if v < c then v else c)
  }

  /** `Math.max(c, x)` for a finite `c`. */
  function JsMax(c: real, x: JsNumber): JsNumber
  {
    match x
    case NaN => NaN
    case PosInfinity => PosInfinity
    case NegInfinity => Finite(c)
    case Finite(v) => Finite(if v > c then v else c)
  }

  /**
   * `estimateDistance` for a box whose width is `objWidth` (`None` when the
   * box has no width entry). The result is the clamped number before the
   * one-decimal formatting.
   */
  function EstimateDistance(objWidth: Option<real>): (d: real)
    ensures MinDistance <= d <= MaxDistance
  {
    var clamped := JsMax(MinDistance, JsMin(OrZero(Divide(RefObjWidth, objWidth)), MaxDistance));
    match clamped
    case Finite(v) => v
    case _ => assert false; MinDistance
  }

  /** Inside the unclamped band the estimate is exactly the reference width over the box width. */
  lemma EstimateUnclamped(w: real)
    requires 16.0 <= w <= 160.0
    ensures EstimateDistance(Some(w)) == RefObjWidth / w
  {
    var q := RefObjWidth / w;
    assert q * w == RefObjWidth;
    assert q <= MaxDistance by {
      assert q * w <= MaxDistance * w;
    }
    assert q >= MinDistance by {
      assert q * w >= MinDistance * w;
    }
  }

  /** The estimate never grows when the (positive) box width grows. */
  lemma EstimateNonIncreasing(w1: real, w2: real)
    requires 0.0 < w1 <= w2
    ensures EstimateDistance(Some(w2)) <= EstimateDistance(Some(w1))
  {
    var q1, q2 := RefObjWidth / w1, RefObjWidth / w2;
    assert q2 * w2 <= q1 * w2 by {
      assert q2 * w2 == RefObjWidth == q1 * w1;
      assert q1 > 0.0;
      assert q1 * w1 <= q1 * w2;
    }
    assert q2 <= q1;
  }

  /**
   * The fixed widths: 80 is one metre, 0 is the far bound (the quotient is
   * infinite, not falsy), and a missing width is the near bound (the
   * quotient is `NaN`, which falls back to 0).
   */
  lemma EstimateFixedWidths()
    ensures EstimateDistance(Some(80.0)) == 1.0
    ensures EstimateDistance(Some(0.0)) == MaxDistance
    ensures EstimateDistance(None) == MinDistance
  {
  }

  /** A negative width gives a negative, truthy quotient, raised to the near bound. */
  lemma EstimateNegativeWidth(w: real)
    requires w < 0.0
    ensures EstimateDistance(Some(w)) == MinDistance
  {
    assert RefObjWidth / w < 0.0;
  }
}
