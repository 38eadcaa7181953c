/**
 * The script's settings and its per-leg arithmetic: the heading and length of
 * a leg between two waypoints, the calibrated heading offset, the turn
 * sharpness that picks the leg speed, and the dead-reckoning leg duration.
 */
module Motion {
  import opened RealMath
  import opened RobotApi

  // Settings of the script (sphero_race.py:20-28, plus the literals of run_lap).
  const PAUSE_SEG: real := 0.07
  const DEFAULT_M_PER_S_AT_170: real := 0.60
  const STRAIGHT_SPEED: int := 180
  const TURN_SPEED: int := 140
  const DEFAULT_HEADING_OFFSET: real := 0.0
  /** Turns sharper than this many degrees are driven at TURN_SPEED. */
  const TURN_THRESHOLD: real := 20.0
  /** The commanded speed at which the speed coefficient is measured. */
  const REFERENCE_SPEED: real := 170.0
  /** Floor on the velocity estimate, so that a leg duration never divides by 0. */
  const MIN_VELOCITY: real := 0.000001
  /** Clamp bounds of the calibrated speed coefficient (m/s at REFERENCE_SPEED). */
  const MIN_COEFFICIENT: real := 0.45
  const MAX_COEFFICIENT: real := 0.85

  /** A track position in metres; +x to the right, +y downward. */
  datatype Point = Point(x: real, y: real)

  /** The track of one lap, start and finish at (0, 0). */
  const WAYPOINTS: seq<Point> := [
    Point(0.00, 0.00), Point(2.20, 0.00), Point(2.35, 2.35), Point(1.95, 2.00),
    Point(1.55, 1.65), Point(1.20, 1.45), Point(0.80, 1.30), Point(0.60, 0.70),
    Point(0.35, 0.25), Point(0.00, 0.00)
  ]

  /**
   * The floating-point library the script leans on, left uninterpreted:
   * `atan2Deg(y, x)` is `math.degrees(math.atan2(y, x))` and `hypot(x, y)` is
   * `math.hypot(x, y)`.
   */
  datatype Trig = Trig(atan2Deg: (real, real) -> real, hypot: (real, real) -> real)
  {
    /** The only fact about them the model relies on: a length is never negative. */
    ghost predicate Sound()
    {
      forall x: real, y: real :: hypot(x, y) >= 0.0
    }
  }

  predicate CoefficientInBounds(c: real)
  {
    MIN_COEFFICIENT <= c <= MAX_COEFFICIENT
  }

  /** Direction of travel from p0 to p1 in degrees, counter-clockwise from +x with +y downward. */
  function HeadingDeg(trig: Trig, p0: Point, p1: Point): real
  {
    Mod360(trig.atan2Deg(-(p1.y - p0.y), p1.x - p0.x))
  }

  /** A heading is normalized to [0, 360) and is the atan2 angle up to whole turns. */
  lemma HeadingRange(trig: Trig, p0: Point, p1: Point)
    ensures 0.0 <= HeadingDeg(trig, p0, p1) < 360.0
    ensures IsWhole((trig.atan2Deg(-(p1.y - p0.y), p1.x - p0.x) - HeadingDeg(trig, p0, p1)) / 360.0)
  {
    Mod360Range(trig.atan2Deg(-(p1.y - p0.y), p1.x - p0.x));
  }

  /** Length of the leg from p0 to p1 in metres. */
  function DistM(trig: Trig, p0: Point, p1: Point): real
  {
    trig.hypot(p1.x - p0.x, p1.y - p0.y)
  }

  /** With sound trigonometry a leg length is never negative. */
  lemma DistNonNegative(trig: Trig, p0: Point, p1: Point)
    requires trig.Sound()
    ensures DistM(trig, p0, p1) >= 0.0
  {
    assert trig.hypot(p1.x - p0.x, p1.y - p0.y) >= 0.0;
  }

  /** The heading actually sent for a logical heading, given the calibrated offset. */
  function ApplyOffset(hdg: real, offset: real): real
  {
    Mod360(hdg + offset)
  }

  /** The corrected heading is normalized and differs from hdg + offset by whole turns only. */
  lemma ApplyOffsetRange(hdg: real, offset: real)
    ensures 0.0 <= ApplyOffset(hdg, offset) < 360.0
    ensures IsWhole((hdg + offset - ApplyOffset(hdg, offset)) / 360.0)
  {
    Mod360Range(hdg + offset);
  }

  /** `int(apply_offset(hdg))`: the integer heading put on the wire. */
  function CommandHeading(hdg: real, offset: real): int
  {
    Trunc(ApplyOffset(hdg, offset))
  }

  /** The heading put on the wire is a whole degree in 0..359, the corrected heading rounded down. */
  lemma CommandHeadingRange(hdg: real, offset: real)
    ensures 0 <= CommandHeading(hdg, offset) <= 359
    ensures CommandHeading(hdg, offset) as real <= ApplyOffset(hdg, offset) < CommandHeading(hdg, offset) as real + 1.0
  {
    ApplyOffsetRange(hdg, offset);
    TruncTowardZero(ApplyOffset(hdg, offset));
  }

  /**
   * If the robot, told raw heading c, really travels along c + bias (in the
   * track's angle convention), then after calibration set the offset to
   * `(-bias) % 360`, sending logical heading h makes it travel along h.
   */
  lemma OffsetCancelsBias(h: real, bias: real)
    ensures Mod360(ApplyOffset(h, Mod360(-bias)) + bias) == Mod360(h)
  {
    var o := Mod360(-bias);
    var c := ApplyOffset(h, o);
    // c = h + o - 360 k1 and o = -bias - 360 k2, so c + bias = h - 360 (k1 + k2).
    Mod360Range(-bias);
    ApplyOffsetRange(h, o);
    var k1 := ((h + o - c) / 360.0).Floor;
    var k2 := ((-bias - o) / 360.0).Floor;
    assert c + bias == h - 360.0 * (k1 + k2) as real;
    Mod360Periodic(h, -(k1 + k2));
  }

  /** `abs((hdg - prev + 540) % 360 - 180)`: how far the heading turns, in degrees. */
  function TurnMagnitude(hdg: real, prev: real): real
  {
    Abs(Mod360(hdg - prev + 540.0) - 180.0)
  }

  /** A turn is at most half a circle, and keeping the same heading is no turn at all. */
  lemma TurnBounds(hdg: real, prev: real)
    ensures 0.0 <= TurnMagnitude(hdg, prev) <= 180.0
    ensures hdg == prev ==> TurnMagnitude(hdg, prev) == 0.0
  {
    Mod360Range(hdg - prev + 540.0);
    if hdg == prev {
      FloorUnique(540.0 / 360.0, 1);
    }
  }

  /**
   * For two normalized headings the turn magnitude is the smaller of the two
   * angles between them, going either way round.
   */
  lemma TurnIsSmallestAngle(hdg: real, prev: real)
    requires 0.0 <= hdg < 360.0 && 0.0 <= prev < 360.0
    ensures TurnMagnitude(hdg, prev) == Min(Abs(hdg - prev), 360.0 - Abs(hdg - prev))
  {
    var x := hdg - prev;
    var q := (x + 540.0) / 360.0;
    if x < -180.0 {
      FloorUnique(q, 0);
    } else if x < 180.0 {
      FloorUnique(q, 1);
    } else {
      FloorUnique(q, 2);
    }
  }

  /** Turning from a to b is as sharp as turning from b to a. */
  lemma TurnSymmetric(a: real, b: real)
    ensures TurnMagnitude(a, b) == TurnMagnitude(b, a)
  {
    var m1 := Mod360(a - b + 540.0);
    var m2 := Mod360(b - a + 540.0);
    var f1 := ((a - b + 540.0) / 360.0).Floor;
    var f2 := ((b - a + 540.0) / 360.0).Floor;
    assert m1 + m2 == 360.0 * (3 - f1 - f2) as real;
    // m1 + m2 lies in [0, 720) and is a whole number of turns.
    assert m1 + m2 == 0.0 || m1 + m2 == 360.0;
  }

  /**
   * The speed of a leg: the first leg (no previous heading) goes straight;
   * a later one goes at TURN_SPEED exactly when it turns more than the threshold.
   */
  function LegSpeed(prev: Option<real>, hdg: real): int
  {
    match prev
    case None => STRAIGHT_SPEED
    case Some(p) => if TurnMagnitude(hdg, p) > TURN_THRESHOLD then TURN_SPEED else STRAIGHT_SPEED
  }

  /** Every leg runs at one of the two script speeds, slowing down exactly on sharp turns. */
  lemma LegSpeedChoice(prev: Option<real>, hdg: real)
    ensures LegSpeed(prev, hdg) == STRAIGHT_SPEED || LegSpeed(prev, hdg) == TURN_SPEED
    ensures prev.None? ==> LegSpeed(prev, hdg) == STRAIGHT_SPEED
    ensures prev.Some? ==> (LegSpeed(prev, hdg) == TURN_SPEED <==> TurnMagnitude(hdg, prev.value) > TURN_THRESHOLD)
  {
  }

  /** Estimated velocity in m/s at commanded speed spd. */
  function Velocity(coef: real, spd: int): real
  {
    coef * (spd as real / REFERENCE_SPEED)
  }

  /** `d / max(v_ms, 1e-6)`: how long to drive to cover d metres. */
  function LegDuration(d: real, spd: int, coef: real): real
  {
    d / Max(Velocity(coef, spd), MIN_VELOCITY)
  }

  /**
   * Thanks to the velocity floor the division is always defined: a leg of
   * non-negative length takes non-negative time, an empty leg none, and the
   * floored velocity times the duration is the leg length.
   */
  lemma LegDurationGuard(d: real, spd: int, coef: real)
    ensures Max(Velocity(coef, spd), MIN_VELOCITY) >= MIN_VELOCITY
    ensures d >= 0.0 ==> LegDuration(d, spd, coef) >= 0.0
    ensures d == 0.0 ==> LegDuration(d, spd, coef) == 0.0
    ensures LegDuration(d, spd, coef) * Max(Velocity(coef, spd), MIN_VELOCITY) == d
  {
  }

  /**
   * With a coefficient inside its clamp bounds and a leg speed of the script,
   * the velocity floor never engages: driving for the leg duration at the
   * estimated velocity covers exactly the leg length.
   */
  lemma DurationCoversLeg(d: real, spd: int, coef: real)
    requires CoefficientInBounds(coef)
    requires spd == STRAIGHT_SPEED || spd == TURN_SPEED
    ensures Velocity(coef, spd) > MIN_VELOCITY
    ensures LegDuration(d, spd, coef) * Velocity(coef, spd) == d
  {
    var ratio := spd as real / REFERENCE_SPEED;
    assert ratio >= 140.0 / 170.0;
    assert coef * ratio >= MIN_COEFFICIENT * ratio;
    assert MIN_COEFFICIENT * ratio >= MIN_COEFFICIENT * (140.0 / 170.0);
  }

  /** `max(0.45, min(0.85, v))`: the speed coefficient kept inside its bounds. */
  function ClampCoefficient(v: real): (c: real)
    ensures CoefficientInBounds(c)
    ensures CoefficientInBounds(v) ==> c == v
    ensures v < MIN_COEFFICIENT ==> c == MIN_COEFFICIENT
    ensures v > MAX_COEFFICIENT ==> c == MAX_COEFFICIENT
  {
    Max(MIN_COEFFICIENT, Min(MAX_COEFFICIENT, v))
  }
}
