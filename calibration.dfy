/**
 * The self-calibration of auto_calibrate: one test pulse at raw heading 0,
 * then the heading offset and the speed coefficient from the displacement
 * the locator reports, with an early exit that keeps the old values whenever
 * the locator is missing, cannot be zeroed, cannot be read or shows too
 * little motion.
 */
module Calibration {
  import opened RealMath
  import opened RobotApi
  import opened Motion
  import opened Locator

  const DEFAULT_PULSE_SPEED: int := 120
  const DEFAULT_PULSE_TIME: real := 0.70
  /** Displacements shorter than this (metres) are not trusted. */
  const MIN_DISPLACEMENT: real := 0.02
  const START_PAUSE: real := 0.2
  const SETTLE_PAUSE: real := 0.25
  const SKIP_PAUSE: real := 0.3

  /** What get_location gives: an exception, or a dictionary of millimetres. */
  datatype LocationRead = ReadRaises | Location(fields: map<string, real>)

  /** The robot as calibration sees it: its responses, given up front. */
  datatype Device = Device(getLocation: Attribute, reset: ResetResponses, location: LocationRead)

  datatype Fault = ResetLocatorError | ZeroDivision

  /** How auto_calibrate ended. */
  datatype CalOutcome =
    | SkipNoLocator
    | SkipResetFailed
    | SkipReadFailed
    | SkipTooLittleMotion
    | Calibrated
    | Escaped(fault: Fault)
  {
    predicate Skipped()
    {
      SkipNoLocator? || SkipResetFailed? || SkipReadFailed? || SkipTooLittleMotion?
    }
  }

  /** The outcome, the calls issued, and the offset and coefficient afterwards. */
  datatype CalRun = CalRun(outcome: CalOutcome, cmds: seq<Cmd>, offset: real, coef: real)

  /** `loc.get(key, 0.0)`. */
  function LocGet(loc: map<string, real>, key: string): real
  {
    if key in loc then loc[key] else 0.0
  }

  /** The test pulse: raw heading 0, pulse speed for the pulse time, stop, settle. */
  function PulseCommands(pulseSpeed: int, pulseTime: real): seq<Cmd>
  {
    [SetHeading(0), SetSpeed(pulseSpeed), Sleep(pulseTime), SetSpeed(0), Sleep(SETTLE_PAUSE)]
  }

  /** `(-angle_moved) % 360` for `angle_moved = degrees(atan2(-dy, dx)) % 360`. */
  function CalibratedOffset(atan2Deg: real): (offset: real)
    ensures 0.0 <= offset < 360.0
    ensures Mod360(ApplyOffset(Mod360(atan2Deg), offset)) == 0.0
  {
    var angle := Mod360(atan2Deg);
    assert ApplyOffset(angle, Mod360(-angle)) == Mod360(angle + Mod360(-angle));
    OffsetCancelsBias(0.0, angle);
    assert Mod360(0.0) == 0.0;
    Mod360(-angle)
  }

  /** `max(0.45, min(0.85, dist / pulse_time * 170 / pulse_speed))`. */
  function MeasuredCoefficient(dist: real, pulseTime: real, pulseSpeed: int): (coef: real)
    requires pulseTime != 0.0 && pulseSpeed != 0
    ensures CoefficientInBounds(coef)
  {
    ClampCoefficient(dist / pulseTime * REFERENCE_SPEED / pulseSpeed as real)
  }

  /**
   * What auto_calibrate does, given the robot's responses, the pulse
   * parameters and the offset and coefficient it starts from.
   */
  function CalibrationRun(dev: Device, trig: Trig, pulseSpeed: int, pulseTime: real, offset: real, coef: real): CalRun
  {
    var start := [SetSpeed(0), Sleep(START_PAUSE)];
    if !SupportsLocator(dev.getLocation) then
      CalRun(SkipNoLocator, start + [Sleep(SKIP_PAUSE)], offset, coef)
    else
      var reset := ResetSpec(dev.reset);
      var afterReset := start + CallLog(reset.attempted);
      if reset.result == ResetRaised then
        CalRun(Escaped(ResetLocatorError), afterReset, offset, coef)
      else if reset.result == ResetFailed then
        CalRun(SkipResetFailed, afterReset + [Sleep(SKIP_PAUSE)], offset, coef)
      else
        var m := Measure(dev.location, trig, pulseSpeed, pulseTime, offset, coef);
        CalRun(m.outcome, afterReset + PulseCommands(pulseSpeed, pulseTime) + m.cmds, m.offset, m.coef)
  }

  /**
   * The part of auto_calibrate from the location read on: the calls it
   * issues, how it ends, and the offset and coefficient afterwards.
   */
  function Measure(read: LocationRead, trig: Trig, pulseSpeed: int, pulseTime: real, offset: real, coef: real): CalRun
  {
    match read
    case ReadRaises => CalRun(SkipReadFailed, [GetLocation, Sleep(SKIP_PAUSE)], offset, coef)
    case Location(loc) =>
      var dx := LocGet(loc, "x") / 1000.0;
      var dy := LocGet(loc, "y") / 1000.0;
      var dist := trig.hypot(dx, dy);
      if dist < MIN_DISPLACEMENT then
        CalRun(SkipTooLittleMotion, [GetLocation, Sleep(SKIP_PAUSE)], offset, coef)
      else
        // HEADING_OFFSET is written before the divisions that may raise.
        var newOffset := CalibratedOffset(trig.atan2Deg(-dy, dx));
        if pulseTime == 0.0 || pulseSpeed == 0 then
          CalRun(Escaped(ZeroDivision), [GetLocation], newOffset, coef)
        else
          CalRun(Calibrated, [GetLocation], newOffset, MeasuredCoefficient(dist, pulseTime, pulseSpeed))
  }

  /**
   * Every skip, and the escape from reset_locator, leaves the heading offset
   * and the speed coefficient as they were.
   */
  lemma SkipsKeepCalibration(dev: Device, trig: Trig, pulseSpeed: int, pulseTime: real, offset: real, coef: real)
    ensures var run := CalibrationRun(dev, trig, pulseSpeed, pulseTime, offset, coef);
      (run.outcome.Skipped() || run.outcome == Escaped(ResetLocatorError)) ==>
        run.offset == offset && run.coef == coef
  {
  }

  /**
   * Calibration succeeds exactly when get_location is callable, the origin
   * reset succeeds, the location can be read, the robot moved at least
   * MIN_DISPLACEMENT, and neither pulse parameter is zero.
   */
  lemma CalibratedIff(dev: Device, trig: Trig, pulseSpeed: int, pulseTime: real, offset: real, coef: real)
    ensures CalibrationRun(dev, trig, pulseSpeed, pulseTime, offset, coef).outcome == Calibrated <==>
      && SupportsLocator(dev.getLocation)
      && ResetSpec(dev.reset).result == ResetDone
      && dev.location.Location?
      && trig.hypot(LocGet(dev.location.fields, "x") / 1000.0, LocGet(dev.location.fields, "y") / 1000.0) >= MIN_DISPLACEMENT
      && pulseTime != 0.0 && pulseSpeed != 0
  {
  }

  /**
   * On success the log ends with the test pulse (raw heading 0 at the pulse
   * speed) followed by the location read; the new offset is in [0, 360) and
   * cancels the measured direction of travel; the new coefficient is the
   * clamped measurement.
   */
  lemma CalibratedResult(dev: Device, trig: Trig, pulseSpeed: int, pulseTime: real, offset: real, coef: real)
    requires CalibrationRun(dev, trig, pulseSpeed, pulseTime, offset, coef).outcome == Calibrated
    ensures var run := CalibrationRun(dev, trig, pulseSpeed, pulseTime, offset, coef);
      var dx := LocGet(dev.location.fields, "x") / 1000.0;
      var dy := LocGet(dev.location.fields, "y") / 1000.0;
      && |run.cmds| >= 6
      && run.cmds[|run.cmds| - 6..] == PulseCommands(pulseSpeed, pulseTime) + [GetLocation]
      && 0.0 <= run.offset < 360.0
      && Mod360(ApplyOffset(Mod360(trig.atan2Deg(-dy, dx)), run.offset)) == 0.0
      && CoefficientInBounds(run.coef)
      && run.coef == ClampCoefficient(trig.hypot(dx, dy) / pulseTime * REFERENCE_SPEED / pulseSpeed as real)
  {
    var run := CalibrationRun(dev, trig, pulseSpeed, pulseTime, offset, coef);
    var prefix := [SetSpeed(0), Sleep(START_PAUSE)] + CallLog(ResetSpec(dev.reset).attempted);
    assert run.cmds == prefix + (PulseCommands(pulseSpeed, pulseTime) + [GetLocation]);
  }

  /** Whatever the path, calibration keeps the offset in [0, 360) and the coefficient in its bounds. */
  lemma CalibrationKeepsRanges(dev: Device, trig: Trig, pulseSpeed: int, pulseTime: real, offset: real, coef: real)
    requires 0.0 <= offset < 360.0 && CoefficientInBounds(coef)
    ensures var run := CalibrationRun(dev, trig, pulseSpeed, pulseTime, offset, coef);
      0.0 <= run.offset < 360.0 && CoefficientInBounds(run.coef)
  {
  }

  /** The robot has been stopped and was only ever steered while stopped. */
  ghost predicate SafeLog(cmds: seq<Cmd>)
  {
    SteersOnlyWhenStopped(cmds) && LastSpeed(cmds) == Some(0)
  }

  /** Commands that neither steer nor set a speed. */
  predicate Quiet(cmds: seq<Cmd>)
  {
    forall c :: c in cmds ==> c.Reset? || c.Sleep? || c.GetLocation?
  }

  /** The opening stop-and-pause of a calibration is a safe log. */
  lemma SafeStart()
    ensures SafeLog([SetSpeed(0), Sleep(START_PAUSE)])
  {
    var start := [SetSpeed(0), Sleep(START_PAUSE)];
    assert start[..1] == [SetSpeed(0)];
    SteersWithoutHeadings(start);
  }

  lemma SafeThenQuiet(a: seq<Cmd>, b: seq<Cmd>)
    requires SafeLog(a) && Quiet(b)
    ensures SafeLog(a + b)
  {
    SteersWithoutHeadings(b);
    assert LastSpeed(b) == None;
    SteersCompose(a, b);
    LastSpeedAppend(a, b);
  }

  lemma SafeThenPulse(a: seq<Cmd>, pulseSpeed: int, pulseTime: real)
    requires SafeLog(a)
    ensures SafeLog(a + (PulseCommands(pulseSpeed, pulseTime) + [GetLocation]))
  {
    var pulse := PulseCommands(pulseSpeed, pulseTime) + [GetLocation];
    assert pulse[..0] == [];
    SteersOnlyWhenStoppedAt(pulse);
    assert pulse[..5][..4] == pulse[..4];
    assert LastSpeed(pulse[..4]) == Some(0);
    assert LastSpeed(pulse) == LastSpeed(pulse[..5]) == Some(0);
    SteersCompose(a, pulse);
    LastSpeedAppend(a, pulse);
  }

  /** Whatever the robot does, calibration opens by stopping it and pausing. */
  lemma CalibrationStartsStopped(dev: Device, trig: Trig, pulseSpeed: int, pulseTime: real, offset: real, coef: real)
    ensures var run := CalibrationRun(dev, trig, pulseSpeed, pulseTime, offset, coef);
      |run.cmds| >= 2 && run.cmds[..2] == [SetSpeed(0), Sleep(START_PAUSE)]
  {
  }

  /**
   * On every exit path, the last speed commanded is a stop, and the only
   * heading command (the pulse) is issued while the robot is stopped.
   */
  lemma CalibrationEndsStopped(dev: Device, trig: Trig, pulseSpeed: int, pulseTime: real, offset: real, coef: real)
    ensures var run := CalibrationRun(dev, trig, pulseSpeed, pulseTime, offset, coef);
      LastSpeed(run.cmds) == Some(0) && SteersOnlyWhenStopped(run.cmds)
  {
    var run := CalibrationRun(dev, trig, pulseSpeed, pulseTime, offset, coef);
    var start := [SetSpeed(0), Sleep(START_PAUSE)];
    SafeStart();
    if !SupportsLocator(dev.getLocation) {
      SafeThenQuiet(start, [Sleep(SKIP_PAUSE)]);
    } else {
      var reset := ResetSpec(dev.reset);
      var calls := CallLog(reset.attempted);
      var afterReset := start + calls;
      SafeThenQuiet(start, calls);
      if reset.result == ResetFailed {
        SafeThenQuiet(afterReset, [Sleep(SKIP_PAUSE)]);
      } else if reset.result == ResetDone {
        var pulsed := afterReset + (PulseCommands(pulseSpeed, pulseTime) + [GetLocation]);
        SafeThenPulse(afterReset, pulseSpeed, pulseTime);
        SafeThenQuiet(pulsed, [Sleep(SKIP_PAUSE)]);
        assert run.cmds == pulsed || run.cmds == pulsed + [Sleep(SKIP_PAUSE)];
      }
    }
  }

  /**
   * Calibrating a robot that was only steered while stopped, and is stopped,
   * keeps both true: the calibration log can follow any such log.
   */
  lemma CalibrationKeepsSafe(before: seq<Cmd>, dev: Device, trig: Trig, pulseSpeed: int, pulseTime: real, offset: real, coef: real)
    requires SteersOnlyWhenStopped(before) && Stopped(before)
    ensures var cmds := before + CalibrationRun(dev, trig, pulseSpeed, pulseTime, offset, coef).cmds;
      SteersOnlyWhenStopped(cmds) && Stopped(cmds)
  {
    CalibrationEndsStopped(dev, trig, pulseSpeed, pulseTime, offset, coef);
    SteersCompose(before, CalibrationRun(dev, trig, pulseSpeed, pulseTime, offset, coef).cmds);
  }

  /** The pulse speed 120 over 0.70 s: a 0.60 m run is clamped to the upper bound 0.85. */
  lemma ExampleCoefficient()
    ensures MeasuredCoefficient(0.60, DEFAULT_PULSE_TIME, DEFAULT_PULSE_SPEED) == MAX_COEFFICIENT
  {
  }

  /** Moving straight "down" the track (atan2 gives -90) calls for an offset of 90. */
  lemma ExampleOffsetDown()
    ensures CalibratedOffset(-90.0) == 90.0
  {
    Mod360Periodic(-90.0, 1);
    Mod360OfNormalized(270.0);
    Mod360Periodic(-270.0, 1);
    Mod360OfNormalized(90.0);
  }
}
