/**
 * The script's run-time state: the calls it has made on the robot and the
 * two calibration globals HEADING_OFFSET and M_PER_S_AT_170, with the
 * operations that change them.
 */
module SpheroRace {
  import opened RealMath
  import opened RobotApi
  import opened Motion
  import opened Lap
  import opened Locator
  import opened Calibration

  class Session {
    /** Every call made on the robot so far, in order. */
    var log: seq<Cmd>
    var headingOffset: real
    var mPerSAt170: real

    /**
     * The offset is a normalized heading, the coefficient is within its clamp
     * bounds, the robot was only ever steered while stopped and is stopped now.
     */
    ghost predicate Valid()
      reads this
    {
      && 0.0 <= headingOffset < 360.0
      && CoefficientInBounds(mPerSAt170)
      && SteersOnlyWhenStopped(log)
      && Stopped(log)
    }

    constructor ()
      ensures Valid()
      ensures log == [] && headingOffset == DEFAULT_HEADING_OFFSET && mPerSAt170 == DEFAULT_M_PER_S_AT_170
    {
      log := [];
      headingOffset := DEFAULT_HEADING_OFFSET;
      mPerSAt170 := DEFAULT_M_PER_S_AT_170;
    }

    /** try_reset_locator: try each reset operation in turn until one returns. */
    method TryResetLocator(resp: ResetResponses) returns (result: ResetResult)
      modifies this`log
      ensures result == ResetSpec(resp).result
      ensures log == old(log) + CallLog(ResetSpec(resp).attempted)
    {
      CallLogPrepend(log, ResetLocator, TryEach(resp, FALLBACKS).attempted);
      log := log + [Reset(ResetLocator)];
      var first := resp.Of(ResetLocator);
      if first == Returned {
        return ResetDone;
      } else if first == OtherError {
        return ResetRaised;
      }
      var i := 0;
      while i < |FALLBACKS|
        invariant i <= |FALLBACKS|
        invariant ResetSpec(resp).result == TryEach(resp, FALLBACKS[i..]).result
        invariant old(log) + CallLog(ResetSpec(resp).attempted) == log + CallLog(TryEach(resp, FALLBACKS[i..]).attempted)
      {
        var op := FALLBACKS[i];
        assert FALLBACKS[i..][0] == op && FALLBACKS[i..][1..] == FALLBACKS[i + 1..];
        CallLogPrepend(log, op, if resp.Of(op) == Returned then [] else TryEach(resp, FALLBACKS[i + 1..]).attempted);
        log := log + [Reset(op)];
        if resp.Of(op) == Returned {
          return ResetDone;
        }
        i := i + 1;
      }
      result := ResetFailed;
    }

    /**
     * auto_calibrate: stop, then either skip (keeping the offset and
     * coefficient) or pulse at raw heading 0, read the displacement and set
     * both from it.
     */
    method AutoCalibrate(dev: Device, trig: Trig, pulseSpeed: int, pulseTime: real) returns (outcome: CalOutcome)
      requires Valid()
      modifies this
      ensures var run := CalibrationRun(dev, trig, pulseSpeed, pulseTime, old(headingOffset), old(mPerSAt170));
        && outcome == run.outcome
        && log == old(log) + run.cmds
        && headingOffset == run.offset
        && mPerSAt170 == run.coef
      ensures Valid()
    {
      ghost var before := log;
      CalibrationKeepsSafe(before, dev, trig, pulseSpeed, pulseTime, headingOffset, mPerSAt170);
      CalibrationKeepsRanges(dev, trig, pulseSpeed, pulseTime, headingOffset, mPerSAt170);

      log := log + [SetSpeed(0), Sleep(START_PAUSE)];
      // The calls of this run so far: log == before + issued.
      ghost var issued := [SetSpeed(0), Sleep(START_PAUSE)];

      if !SupportsLocator(dev.getLocation) {
        log := log + [Sleep(SKIP_PAUSE)];
        AppendAssoc(before, issued, [Sleep(SKIP_PAUSE)]);
        return SkipNoLocator;
      }

      var reset := TryResetLocator(dev.reset);
      AppendAssoc(before, issued, CallLog(ResetSpec(dev.reset).attempted));
      issued := issued + CallLog(ResetSpec(dev.reset).attempted);
      if reset == ResetRaised {
        return Escaped(ResetLocatorError);
      } else if reset == ResetFailed {
        log := log + [Sleep(SKIP_PAUSE)];
        AppendAssoc(before, issued, [Sleep(SKIP_PAUSE)]);
        return SkipResetFailed;
      }

      // Pulse forward at raw heading 0.
      log := log + [SetHeading(0), SetSpeed(pulseSpeed), Sleep(pulseTime), SetSpeed(0), Sleep(SETTLE_PAUSE)];
      AppendAssoc(before, issued, PulseCommands(pulseSpeed, pulseTime));
      issued := issued + PulseCommands(pulseSpeed, pulseTime);

      outcome := MeasurePulse(dev.location, trig, pulseSpeed, pulseTime);
      AppendAssoc(before, issued, Measure(dev.location, trig, pulseSpeed, pulseTime, old(headingOffset), old(mPerSAt170)).cmds);
    }

    /**
     * The rest of auto_calibrate after the test pulse: read the location,
     * skip on a failed read or too little motion, otherwise set the heading
     * offset and then the speed coefficient from the displacement.
     */
    method MeasurePulse(read: LocationRead, trig: Trig, pulseSpeed: int, pulseTime: real) returns (outcome: CalOutcome)
      modifies this
      ensures var m := Measure(read, trig, pulseSpeed, pulseTime, old(headingOffset), old(mPerSAt170));
        && outcome == m.outcome
        && log == old(log) + m.cmds
        && headingOffset == m.offset
        && mPerSAt170 == m.coef
    {
      log := log + [GetLocation];
      if read.ReadRaises? {
        log := log + [Sleep(SKIP_PAUSE)];
        return SkipReadFailed;
      }
      var dx := LocGet(read.fields, "x") / 1000.0;
      var dy := LocGet(read.fields, "y") / 1000.0;

      var dist := trig.hypot(dx, dy);
      if dist < MIN_DISPLACEMENT {
        log := log + [Sleep(SKIP_PAUSE)];
        return SkipTooLittleMotion;
      }

      headingOffset := CalibratedOffset(trig.atan2Deg(-dy, dx));

      if pulseTime == 0.0 || pulseSpeed == 0 {
        return Escaped(ZeroDivision);
      }
      var vMeas := dist / pulseTime;
      mPerSAt170 := ClampCoefficient(vMeas * REFERENCE_SPEED / pulseSpeed as real);
      outcome := Calibrated;
    }

    /**
     * run_lap: for each consecutive pair of waypoints, steer to the leg's
     * corrected heading, drive at the leg speed for the leg duration, stop
     * and settle; then pause.
     */
    method RunLap(trig: Trig, path: seq<Point>)
      requires Valid()
      modifies this`log
      ensures Valid()
      ensures log == old(log) + LapCommands(trig, path, headingOffset, mPerSAt170)
    {
      var offset, coef := headingOffset, mPerSAt170;
      // The legs of the lap: those already issued on the log, then those still to come.
      ghost var before, legs := log, LegsFrom(trig, path, 1, None, offset, coef);
      var prevHdg: Option<real> := None;
      var i := 1;
      while i < |path|
        invariant 1 <= i
        invariant before + legs == log + LegsFrom(trig, path, i, prevHdg, offset, coef)
      {
        var p0, p1 := path[i - 1], path[i];
        var hdg := HeadingDeg(trig, p0, p1);
        var d := DistM(trig, p0, p1);

        var spd := LegSpeed(prevHdg, hdg);
        var dur := LegDuration(d, spd, coef);
        AppendAssoc(log, LegCommands(hdg, spd, dur, offset), LegsFrom(trig, path, i + 1, Some(hdg), offset, coef));
        log := log + [SetHeading(CommandHeading(hdg, offset)), SetSpeed(spd), Sleep(dur), SetSpeed(0), Sleep(PAUSE_SEG)];

        prevHdg := Some(hdg);
        i := i + 1;
      }
      assert before + legs == log;
      log := log + [Sleep(LAP_END_PAUSE)];
      AppendAssoc(before, legs, [Sleep(LAP_END_PAUSE)]);
      LapKeepsSafe(before, trig, path, offset, coef);
    }
  }
}
