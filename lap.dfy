/**
 * The commands one lap issues (run_lap): for every consecutive pair of
 * waypoints one leg of five commands, heading, speed, drive time, stop, pause;
 * then a closing pause. The lemmas state what the lap log guarantees.
 */
module Lap {
  import opened RealMath
  import opened RobotApi
  import opened Motion

  /** Pause at the end of a lap, after the last leg. */
  const LAP_END_PAUSE: real := 0.2

  /** The commands of one leg. */
  function LegCommands(hdg: real, spd: int, dur: real, offset: real): seq<Cmd>
  {
    [SetHeading(CommandHeading(hdg, offset)), SetSpeed(spd), Sleep(dur), SetSpeed(0), Sleep(PAUSE_SEG)]
  }

  /** Number of legs of a path: one per consecutive pair of waypoints. */
  function LegCount(path: seq<Point>): nat
  {
    if |path| == 0 then 0 else |path| - 1
  }

  /** Heading of leg i (from path[i-1] to path[i]), before the offset. */
  function LegHeading(trig: Trig, path: seq<Point>, i: nat): real
    requires 1 <= i < |path|
  {
    HeadingDeg(trig, path[i - 1], path[i])
  }

  /** `prev_hdg` when leg i starts: none on the first leg, else the previous leg's heading. */
  function PrevHeading(trig: Trig, path: seq<Point>, i: nat): Option<real>
    requires 1 <= i < |path|
  {
    if i == 1 then None else Some(LegHeading(trig, path, i - 1))
  }

  function LegSpeedAt(trig: Trig, path: seq<Point>, i: nat): int
    requires 1 <= i < |path|
  {
    LegSpeed(PrevHeading(trig, path, i), LegHeading(trig, path, i))
  }

  function LegDurationAt(trig: Trig, path: seq<Point>, i: nat, coef: real): real
    requires 1 <= i < |path|
  {
    LegDuration(DistM(trig, path[i - 1], path[i]), LegSpeedAt(trig, path, i), coef)
  }

  /** The commands of leg i. */
  function Leg(trig: Trig, path: seq<Point>, i: nat, offset: real, coef: real): seq<Cmd>
    requires 1 <= i < |path|
  {
    LegCommands(LegHeading(trig, path, i), LegSpeedAt(trig, path, i), LegDurationAt(trig, path, i, coef), offset)
  }

  /**
   * The legs from leg i on, when the leg before them headed `prev` (None
   * before the first leg): the loop of run_lap, carrying `prev_hdg` forward.
   */
  function LegsFrom(trig: Trig, path: seq<Point>, i: nat, prev: Option<real>, offset: real, coef: real): (cmds: seq<Cmd>)
    requires 1 <= i
    ensures |cmds| == if i < |path| then 5 * (|path| - i) else 0
    decreases |path| - i
  {
    if i >= |path| then []
    else
      var hdg := HeadingDeg(trig, path[i - 1], path[i]);
      var spd := LegSpeed(prev, hdg);
      LegCommands(hdg, spd, LegDuration(DistM(trig, path[i - 1], path[i]), spd, coef), offset)
        + LegsFrom(trig, path, i + 1, Some(hdg), offset, coef)
  }

  /** Everything one lap issues: five commands per leg and the closing pause. */
  function LapCommands(trig: Trig, path: seq<Point>, offset: real, coef: real): (cmds: seq<Cmd>)
    ensures |cmds| == 5 * LegCount(path) + 1
  {
    LegsFrom(trig, path, 1, None, offset, coef) + [Sleep(LAP_END_PAUSE)]
  }

  /** The legs from leg n on are leg n, as described by its index, and then the legs after it. */
  lemma LegsFromStep(trig: Trig, path: seq<Point>, n: nat, prev: Option<real>, offset: real, coef: real)
    requires 1 <= n < |path|
    requires prev == PrevHeading(trig, path, n)
    ensures LegsFrom(trig, path, n, prev, offset, coef)
         == Leg(trig, path, n, offset, coef) + LegsFrom(trig, path, n + 1, Some(LegHeading(trig, path, n)), offset, coef)
  {
  }

  /**
   * Carrying the previous heading forward gives, leg by leg, the legs
   * described by their index: command p of leg k sits at position
   * 5(k - i) + p of the legs from leg i on.
   */
  lemma {:induction false} LegsFromAt(trig: Trig, path: seq<Point>, i: nat, k: nat, p: nat, offset: real, coef: real)
    requires 1 <= i <= k < |path| && p < 5
    ensures LegsFrom(trig, path, i, PrevHeading(trig, path, i), offset, coef)[5 * (k - i) + p]
         == Leg(trig, path, k, offset, coef)[p]
    decreases k - i
  {
    var leg := Leg(trig, path, i, offset, coef);
    var rest := LegsFrom(trig, path, i + 1, Some(LegHeading(trig, path, i)), offset, coef);
    LegsFromStep(trig, path, i, PrevHeading(trig, path, i), offset, coef);
    assert |leg| == 5;
    if i < k {
      LegsFromAt(trig, path, i + 1, k, p, offset, coef);
      assert (leg + rest)[5 * (k - i) + p] == rest[5 * (k - (i + 1)) + p];
    } else {
      assert (leg + rest)[p] == leg[p];
    }
  }

  /** The command at position j of a lap, read off its leg. */
  lemma LapCommandAt(trig: Trig, path: seq<Point>, j: nat, offset: real, coef: real)
    requires j < 5 * LegCount(path)
    ensures 1 <= j / 5 + 1 < |path|
    ensures LapCommands(trig, path, offset, coef)[j] == Leg(trig, path, j / 5 + 1, offset, coef)[j % 5]
  {
    LegsFromAt(trig, path, 1, j / 5 + 1, j % 5, offset, coef);
  }

  /**
   * Leg i of a lap is, in this order: its corrected heading, its non-zero
   * speed, its drive time, a stop, and the settle pause.
   */
  lemma LegInLap(trig: Trig, path: seq<Point>, offset: real, coef: real, i: nat)
    requires 1 <= i <= LegCount(path)
    ensures var cmds := LapCommands(trig, path, offset, coef);
      && cmds[5 * (i - 1)] == SetHeading(CommandHeading(LegHeading(trig, path, i), offset))
      && cmds[5 * (i - 1) + 1] == SetSpeed(LegSpeedAt(trig, path, i))
      && LegSpeedAt(trig, path, i) != 0
      && cmds[5 * (i - 1) + 2] == Sleep(LegDurationAt(trig, path, i, coef))
      && cmds[5 * (i - 1) + 3] == SetSpeed(0)
      && cmds[5 * (i - 1) + 4] == Sleep(PAUSE_SEG)
  {
    LegSpeedChoice(PrevHeading(trig, path, i), LegHeading(trig, path, i));
    LegsFromAt(trig, path, 1, i, 0, offset, coef);
    LegsFromAt(trig, path, 1, i, 1, offset, coef);
    LegsFromAt(trig, path, 1, i, 2, offset, coef);
    LegsFromAt(trig, path, 1, i, 3, offset, coef);
    LegsFromAt(trig, path, 1, i, 4, offset, coef);
  }

  /** The first leg of a lap always goes at STRAIGHT_SPEED. */
  lemma FirstLegStraight(trig: Trig, path: seq<Point>, offset: real, coef: real)
    requires |path| >= 2
    ensures LapCommands(trig, path, offset, coef)[1] == SetSpeed(STRAIGHT_SPEED)
  {
    LegInLap(trig, path, offset, coef, 1);
  }

  /**
   * Every later leg goes at TURN_SPEED exactly when it turns more than the
   * threshold away from the previous leg's (uncorrected) heading, and at
   * STRAIGHT_SPEED otherwise.
   */
  lemma LaterLegSpeed(trig: Trig, path: seq<Point>, offset: real, coef: real, i: nat)
    requires 2 <= i < |path|
    ensures var turn := TurnMagnitude(LegHeading(trig, path, i), LegHeading(trig, path, i - 1));
      && (LapCommands(trig, path, offset, coef)[5 * (i - 1) + 1] == SetSpeed(TURN_SPEED) <==> turn > TURN_THRESHOLD)
      && (LapCommands(trig, path, offset, coef)[5 * (i - 1) + 1] == SetSpeed(STRAIGHT_SPEED) <==> turn <= TURN_THRESHOLD)
  {
    LegInLap(trig, path, offset, coef, i);
  }

  /**
   * Every heading sent during a lap is a whole degree in 0..359, and every
   * speed sent is a stop or one of the two leg speeds.
   */
  lemma LapCommandRanges(trig: Trig, path: seq<Point>, offset: real, coef: real)
    ensures forall c :: c in LapCommands(trig, path, offset, coef) && c.SetHeading? ==> 0 <= c.deg <= 359
    ensures forall c :: c in LapCommands(trig, path, offset, coef) && c.SetSpeed? ==>
      c.speed == 0 || c.speed == STRAIGHT_SPEED || c.speed == TURN_SPEED
  {
    var n := LegCount(path);
    var cmds := LapCommands(trig, path, offset, coef);
    forall j | 0 <= j < |cmds|
      ensures cmds[j].SetHeading? ==> 0 <= cmds[j].deg <= 359
      ensures cmds[j].SetSpeed? ==> cmds[j].speed == 0 || cmds[j].speed == STRAIGHT_SPEED || cmds[j].speed == TURN_SPEED
    {
      if j < 5 * n {
        var i := j / 5 + 1;
        LapCommandAt(trig, path, j, offset, coef);
        CommandHeadingRange(LegHeading(trig, path, i), offset);
        LegSpeedChoice(PrevHeading(trig, path, i), LegHeading(trig, path, i));
      }
    }
  }

  /** With sound trigonometry no leg drives for a negative time. */
  lemma LegDurationNonNegative(trig: Trig, path: seq<Point>, i: nat, coef: real)
    requires trig.Sound() && 1 <= i < |path|
    ensures LegDurationAt(trig, path, i, coef) >= 0.0
  {
    DistNonNegative(trig, path[i - 1], path[i]);
    LegDurationGuard(DistM(trig, path[i - 1], path[i]), LegSpeedAt(trig, path, i), coef);
  }

  /** With sound trigonometry no lap sleeps for a negative time. */
  lemma LapSleepsNonNegative(trig: Trig, path: seq<Point>, offset: real, coef: real)
    requires trig.Sound()
    ensures forall c :: c in LapCommands(trig, path, offset, coef) && c.Sleep? ==> c.secs >= 0.0
  {
    var n := LegCount(path);
    var cmds := LapCommands(trig, path, offset, coef);
    forall j | 0 <= j < |cmds| && cmds[j].Sleep?
      ensures cmds[j].secs >= 0.0
    {
      if j < 5 * n {
        LapCommandAt(trig, path, j, offset, coef);
        LegDurationNonNegative(trig, path, j / 5 + 1, coef);
      }
    }
  }

  /** One leg steers only while stopped and leaves the robot stopped. */
  lemma LegSteersWhenStopped(hdg: real, spd: int, dur: real, offset: real)
    ensures SteersOnlyWhenStopped(LegCommands(hdg, spd, dur, offset))
    ensures Stopped(LegCommands(hdg, spd, dur, offset))
  {
    var leg := LegCommands(hdg, spd, dur, offset);
    assert leg[..0] == [];
    SteersOnlyWhenStoppedAt(leg);
    assert LastSpeed(leg[..4]) == Some(0);
  }

  /** A stop always precedes the next heading: the legs from leg i on steer only while stopped and end stopped. */
  lemma {:induction false} LegsFromSteerWhenStopped(trig: Trig, path: seq<Point>, i: nat, prev: Option<real>, offset: real, coef: real)
    requires 1 <= i
    ensures SteersOnlyWhenStopped(LegsFrom(trig, path, i, prev, offset, coef))
    ensures Stopped(LegsFrom(trig, path, i, prev, offset, coef))
    decreases |path| - i
  {
    if i < |path| {
      var hdg := HeadingDeg(trig, path[i - 1], path[i]);
      var spd := LegSpeed(prev, hdg);
      var leg := LegCommands(hdg, spd, LegDuration(DistM(trig, path[i - 1], path[i]), spd, coef), offset);
      var rest := LegsFrom(trig, path, i + 1, Some(hdg), offset, coef);
      LegSteersWhenStopped(hdg, spd, LegDuration(DistM(trig, path[i - 1], path[i]), spd, coef), offset);
      LegsFromSteerWhenStopped(trig, path, i + 1, Some(hdg), offset, coef);
      SteersCompose(leg, rest);
      if rest == [] {
        assert leg + rest == leg;
      }
    } else {
      assert LegsFrom(trig, path, i, prev, offset, coef) == [];
    }
  }

  /** A whole lap steers only while stopped and leaves the robot stopped. */
  lemma LapSteersWhenStopped(trig: Trig, path: seq<Point>, offset: real, coef: real)
    ensures SteersOnlyWhenStopped(LapCommands(trig, path, offset, coef))
    ensures Stopped(LapCommands(trig, path, offset, coef))
  {
    var legs := LegsFrom(trig, path, 1, None, offset, coef);
    LegsFromSteerWhenStopped(trig, path, 1, None, offset, coef);
    var tail := [Sleep(LAP_END_PAUSE)];
    assert tail[..0] == [];
    SteersCompose(legs, tail);
  }

  /**
   * The race track: its ten waypoints make nine legs and close the circuit,
   * so a lap on it issues 46 calls.
   */
  lemma TrackLap(trig: Trig, offset: real, coef: real)
    ensures LegCount(WAYPOINTS) == 9
    ensures WAYPOINTS[0] == WAYPOINTS[|WAYPOINTS| - 1]
    ensures |LapCommands(trig, WAYPOINTS, offset, coef)| == 46
  {
  }

  /** A lap can follow any log that steered only while stopped and is stopped, and keeps both true. */
  lemma LapKeepsSafe(before: seq<Cmd>, trig: Trig, path: seq<Point>, offset: real, coef: real)
    requires SteersOnlyWhenStopped(before) && Stopped(before)
    ensures var cmds := before + LapCommands(trig, path, offset, coef);
      SteersOnlyWhenStopped(cmds) && Stopped(cmds)
  {
    LapSteersWhenStopped(trig, path, offset, coef);
    SteersCompose(before, LapCommands(trig, path, offset, coef));
  }
}
