/**
 * The robot-command interface as a log of the calls the script makes on it,
 * and the safety facts stated over such a log: which speed was commanded last,
 * and whether every change of heading happened while the robot was stopped.
 */
module RobotApi {

  datatype Option<T> = None | Some(value: T)

  /** The locator-reset operations the script may try, in the order it tries them. */
  datatype ResetOp = ResetLocator | SetLocation | SetLocator | SetPosition

  /** One call on the robot (or one `time.sleep`), as issued. */
  datatype Cmd =
    | SetHeading(deg: int)
    | SetSpeed(speed: int)
    | Sleep(secs: real)
    | Reset(op: ResetOp)
    | GetLocation

  /** Appending two parts one after the other appends their concatenation. */
  lemma AppendAssoc(a: seq<Cmd>, b: seq<Cmd>, c: seq<Cmd>)
    ensures a + b + c == a + (b + c)
  {
  }

  /** The speed of the last `SetSpeed` in the log, if there is one. */
  function LastSpeed(cmds: seq<Cmd>): (r: Option<int>)
    ensures r.Some? ==> SetSpeed(r.value) in cmds
    ensures r.None? ==> forall j :: 0 <= j < |cmds| ==> !cmds[j].SetSpeed?
  {
    if cmds == [] then None
    else if cmds[|cmds| - 1].SetSpeed? then Some(cmds[|cmds| - 1].speed)
    else LastSpeed(cmds[..|cmds| - 1])
  }

  /** The robot is not driving: no speed was ever set, or the last one was 0. */
  predicate Stopped(cmds: seq<Cmd>)
  {
    LastSpeed(cmds) == None || LastSpeed(cmds) == Some(0)
  }

  /**
   * Every heading command in the log was issued while the robot was stopped,
   * stated one command at a time from the end of the log.
   */
  predicate SteersOnlyWhenStopped(cmds: seq<Cmd>)
    decreases |cmds|
  {
    cmds == [] ||
    (SteersOnlyWhenStopped(cmds[..|cmds| - 1]) &&
     (cmds[|cmds| - 1].SetHeading? ==> Stopped(cmds[..|cmds| - 1])))
  }

  /** The same, stated position by position: whatever precedes a heading command leaves the robot stopped. */
  lemma {:induction false} SteersOnlyWhenStoppedAt(cmds: seq<Cmd>)
    ensures SteersOnlyWhenStopped(cmds) <==>
      forall j :: 0 <= j < |cmds| && cmds[j].SetHeading? ==> Stopped(cmds[..j])
    decreases |cmds|
  {
    if cmds != [] {
      var init := cmds[..|cmds| - 1];
      SteersOnlyWhenStoppedAt(init);
      assert forall j :: 0 <= j < |init| ==> init[j] == cmds[j] && init[..j] == cmds[..j];
    }
  }

  /** A log without heading commands trivially steers only while stopped. */
  lemma {:induction false} SteersWithoutHeadings(cmds: seq<Cmd>)
    requires forall c :: c in cmds ==> !c.SetHeading?
    ensures SteersOnlyWhenStopped(cmds)
    decreases |cmds|
  {
    if cmds != [] {
      var init := cmds[..|cmds| - 1];
      assert forall c :: c in init ==> c in cmds;
      assert cmds[|cmds| - 1] in cmds;
      SteersWithoutHeadings(init);
    }
  }

  /** The last speed of a concatenation is the second part's, or else the first part's. */
  lemma {:induction false} LastSpeedAppend(a: seq<Cmd>, b: seq<Cmd>)
    ensures LastSpeed(a + b) == if LastSpeed(b).Some? then LastSpeed(b) else LastSpeed(a)
    decreases |b|
  {
    if b == [] {
      assert a + b == a;
    } else {
      var b' := b[..|b| - 1];
      assert (a + b)[..|a + b| - 1] == a + b';
      if !b[|b| - 1].SetSpeed? {
        LastSpeedAppend(a, b');
      }
    }
  }

  /**
   * Logs that each steer only while stopped can be run one after the other
   * when the first one leaves the robot stopped; the whole is stopped at the
   * end when the second part is.
   */
  lemma {:induction false} SteersCompose(a: seq<Cmd>, b: seq<Cmd>)
    requires SteersOnlyWhenStopped(a) && Stopped(a)
    requires SteersOnlyWhenStopped(b)
    ensures SteersOnlyWhenStopped(a + b)
    ensures Stopped(b) ==> Stopped(a + b)
    decreases |b|
  {
    LastSpeedAppend(a, b);
    if b == [] {
      assert a + b == a;
    } else {
      var b' := b[..|b| - 1];
      assert (a + b)[..|a + b| - 1] == a + b';
      SteersCompose(a, b');
      LastSpeedAppend(a, b');
    }
  }
}
