/** new_app/RobotControl/exeRobotControl.py: the robot's control thread. In automatic mode it
    picks a pallet up at marker 0 (`picking_sequence`), backs off, turns until marker 1 is in
    view and sets the pallet down there (`put_off_pallet`); in manual mode it serves the fork
    commands of the web interface. Everything the thread waits for (the clock, the fork's limit
    switch, the pose lists the vision thread publishes) is read from a "world" value given to
    each operation, so that an operation whose world runs out ends as Blocked where the source
    would still be waiting. */
module RobotControl {
  import opened Wrappers
  import opened Lookup
  import opened CommandHandling
  import opened RobotUtils
  import opened Targeting
  import opened SharedState
  import opened Forklift
  import opened DirectDriving

  /** A busy-wait's clock: the time it started and the successive values `time.time()` returns. */
  datatype Timer = Timer(start: real, readings: seq<real>)

  /** The clock reaches `duration` seconds after the start at some reading. */
  predicate Rings(c: Timer, duration: real) {
    First(c.readings, Elapsed(c.start, duration)).Some?
  }

  /** How an operation of the control thread ended: it returned (with its truth value), it is
      still waiting for a reading that never came, or it raised ZeroDivisionError. */
  datatype Progress = Returned(value: bool) | Blocked | Raised

  /** Everything the picking and placing code changes: the target, the drive controller's memory,
      the serial log, the shared store and the history of picking-status writes (which the web
      interface may observe one by one). */
  datatype Rig = Rig(target: TargetState, drive: DriveState, log: seq<string>, store: Store,
                     trail: seq<string>)

  ghost function RigOf(target: Target, dc: DirectDriveController, handler: CommandHandler,
                       shared: SharedData): Rig
    reads target, dc, handler, shared
  {
    Rig(target.State(), dc.State(), handler.log, shared.Snapshot(), shared.pickingStatusWrites)
  }

  /** An operation's end and the rig it leaves. */
  datatype Ended = Ended(progress: Progress, rig: Rig)

  /** `shared_data.set_picking_status(status)`. */
  function Report(r: Rig, status: string): Rig {
    r.(store := r.store.(startPickingStatus := Some(status)), trail := r.trail + [status])
  }

  /** The shared store of `after` is that of `before` with the picking status of the last report
      made since, if any; no other field of the store changed, and earlier reports are kept. */
  predicate Reported(before: Rig, after: Rig) {
    && before.trail <= after.trail
    && after.store == if |after.trail| == |before.trail| then before.store
                      else before.store.(startPickingStatus := Some(after.trail[|after.trail| - 1]))
  }

  /** `before`'s log is a prefix of `after`'s: lines are only ever appended. */
  predicate Appended(before: Rig, after: Rig) {
    before.log <= after.log
  }

  /** The target after `getPoseData` has been called on each pose list in turn. */
  function Track(t: TargetState, frames: seq<seq<Marker>>, id: int): TargetState
    decreases |frames|
  {
    if frames == [] then t
    else Resolve(Track(t, frames[..|frames| - 1], id), frames[|frames| - 1], id)
  }

  /** A pose list holds the marker. */
  function Sees(id: int): seq<Marker> -> bool {
    (pose: seq<Marker>) => First(pose, HasId(id)).Some?
  }

  /** A pose list whose first marker with the id is within `X_THRESHOLD` sideways. */
  predicate IsCentred(pose: seq<Marker>, id: int) {
    match First(pose, HasId(id))
    case Some(i) => -X_THRESHOLD < pose[i].xCm < X_THRESHOLD
    case None => false
  }

  function Centred(id: int): seq<Marker> -> bool {
    (pose: seq<Marker>) => IsCentred(pose, id)
  }

  /** The test the lateral alignment loop makes on the target after each lookup holds exactly
      for the pose lists that are `Centred`, whatever the target held before. */
  lemma CentredIsTargetTest(t: TargetState, pose: seq<Marker>, id: int)
    ensures var r := Resolve(t, pose, id);
      IsCentred(pose, id) <==> r.x.Val? && -X_THRESHOLD < r.x.v < X_THRESHOLD
  {
  }

  /** The polling loop of `put_off_pallet`: reads pose lists until `getPoseData` finds the
      marker. Found in the k-th list, the target holds that list's marker; when no list has
      it the source is still polling, and the target holds what the last lookup left. */
  method SearchMarker(id: int, target: Target, feed: seq<seq<Marker>>) returns (found: bool)
    modifies target
    ensures found <==> First(feed, Sees(id)).Some?
    ensures found ==> target.State() == Resolve(old(target.State()), feed[First(feed, Sees(id)).value], id)
    ensures !found ==> target.State() == Track(old(target.State()), feed, id)
  {
    var k := 0;
    while k < |feed|
      invariant k <= |feed|
      invariant forall j :: 0 <= j < k ==> !Sees(id)(feed[j])
      invariant target.State() == Track(old(target.State()), feed[..k], id)
    {
      ghost var before := target.State();
      var seen := target.GetPoseData(feed[k], id);
      assert feed[..k + 1][..k] == feed[..k];
      if seen {
        FirstIsUnique(feed, Sees(id), k);
        ResolveForgets(before, old(target.State()), feed[k], id);
        return true;
      }
      k := k + 1;
    }
    assert feed[..k] == feed;
    found := false;
  }

  /** The lateral alignment loop of `picking_sequence` (`while x_align`): reads pose lists until
      the marker is in view within `X_THRESHOLD` sideways. */
  method CentreOnMarker(id: int, target: Target, feed: seq<seq<Marker>>) returns (centred: bool)
    modifies target
    ensures centred <==> First(feed, Centred(id)).Some?
    ensures centred ==> target.State() == Resolve(old(target.State()), feed[First(feed, Centred(id)).value], id)
    ensures !centred ==> target.State() == Track(old(target.State()), feed, id)
  {
    var xAlign := true;
    var k := 0;
    while xAlign && k < |feed|
      invariant k <= |feed|
      invariant forall j :: 0 <= j < k ==> !IsCentred(feed[j], id)
      invariant xAlign ==> target.State() == Track(old(target.State()), feed[..k], id)
      invariant !xAlign ==> k < |feed| && IsCentred(feed[k], id)
                            && target.State() == Resolve(old(target.State()), feed[k], id)
    {
      ghost var before := target.State();
      var _ := target.GetPoseData(feed[k], id);
      CentredIsTargetTest(before, feed[k], id);
      if target.x != NotVisible && target.x.v < X_THRESHOLD && target.x.v > -X_THRESHOLD {
        ResolveForgets(before, old(target.State()), feed[k], id);
        xAlign := false;
      } else {
        assert feed[..k + 1][..k] == feed[..k];
        k := k + 1;
      }
    }
    if xAlign {
      assert feed[..k] == feed;
      return false;
    }
    FirstIsUnique(feed, Centred(id), k);
    centred := true;
  }

  /** Close enough to pick: the marker is in view and less than `Y_THRESHOLD` ahead. */
  predicate Near(t: TargetState) {
    t.x.Val? && t.y.Val? && t.y.v < Y_THRESHOLD
  }

  /** One pass of an operation that can raise, and the rig it leaves. */
  datatype Stepped = Stepped(outcome: Outcome, rig: Rig)

  /** The body of the approach loop on pose list `pose`: look the marker up, report "Direct
      driving" and make one `directDrive` step towards `DESIRED_X`. The new status is the only
      change to the store, and lines are only appended. */
  function Advance(r: Rig, pose: seq<Marker>, id: int): (a: Stepped)
    ensures Consistent(a.rig.target)
    ensures a.outcome != StillWaiting
    ensures a.rig.trail == r.trail + ["Direct driving"]
    ensures a.rig.store == r.store.(startPickingStatus := Some("Direct driving"))
    ensures Appended(r, a.rig)
  {
    var r1 := Report(r.(target := Resolve(r.target, pose, id)), "Direct driving");
    var step := Drive(r1.drive, r1.target, DESIRED_X);
    Stepped(step.outcome, r1.(drive := step.state, log := r1.log + step.lines))
  }

  /** Every line of `log` from position `from` on is a wheel speed line. */
  predicate SpeedLinesFrom(log: seq<string>, from: nat) {
    forall j :: from <= j < |log| ==> ParseSpeedLine(log[j]).Some?
  }

  lemma SpeedLinesConcat(a: seq<string>, e: seq<string>, from: nat)
    requires from <= |a| && a <= e
    requires SpeedLinesFrom(a, from) && SpeedLinesFrom(e, |a|)
    ensures SpeedLinesFrom(e, from)
  {
    forall j | from <= j < |e|
      ensures ParseSpeedLine(e[j]).Some?
    {
      if j < |a| {
        assert e[j] == a[j];
      }
    }
  }

  /** Every line one pass sends is a wheel speed line. */
  lemma AdvanceSendsSpeedLines(r: Rig, pose: seq<Marker>, id: int)
    ensures SpeedLinesFrom(Advance(r, pose, id).rig.log, |r.log|)
  {
    var r1 := Report(r.(target := Resolve(r.target, pose, id)), "Direct driving");
    var step := Drive(r1.drive, r1.target, DESIRED_X);
    var a := Advance(r, pose, id);
    forall j | |r.log| <= j < |a.rig.log|
      ensures ParseSpeedLine(a.rig.log[j]).Some?
    {
      assert a.rig.log[j] in step.lines;
      DriveSendsOnlyChanges(r1.drive, r1.target, DESIRED_X, a.rig.log[j]);
    }
  }

  /** The approach loop of `picking_sequence`, from rig `r` on the pose lists `feed`: until the
      target is `Near`, one pass per pose list. Blocked when the lists run out, Raised when a
      pass raises. */
  function Approach(r: Rig, feed: seq<seq<Marker>>, id: int): Ended
    requires Consistent(r.target)
    decreases |feed|
  {
    if Near(r.target) then Ended(Returned(true), r)
    else if feed == [] then Ended(Blocked, r)
    else
      var a := Advance(r, feed[0], id);
      if a.outcome == ZeroDivisionError then Ended(Raised, a.rig)
      else Approach(a.rig, feed[1..], id)
  }

  /** The approach only returns once the target is near, and never returns False. */
  lemma {:induction false} ApproachEndsNear(r: Rig, feed: seq<seq<Marker>>, id: int)
    requires Consistent(r.target)
    ensures var e := Approach(r, feed, id);
      e.progress != Returned(false) && (e.progress.Returned? ==> Near(e.rig.target))
    decreases |feed|
  {
    if !Near(r.target) && feed != [] {
      var a := Advance(r, feed[0], id);
      if a.outcome != ZeroDivisionError {
        ApproachEndsNear(a.rig, feed[1..], id);
      }
    }
  }

  /** The approach only appends to the log. */
  lemma {:induction false} ApproachAppends(r: Rig, feed: seq<seq<Marker>>, id: int)
    requires Consistent(r.target)
    ensures Appended(r, Approach(r, feed, id).rig)
    decreases |feed|
  {
    if !Near(r.target) && feed != [] {
      var a := Advance(r, feed[0], id);
      if a.outcome != ZeroDivisionError {
        ApproachAppends(a.rig, feed[1..], id);
        AppendedTrans(r, a.rig, Approach(a.rig, feed[1..], id).rig);
      }
    }
  }

  /** The approach reports "Direct driving" once per pass and nothing else, and changes no other
      field of the store. */
  lemma {:induction false} ApproachReports(r: Rig, feed: seq<seq<Marker>>, id: int)
    requires Consistent(r.target)
    ensures Reported(r, Approach(r, feed, id).rig)
    ensures OnlyReports(Approach(r, feed, id).rig.trail, |r.trail|, "Direct driving")
    decreases |feed|
  {
    if !Near(r.target) && feed != [] {
      var a := Advance(r, feed[0], id);
      if a.outcome != ZeroDivisionError {
        ApproachReports(a.rig, feed[1..], id);
        var e := Approach(a.rig, feed[1..], id);
        ReportedTrans(r, a.rig, e.rig);
        OnlyReportsConcat(a.rig.trail, e.rig.trail, |r.trail|, "Direct driving");
      }
    }
  }

  /** Every entry of `trail` from position `from` on is `status`. */
  predicate OnlyReports(trail: seq<string>, from: nat, status: string) {
    forall j :: from <= j < |trail| ==> trail[j] == status
  }

  lemma OnlyReportsConcat(a: seq<string>, e: seq<string>, from: nat, status: string)
    requires from <= |a| && a <= e
    requires OnlyReports(a, from, status) && OnlyReports(e, |a|, status)
    ensures OnlyReports(e, from, status)
  {
    forall j | from <= j < |e|
      ensures e[j] == status
    {
      if j < |a| {
        assert e[j] == a[j];
      }
    }
  }

  lemma ReportedTrans(r: Rig, a: Rig, e: Rig)
    requires Reported(r, a) && Reported(a, e)
    ensures Reported(r, e)
  {
    if |e.trail| > |a.trail| {
      assert e.trail[|e.trail| - 1] == e.trail[|e.trail| - 1];
    }
  }

  lemma AppendedTrans(r: Rig, a: Rig, e: Rig)
    requires Appended(r, a) && Appended(a, e)
    ensures Appended(r, e)
  {
  }

  /** Every line the approach sends is a wheel speed line. */
  lemma {:induction false} ApproachSendsSpeedLines(r: Rig, feed: seq<seq<Marker>>, id: int)
    requires Consistent(r.target)
    ensures SpeedLinesFrom(Approach(r, feed, id).rig.log, |r.log|)
    decreases |feed|
  {
    if !Near(r.target) && feed != [] {
      var a := Advance(r, feed[0], id);
      AdvanceSendsSpeedLines(r, feed[0], id);
      if a.outcome != ZeroDivisionError {
        ApproachSendsSpeedLines(a.rig, feed[1..], id);
        ApproachAppends(a.rig, feed[1..], id);
        SpeedLinesConcat(a.rig.log, Approach(a.rig, feed[1..], id).rig.log, |r.log|);
      }
    }
  }

  /** The approach loop as a method: the loop keeps the equation between the approach from the
      start and the approach from the current rig on the remaining pose lists. */
  method ApproachPallet(id: int, target: Target, handler: CommandHandler, shared: SharedData,
                        dc: DirectDriveController, feed: seq<seq<Marker>>) returns (p: Progress)
    requires Consistent(target.State())
    modifies target, handler, shared, dc
    ensures var e := Approach(old(RigOf(target, dc, handler, shared)), feed, id);
      p == e.progress && RigOf(target, dc, handler, shared) == e.rig
    ensures shared.forkliftStatusWrites == old(shared.forkliftStatusWrites)
  {
    var k := 0;
    while !(target.x != NotVisible && target.y.v < Y_THRESHOLD)
      invariant k <= |feed|
      invariant Consistent(target.State())
      invariant Approach(old(RigOf(target, dc, handler, shared)), feed, id)
                == Approach(RigOf(target, dc, handler, shared), feed[k..], id)
      invariant shared.forkliftStatusWrites == old(shared.forkliftStatusWrites)
      decreases |feed| - k
    {
      if k == |feed| {
        return Blocked;
      }
      ghost var r := RigOf(target, dc, handler, shared);
      assert feed[k..][0] == feed[k] && feed[k..][1..] == feed[k + 1..];
      ghost var r1 := Report(r.(target := Resolve(r.target, feed[k], id)), "Direct driving");
      var _ := target.GetPoseData(feed[k], id);
      shared.SetPickingStatus("Direct driving");
      assert RigOf(target, dc, handler, shared) == r1;
      var outcome := dc.DirectDrive(handler, target, DESIRED_X);
      assert RigOf(target, dc, handler, shared) == Advance(r, feed[k], id).rig;
      if outcome == ZeroDivisionError {
        return Raised;
      }
      k := k + 1;
    }
    p := Returned(true);
  }

  /** The pose lists and clocks one `picking_sequence` call sees: the first lookup, the clock of
      the angle alignment, the clock of the back-off inside `AlignX`, the lists of the lateral
      alignment loop and those of the approach loop. */
  datatype PickingWorld = PickingWorld(first: seq<Marker>, spin: Timer, back: Timer,
                                       align: seq<seq<Marker>>, approach: seq<seq<Marker>>)

  /** The guard of `picking_sequence`: both alignment flags down, the picking process started, and
      the marker in view after the first lookup. */
  predicate Proceeds(xAlign: bool, angleAlign: bool, started: bool, t: TargetState) {
    !xAlign && !angleAlign && started && t.x.Val?
  }

  /** The turning part of `picking_sequence`, once the guard has held: report "angle aligning",
      turn towards the marker's angle for the computed time and stop, report "X axe aligning"
      and `AlignX` with the marker's distance and angle. Returned(true) when `AlignX` completes,
      which it always does once its clock allows (it never raises).
      The target is not touched. */
  function Turning(r: Rig, w: PickingWorld, sin: real -> real, cos: real -> real): (e: Ended)
    requires Consistent(r.target) && r.target.x.Val?
    ensures e.rig.target == r.target && (e.progress == Returned(true) || e.progress == Blocked)
  {
    var t := r.target;
    var r2 := Report(r, "angle aligning");
    var turning := r2.(log := r2.log + SpeedLines(TurnToward(t.angle.v)));
    if !Rings(w.spin, CalculateRotationTime(t.angle.v).time) then Ended(Blocked, turning)
    else
      var r3 := Report(turning.(log := turning.log + SpeedLines(STOP)), "X axe aligning");
      var m := AlignXManoeuvre(r3.log, t.y.v, t.angleRad, sin, cos, w.back.start, w.back.readings);
      Ended(if m.outcome == Completed then Returned(true) else Blocked, r3.(log := m.log))
  }

  /** The alignment half of `picking_sequence`: `Turning`, then wait until the marker is
      centred. Returned(true) once centred. */
  function Aligning(r: Rig, w: PickingWorld, id: int, sin: real -> real, cos: real -> real): (e: Ended)
    requires Consistent(r.target) && r.target.x.Val?
    ensures e.progress.Returned? ==>
      && e.progress.value
      && Consistent(e.rig.target)
      && e.rig.target.x.Val? && -X_THRESHOLD < e.rig.target.x.v < X_THRESHOLD
    ensures e.progress.Returned? ==> Turning(r, w, sin, cos).progress.Returned?
    ensures e.rig == Turning(r, w, sin, cos).rig.(target := e.rig.target)
  {
    var tu := Turning(r, w, sin, cos);
    if !tu.progress.Returned? then tu
    else match First(w.align, Centred(id))
      case None => Ended(Blocked, tu.rig.(target := Track(r.target, w.align, id)))
      case Some(k) =>
        CentredIsTargetTest(r.target, w.align[k], id);
        Ended(Returned(true), tu.rig.(target := Resolve(r.target, w.align[k], id)))
  }

  /** `picking_sequence(id, ...)` from rig `r`: look the marker up once; unless the guard holds
      return None (Returned(false)) with nothing else done. Otherwise align on the marker,
      approach it until it is near, stop and return True. */
  function Picking(r: Rig, w: PickingWorld, id: int, xAlign: bool, angleAlign: bool,
                   sin: real -> real, cos: real -> real): Ended
  {
    var r1 := r.(target := Resolve(r.target, w.first, id));
    if !Proceeds(xAlign, angleAlign, r.store.startPickingProcess, r1.target) then Ended(Returned(false), r1)
    else Approaching(Aligning(r1, w, id, sin, cos), w.approach, id)
  }

  /** The rest of `picking_sequence` once the alignment has ended as `al`: unless it returned,
      that end; otherwise approach the marker on the pose lists `feed`, and stop once near. */
  function Approaching(al: Ended, feed: seq<seq<Marker>>, id: int): Ended
    requires al.progress.Returned? ==> Consistent(al.rig.target)
  {
    if !al.progress.Returned? then al
    else
      var a := Approach(al.rig, feed, id);
      if a.progress.Returned? then Ended(Returned(true), a.rig.(log := a.rig.log + SpeedLines(STOP)))
      else a
  }

  /** The turning part of `picking_sequence` as a method. */
  method TurnAndShift(target: Target, handler: CommandHandler, shared: SharedData,
                      w: PickingWorld, sin: real -> real, cos: real -> real, ghost dc: DirectDriveController)
    returns (p: Progress)
    requires Consistent(target.State()) && target.x.Val?
    modifies handler, shared
    ensures var e := Turning(old(RigOf(target, dc, handler, shared)), w, sin, cos);
      p == e.progress && RigOf(target, dc, handler, shared) == e.rig
    ensures shared.forkliftStatusWrites == old(shared.forkliftStatusWrites)
  {
    shared.SetPickingStatus("angle aligning");
    var turned := AlignAngle(target.angle.v, handler, w.spin.start, w.spin.readings);
    if !turned {
      return Blocked;
    }
    shared.SetPickingStatus("X axe aligning");
    var aligned := AlignX(target.y.v, handler, target.angleRad, sin, cos, w.back.start, w.back.readings);
    p := if aligned == Completed then Returned(true) else Blocked;
  }

  /** The alignment half of `picking_sequence` as a method. */
  method AlignOnMarker(id: int, target: Target, handler: CommandHandler, shared: SharedData,
                       w: PickingWorld, sin: real -> real, cos: real -> real, ghost dc: DirectDriveController)
    returns (p: Progress)
    requires Consistent(target.State()) && target.x.Val?
    modifies target, handler, shared
    ensures var e := Aligning(old(RigOf(target, dc, handler, shared)), w, id, sin, cos);
      p == e.progress && RigOf(target, dc, handler, shared) == e.rig
    ensures shared.forkliftStatusWrites == old(shared.forkliftStatusWrites)
  {
    p := TurnAndShift(target, handler, shared, w, sin, cos, dc);
    if !p.Returned? {
      return;
    }
    var centred := CentreOnMarker(id, target, w.align);
    if !centred {
      return Blocked;
    }
  }

  /** `picking_sequence` as a method on the objects it uses. */
  method PickingSequence(id: int, target: Target, handler: CommandHandler, shared: SharedData,
                         dc: DirectDriveController, xAlign: bool, angleAlign: bool,
                         w: PickingWorld, sin: real -> real, cos: real -> real) returns (p: Progress)
    modifies target, handler, shared, dc
    ensures var e := Picking(old(RigOf(target, dc, handler, shared)), w, id, xAlign, angleAlign, sin, cos);
      p == e.progress && RigOf(target, dc, handler, shared) == e.rig
    ensures shared.forkliftStatusWrites == old(shared.forkliftStatusWrites)
  {
    ghost var r := RigOf(target, dc, handler, shared);
    var _ := target.GetPoseData(w.first, id);
    ghost var r1 := RigOf(target, dc, handler, shared);
    assert r1 == r.(target := Resolve(r.target, w.first, id));
    if !(!xAlign && !angleAlign && shared.GetStartPickingProcess() && target.x != NotVisible) {
      assert !Proceeds(xAlign, angleAlign, r.store.startPickingProcess, r1.target);
      assert Picking(r, w, id, xAlign, angleAlign, sin, cos) == Ended(Returned(false), r1);
      return Returned(false);
    }
    assert Proceeds(xAlign, angleAlign, r.store.startPickingProcess, r1.target);
    p := AlignOnMarker(id, target, handler, shared, w, sin, cos, dc);
    ghost var al := Aligning(r1, w, id, sin, cos);
    if !p.Returned? {
      assert Picking(r, w, id, xAlign, angleAlign, sin, cos) == al;
      return;
    }
    ghost var a := Approach(al.rig, w.approach, id);
    ApproachEndsNear(al.rig, w.approach, id);
    p := ApproachPallet(id, target, handler, shared, dc, w.approach);
    if p.Returned? {
      StopRobot(handler);
      assert Picking(r, w, id, xAlign, angleAlign, sin, cos) == Ended(Returned(true), a.rig.(log := a.rig.log + SpeedLines(STOP)));
    } else {
      assert Picking(r, w, id, xAlign, angleAlign, sin, cos) == a;
    }
  }

  /** `log` ends with the lines `tail`. */
  predicate EndsWith(log: seq<string>, tail: seq<string>) {
    |tail| <= |log| && log[|log| - |tail|..] == tail
  }

  /** `picking_sequence` returns None exactly when its guard fails after the first lookup, and
      then nothing but that lookup has happened: no line sent, no status reported. */
  lemma PickingDeclines(r: Rig, w: PickingWorld, id: int, xAlign: bool, angleAlign: bool,
                        sin: real -> real, cos: real -> real)
    ensures var e := Picking(r, w, id, xAlign, angleAlign, sin, cos);
      var r1 := r.(target := Resolve(r.target, w.first, id));
      && (e.progress == Returned(false) <==> !Proceeds(xAlign, angleAlign, r.store.startPickingProcess, r1.target))
      && (e.progress == Returned(false) ==> e.rig == r1)
  {
    var r1 := r.(target := Resolve(r.target, w.first, id));
    if Proceeds(xAlign, angleAlign, r.store.startPickingProcess, r1.target) {
      ApproachingEnds(Aligning(r1, w, id, sin, cos), w.approach, id);
    }
  }

  /** When `picking_sequence` returns True the marker is in view less than `Y_THRESHOLD` ahead
      and the last command sent stops the robot. */
  lemma PickingPicks(r: Rig, w: PickingWorld, id: int, xAlign: bool, angleAlign: bool,
                     sin: real -> real, cos: real -> real)
    ensures var e := Picking(r, w, id, xAlign, angleAlign, sin, cos);
      e.progress == Returned(true) ==> Near(e.rig.target) && EndsWith(e.rig.log, SpeedLines(STOP))
  {
    var r1 := r.(target := Resolve(r.target, w.first, id));
    if Proceeds(xAlign, angleAlign, r.store.startPickingProcess, r1.target) {
      ApproachingEnds(Aligning(r1, w, id, sin, cos), w.approach, id);
    }
  }

  /** The approach and the stop after it never return False, and return True only near the
      marker with the stop as the last command. */
  lemma ApproachingEnds(al: Ended, feed: seq<seq<Marker>>, id: int)
    requires al.progress.Returned? ==> Consistent(al.rig.target)
    requires al.progress != Returned(false)
    ensures var e := Approaching(al, feed, id);
      && e.progress != Returned(false)
      && (e.progress == Returned(true) ==> Near(e.rig.target) && EndsWith(e.rig.log, SpeedLines(STOP)))
  {
    if al.progress.Returned? {
      ApproachEndsNear(al.rig, feed, id);
    }
  }

  lemma ApproachingAppends(r: Rig, al: Ended, feed: seq<seq<Marker>>, id: int)
    requires al.progress.Returned? ==> Consistent(al.rig.target)
    requires Appended(r, al.rig)
    ensures Appended(r, Approaching(al, feed, id).rig)
  {
    if al.progress.Returned? {
      var a := Approach(al.rig, feed, id);
      ApproachAppends(al.rig, feed, id);
      AppendedTrans(r, al.rig, a.rig);
      AppendedTrans(r, a.rig, a.rig.(log := a.rig.log + SpeedLines(STOP)));
    }
  }

  lemma ApproachingReported(r: Rig, al: Ended, feed: seq<seq<Marker>>, id: int)
    requires al.progress.Returned? ==> Consistent(al.rig.target)
    requires Reported(r, al.rig)
    ensures Reported(r, Approaching(al, feed, id).rig)
  {
    if al.progress.Returned? {
      ApproachReports(al.rig, feed, id);
      ReportedTrans(r, al.rig, Approach(al.rig, feed, id).rig);
    }
  }

  lemma ApproachingTrail(al: Ended, feed: seq<seq<Marker>>, id: int, n: nat)
    requires al.progress.Returned? ==> Consistent(al.rig.target) && |al.rig.trail| == n + 2
    requires PickingTrail(al.rig.trail, n)
    ensures PickingTrail(Approaching(al, feed, id).rig.trail, n)
  {
    if al.progress.Returned? {
      ApproachReports(al.rig, feed, id);
      PickingTrailExtends(al.rig.trail, Approach(al.rig, feed, id).rig.trail, n);
    }
  }

  /** The statuses `Turning` reports: "angle aligning", then "X axe aligning" once the turn is
      over; the last one is left in the store, whose other fields do not change. */
  lemma TurningReports(r: Rig, w: PickingWorld, sin: real -> real, cos: real -> real)
    requires Consistent(r.target) && r.target.x.Val?
    ensures var e := Turning(r, w, sin, cos);
      var turned := Rings(w.spin, CalculateRotationTime(r.target.angle.v).time);
      && e.rig.trail == r.trail + ["angle aligning"] + (if turned then ["X axe aligning"] else [])
      && e.rig.store == r.store.(startPickingStatus := Some(if turned then "X axe aligning" else "angle aligning"))
      && (e.progress.Returned? ==> turned)
  {
  }

  /** `Aligning` reports what `Turning` does, seen from any rig `r0` with the same trail and
      store as the one it starts from. */
  lemma AligningReported(r0: Rig, r: Rig, w: PickingWorld, id: int, sin: real -> real, cos: real -> real)
    requires Consistent(r.target) && r.target.x.Val?
    requires r0.trail == r.trail && r0.store == r.store
    ensures Reported(r0, Aligning(r, w, id, sin, cos).rig)
  {
    TurningReports(r, w, sin, cos);
  }

  /** And what `Turning` reports is the start of `PickingTrail`, with both statuses when it
      returned. */
  lemma TurningTrail(r: Rig, w: PickingWorld, sin: real -> real, cos: real -> real)
    requires Consistent(r.target) && r.target.x.Val?
    ensures var e := Turning(r, w, sin, cos);
      && PickingTrail(e.rig.trail, |r.trail|)
      && (e.progress.Returned? ==> |e.rig.trail| == |r.trail| + 2)
  {
    TurningReports(r, w, sin, cos);
  }

  /** `Turning` only appends to the log. */
  lemma TurningAppends(r: Rig, w: PickingWorld, sin: real -> real, cos: real -> real)
    requires Consistent(r.target) && r.target.x.Val?
    ensures Appended(r, Turning(r, w, sin, cos).rig)
  {
    var t := r.target;
    if Rings(w.spin, CalculateRotationTime(t.angle.v).time) {
      var r3 := r.log + SpeedLines(TurnToward(t.angle.v)) + SpeedLines(STOP);
      assert r.log <= r3;
    }
  }

  /** `picking_sequence` only appends to the serial log. */
  lemma PickingAppends(r: Rig, w: PickingWorld, id: int, xAlign: bool,
                       angleAlign: bool, sin: real -> real, cos: real -> real)
    ensures Appended(r, Picking(r, w, id, xAlign, angleAlign, sin, cos).rig)
  {
    var r1 := r.(target := Resolve(r.target, w.first, id));
    if Proceeds(xAlign, angleAlign, r.store.startPickingProcess, r1.target) {
      TurningAppends(r1, w, sin, cos);
      ApproachingAppends(r, Aligning(r1, w, id, sin, cos), w.approach, id);
    }
  }

  /** `picking_sequence` changes no field of the store but the picking status, which it leaves at
      the last status it reported. */
  lemma PickingReported(r: Rig, w: PickingWorld, id: int, xAlign: bool,
                        angleAlign: bool, sin: real -> real, cos: real -> real)
    ensures Reported(r, Picking(r, w, id, xAlign, angleAlign, sin, cos).rig)
  {
    var r1 := r.(target := Resolve(r.target, w.first, id));
    if Proceeds(xAlign, angleAlign, r.store.startPickingProcess, r1.target) {
      AligningReported(r, r1, w, id, sin, cos);
      ApproachingReported(r, Aligning(r1, w, id, sin, cos), w.approach, id);
    }
  }

  /** The statuses a `picking_sequence` that passed its guard reports from position `n` of the
      trail on: "angle aligning", then "X axe aligning" once the turn is over, then "Direct
      driving" once per pass of the approach loop. */
  predicate PickingTrail(t: seq<string>, n: nat) {
    && n < |t| && t[n] == "angle aligning"
    && (n + 1 < |t| ==> t[n + 1] == "X axe aligning")
    && OnlyReports(t, n + 2, "Direct driving")
  }

  lemma PickingTrailExtends(t: seq<string>, u: seq<string>, n: nat)
    requires PickingTrail(t, n) && |t| == n + 2 && t <= u && OnlyReports(u, |t|, "Direct driving")
    ensures PickingTrail(u, n)
  {
    assert u[n] == t[n] && u[n + 1] == t[n + 1];
  }

  /** What the web interface sees of a `picking_sequence`: nothing when the guard fails, and the
      statuses of `PickingTrail` otherwise. */
  lemma PickingStatuses(r: Rig, w: PickingWorld, id: int, xAlign: bool,
                         angleAlign: bool, sin: real -> real, cos: real -> real)
    ensures var e := Picking(r, w, id, xAlign, angleAlign, sin, cos);
      if Proceeds(xAlign, angleAlign, r.store.startPickingProcess, Resolve(r.target, w.first, id))
      then PickingTrail(e.rig.trail, |r.trail|)
      else e.rig.trail == r.trail
  {
    var r1 := r.(target := Resolve(r.target, w.first, id));
    if Proceeds(xAlign, angleAlign, r.store.startPickingProcess, r1.target) {
      TurningTrail(r1, w, sin, cos);
      ApproachingTrail(Aligning(r1, w, id, sin, cos), w.approach, id, |r.trail|);
    }
  }



  /** `put_off_pallet(id, ...)` from rig `r`: start the search turn, poll the pose lists of
      `search` until marker `id` is in view, stop, and run `picking_sequence` on it with the
      pose lists and clocks of `w`. Blocked while the marker has not been seen. */
  function PutOff(r: Rig, search: seq<seq<Marker>>, w: PickingWorld, id: int, xAlign: bool,
                  angleAlign: bool, sin: real -> real, cos: real -> real): Ended
  {
    var turning := r.(log := r.log + SpeedLines(AtMinRpm(1, -1, 1, -1)));
    match First(search, Sees(id))
    case None => Ended(Blocked, turning.(target := Track(r.target, search, id)))
    case Some(k) =>
      var found := turning.(target := Resolve(r.target, search[k], id), log := turning.log + SpeedLines(STOP));
      Picking(found, w, id, xAlign, angleAlign, sin, cos)
  }

  /** `put_off_pallet` as a method on the objects it uses. The value `picking_sequence` returns
      is passed on, although the source drops it. */
  method PutOffPallet(id: int, target: Target, handler: CommandHandler, shared: SharedData,
                      dc: DirectDriveController, xAlign: bool, angleAlign: bool,
                      search: seq<seq<Marker>>, w: PickingWorld, sin: real -> real,
                      cos: real -> real) returns (p: Progress)
    modifies target, handler, shared, dc
    ensures var e := PutOff(old(RigOf(target, dc, handler, shared)), search, w, id, xAlign, angleAlign, sin, cos);
      p == e.progress && RigOf(target, dc, handler, shared) == e.rig
    ensures shared.forkliftStatusWrites == old(shared.forkliftStatusWrites)
  {
    Rotate(handler);
    var found := SearchMarker(id, target, search);
    if !found {
      return Blocked;
    }
    StopRobot(handler);
    p := PickingSequence(id, target, handler, shared, dc, xAlign, angleAlign, w, sin, cos);
  }

  /** `put_off_pallet` returns only once the marker has been found in the search, and the robot
      is then stopped: by the second approach when `picking_sequence` returns True (and the marker
      is then near), by the stop after the search otherwise. */
  lemma PutOffStops(r: Rig, search: seq<seq<Marker>>, w: PickingWorld, id: int, xAlign: bool,
                    angleAlign: bool, sin: real -> real, cos: real -> real)
    ensures var e := PutOff(r, search, w, id, xAlign, angleAlign, sin, cos);
      e.progress.Returned? ==>
        && First(search, Sees(id)).Some? && EndsWith(e.rig.log, SpeedLines(STOP))
        && (e.progress.value ==> Near(e.rig.target))
  {
    match First(search, Sees(id))
    case None =>
    case Some(k) =>
      var turning := r.(log := r.log + SpeedLines(AtMinRpm(1, -1, 1, -1)));
      var found := turning.(target := Resolve(r.target, search[k], id), log := turning.log + SpeedLines(STOP));
      PickingPicks(found, w, id, xAlign, angleAlign, sin, cos);
      PickingDeclines(found, w, id, xAlign, angleAlign, sin, cos);
  }

  /** While the marker is not in view the robot keeps turning: the search turn is the last
      command and nothing is reported. */
  lemma PutOffSearches(r: Rig, search: seq<seq<Marker>>, w: PickingWorld, id: int, xAlign: bool,
                       angleAlign: bool, sin: real -> real, cos: real -> real)
    requires First(search, Sees(id)).None?
    ensures var e := PutOff(r, search, w, id, xAlign, angleAlign, sin, cos);
      && e.progress == Blocked
      && e.rig.log == r.log + SpeedLines(AtMinRpm(1, -1, 1, -1))
      && e.rig.trail == r.trail && e.rig.store == r.store
  {
  }

  /** `put_off_pallet` only appends to the log and changes no field of the store but the picking
      status. */
  lemma PutOffKeeps(r: Rig, search: seq<seq<Marker>>, w: PickingWorld, id: int, xAlign: bool,
                    angleAlign: bool, sin: real -> real, cos: real -> real)
    ensures var e := PutOff(r, search, w, id, xAlign, angleAlign, sin, cos);
      Appended(r, e.rig) && Reported(r, e.rig)
  {
    match First(search, Sees(id))
    case None =>
    case Some(k) =>
      var turning := r.(log := r.log + SpeedLines(AtMinRpm(1, -1, 1, -1)));
      var found := turning.(target := Resolve(r.target, search[k], id), log := turning.log + SpeedLines(STOP));
      PickingAppends(found, w, id, xAlign, angleAlign, sin, cos);
      PickingReported(found, w, id, xAlign, angleAlign, sin, cos);
      AppendedTrans(r, found, Picking(found, w, id, xAlign, angleAlign, sin, cos).rig);
  }
}
