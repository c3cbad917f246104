/** new_app/RobotControl/exeRobotControl.py, class `ExeRobotControl`: the control thread's loop.
    Each iteration first homes the fork when the web interface has reset its status to "-";
    then, in automatic mode, it homes the fork on request and runs one pick-and-place cycle
    when the picking process has been started; in manual mode it serves the fork commands.
    What each iteration waits for is read from an `IterationWorld`. */
module ControlThread {
  import opened Wrappers
  import opened Lookup
  import opened CommandHandling
  import opened RobotUtils
  import opened Targeting
  import opened SharedState
  import opened Forklift
  import opened DirectDriving
  import opened RobotControl
  import opened Mecanum

  /** Everything the control thread changes: the rig of the picking code, the patterns written
      to the fork's pins and the history of fork-status writes. */
  datatype Plant = Plant(rig: Rig, fork: seq<Row>, forkTrail: seq<string>)

  /** How a fork movement ended (`done` is false while the source is still stepping) and the
      plant it leaves. */
  datatype Moved = Moved(done: bool, plant: Plant)

  /** How an iteration ended: the loop goes on, it is still waiting for a reading that never
      came, or an exception ended the thread. */
  datatype Status = Going | Waiting | Crashed

  datatype Round = Round(status: Status, plant: Plant)

  /** The readings one iteration sees: the limit switch while homing after a reset to "-", the
      switch while homing on request, the pose lists and clocks of the pick, the clock of the
      back-off, the pose lists of the search turn, those and the clocks of the drop, the switch
      while lowering and the clock while raising in manual mode. */
  datatype IterationWorld = IterationWorld(zeroCheck: seq<bool>, zeroing: seq<bool>,
                                           pick: PickingWorld, back: Timer,
                                           search: seq<seq<Marker>>, drop: PickingWorld,
                                           lowering: seq<bool>, raising: Timer)

  /** The marker the pallet is picked up at, and the one it is set down at. */
  const PICK_ID: int := 0
  const DROP_ID: int := 1

  /** `move_forklift_down`, as `ForkliftController.MoveForkliftDown` does it to the plant. */
  function Lowering(p: Plant, pressed: seq<bool>): Moved {
    var done := First(pressed, Pressed()).Some?;
    var s := p.rig.store;
    Moved(done, Plant(
      p.rig.(store := if done then s.(forkliftStatus := "Steady down", commandDown := false)
                      else s.(forkliftStatus := "Going down")),
      p.fork + Repeat(Reversed(STEP_SEQUENCE), Halts(pressed, Pressed())) + (if done then [OFF] else []),
      p.forkTrail + ["Going down"] + (if done then ["Steady down"] else [])))
  }

  /** `forklift_zero`: lowering, then the zero flag cleared. */
  function Zeroing(p: Plant, pressed: seq<bool>): Moved {
    var m := Lowering(p, pressed);
    if m.done then Moved(true, m.plant.(rig := m.plant.rig.(store := m.plant.rig.store.(forkliftZero := false))))
    else m
  }

  /** `move_forklift_up()`, with the default duration, as `ForkliftController.MoveForkliftUp`
      does it to the plant. */
  function Raising(p: Plant, c: Timer): Moved {
    var done := Rings(c, UP_DURATION);
    var s := p.rig.store;
    Moved(done, Plant(
      p.rig.(store := if done then s.(forkliftStatus := "Steady up", commandUp := false)
                      else s.(forkliftStatus := "Going up")),
      p.fork + Repeat(STEP_SEQUENCE, Halts(c.readings, Elapsed(c.start, UP_DURATION))) + (if done then [OFF] else []),
      p.forkTrail + ["Going up"] + (if done then ["Steady up"] else [])))
  }

  /** A fork movement that is not made. */
  function Still(p: Plant): Moved {
    Moved(true, p)
  }

  /** The first step of every iteration: when the fork status is "-", home the fork and clear
      the zero flag. */
  function ZeroCheck(p: Plant, pressed: seq<bool>): Round {
    if p.rig.store.forkliftStatus != "-" then Round(Going, p)
    else
      var m := Zeroing(p, pressed);
      if !m.done then Round(Waiting, m.plant)
      else Round(Going, m.plant.(rig := m.plant.rig.(store := m.plant.rig.store.(forkliftZero := false))))
  }

  /** The pick-and-place cycle of automatic mode: `picking_sequence(0, ...)`; when it returns
      True, `AlignBackward`, `put_off_pallet(1, ...)`, then the picking process is stopped and
      the status reset to "-". */
  function Cycle(p: Plant, w: IterationWorld, xAlign: bool, angleAlign: bool,
                 sin: real -> real, cos: real -> real): Round
  {
    var pk := Picking(p.rig, w.pick, PICK_ID, xAlign, angleAlign, sin, cos);
    AfterPick(p, pk, w.back, PutOff(Backed(pk.rig), w.search, w.drop, DROP_ID, xAlign, angleAlign, sin, cos))
  }

  /** The rig after `AlignBackward` has backed off and stopped. */
  function Backed(r: Rig): Rig {
    r.(log := r.log + SpeedLines(AtMinRpm(-1, -1, -1, -1)) + SpeedLines(STOP))
  }

  /** The cycle once `picking_sequence` has ended as `pk`; `po` is the end `put_off_pallet`
      reaches after the back-off. */
  function AfterPick(p: Plant, pk: Ended, back: Timer, po: Ended): Round {
    match pk.progress
    case Blocked => Round(Waiting, p.(rig := pk.rig))
    case Raised => Round(Crashed, p.(rig := pk.rig))
    case Returned(picked) =>
      if !picked then Round(Going, p.(rig := pk.rig))
      else Delivery(p.(rig := pk.rig), back, po)
  }

  /** The cycle once the pallet is picked up in plant `p`: `AlignBackward` on the clock `back`,
      then `put_off_pallet`, which ends as `po`. */
  function Delivery(p: Plant, back: Timer, po: Ended): Round {
    if !Rings(back, BACKWARD_TIME) then
      Round(Waiting, p.(rig := p.rig.(log := p.rig.log + SpeedLines(AtMinRpm(-1, -1, -1, -1)))))
    else AfterPutOff(p, po)
  }

  /** The cycle once `put_off_pallet` has ended as `po`: when it returned, the picking process is
      stopped and the status reset to "-". */
  function AfterPutOff(p: Plant, po: Ended): Round {
    match po.progress
    case Blocked => Round(Waiting, p.(rig := po.rig))
    case Raised => Round(Crashed, p.(rig := po.rig))
    case Returned(_) =>
      var stopped := po.rig.(store := po.rig.store.(startPickingProcess := false));
      Round(Going, p.(rig := Report(stopped, "-")))
  }

  /** `if shared_data.get_forklift_zero(): self.forklift.forklift_zero()`. */
  function Homing(p: Plant, pressed: seq<bool>): Moved {
    if p.rig.store.forkliftZero then Zeroing(p, pressed) else Still(p)
  }

  /** Lowering when the fork is at rest up and the down command is set. */
  function ServeDown(p: Plant, pressed: seq<bool>): Moved {
    var s := p.rig.store;
    if s.forkliftStatus == "Steady up" && s.commandDown then Lowering(p, pressed) else Still(p)
  }

  /** Raising when the fork is at rest down and the up command is set. */
  function ServeUp(p: Plant, c: Timer): Moved {
    var s := p.rig.store;
    if s.forkliftStatus == "Steady down" && s.commandUp then Raising(p, c) else Still(p)
  }

  /** Automatic mode: home the fork if asked to, then run a cycle if the picking process has been
      started. */
  function Auto(p: Plant, w: IterationWorld, xAlign: bool, angleAlign: bool,
                sin: real -> real, cos: real -> real): Round
  {
    var z := Homing(p, w.zeroing);
    if !z.done then Round(Waiting, z.plant)
    else if !z.plant.rig.store.startPickingProcess then Round(Going, z.plant)
    else Cycle(z.plant, w, xAlign, angleAlign, sin, cos)
  }

  /** Manual mode: reset the picking status to "-", home the fork if asked to, lower it when it is
      up and the down command is set, then raise it when it is down and the up command is set.
      Each test reads the store as the previous step left it. */
  function Manual(p: Plant, w: IterationWorld): Round {
    var z := Homing(p.(rig := Report(p.rig, "-")), w.zeroing);
    if !z.done then Round(Waiting, z.plant)
    else
      var l := ServeDown(z.plant, w.lowering);
      if !l.done then Round(Waiting, l.plant)
      else
        var u := ServeUp(l.plant, w.raising);
        Round(if u.done then Going else Waiting, u.plant)
  }

  /** One iteration of `while self.running`. A mode other than "auto" and "manual" does
      nothing beyond the first step. */
  function Iteration(p: Plant, w: IterationWorld, xAlign: bool, angleAlign: bool,
                     sin: real -> real, cos: real -> real): Round
  {
    var z := ZeroCheck(p, w.zeroCheck);
    if z.status != Going then z
    else if z.plant.rig.store.mode == "auto" then Auto(z.plant, w, xAlign, angleAlign, sin, cos)
    else if z.plant.rig.store.mode == "manual" then Manual(z.plant, w)
    else z
  }

  /** The loop over the iterations whose readings are `worlds`: Going when all of them went
      through (the source loops on), otherwise the end of the first that did not. */
  function Running(p: Plant, worlds: seq<IterationWorld>, xAlign: bool, angleAlign: bool,
                   sin: real -> real, cos: real -> real): Round
    decreases |worlds|
  {
    if worlds == [] then Round(Going, p)
    else
      var i := Iteration(p, worlds[0], xAlign, angleAlign, sin, cos);
      if i.status != Going then i
      else Running(i.plant, worlds[1..], xAlign, angleAlign, sin, cos)
  }

  /** The fields of the store the control thread never writes. */
  predicate Untouched(a: Store, b: Store) {
    a.mode == b.mode && a.frame == b.frame && a.poseData == b.poseData
  }

  /** The fields of the store only the fork code writes. */
  predicate ForkFieldsOf(a: Store, b: Store) {
    && a.forkliftZero == b.forkliftZero && a.commandUp == b.commandUp
    && a.commandDown == b.commandDown && a.forkliftStatus == b.forkliftStatus
  }

  /** From `p` to `q` the serial log, both status histories and the patterns written to the fork
      only grew, and the fields the control thread never writes kept their values. */
  predicate Grows(p: Plant, q: Plant) {
    && p.rig.log <= q.rig.log && p.rig.trail <= q.rig.trail
    && p.fork <= q.fork && p.forkTrail <= q.forkTrail
    && Untouched(p.rig.store, q.rig.store)
  }

  /** The store shows the last fork status and the last picking status written, once any has
      been: what the web interface reads is the latest report. */
  predicate Mirrored(p: Plant) {
    && (p.forkTrail != [] ==> p.rig.store.forkliftStatus == p.forkTrail[|p.forkTrail| - 1])
    && (p.rig.trail != [] ==> p.rig.store.startPickingStatus == Some(p.rig.trail[|p.rig.trail| - 1]))
  }

  /** All four coils are switched off. */
  predicate CoilsOff(p: Plant) {
    Latest(p.fork) == OFF
  }

  /** A fork movement changes only the fork and its fields of the store, keeps the store in step
      with the status history, and, done, leaves the coils off if they were. */
  predicate ForkMove(p: Plant, m: Moved) {
    && m.plant.rig == p.rig.(store := m.plant.rig.store)
    && m.plant.rig.store == p.rig.store.(forkliftZero := m.plant.rig.store.forkliftZero,
         commandUp := m.plant.rig.store.commandUp, commandDown := m.plant.rig.store.commandDown,
         forkliftStatus := m.plant.rig.store.forkliftStatus)
    && Grows(p, m.plant)
    && (Mirrored(p) ==> Mirrored(m.plant))
    && (m.done && CoilsOff(p) ==> CoilsOff(m.plant))
  }

  /** Lowering and homing are fork movements; once done, the coils are off whatever they were. */
  lemma LoweringMoves(p: Plant, pressed: seq<bool>)
    ensures ForkMove(p, Lowering(p, pressed)) && ForkMove(p, Zeroing(p, pressed))
    ensures Lowering(p, pressed).done ==> CoilsOff(Lowering(p, pressed).plant)
  {
    var m := Lowering(p, pressed);
    assert m.plant.forkTrail[|m.plant.forkTrail| - 1] == if m.done then "Steady down" else "Going down";
  }

  /** Raising, and not moving, are fork movements; once raised, the coils are off. */
  lemma RaisingMoves(p: Plant, c: Timer)
    ensures ForkMove(p, Raising(p, c)) && ForkMove(p, Still(p))
    ensures Raising(p, c).done ==> CoilsOff(Raising(p, c).plant)
  {
    var m := Raising(p, c);
    assert m.plant.forkTrail[|m.plant.forkTrail| - 1] == if m.done then "Steady up" else "Going up";
  }

  lemma ServingMoves(p: Plant, pressed: seq<bool>, c: Timer)
    ensures ForkMove(p, Homing(p, pressed)) && ForkMove(p, ServeDown(p, pressed))
    ensures ForkMove(p, ServeUp(p, c))
  {
    LoweringMoves(p, pressed);
    RaisingMoves(p, c);
  }

  /** What every stage of an iteration keeps, whatever its end: `Grows`, the store in step with
      the status histories, and, unless the stage is still waiting on a fork movement, the coils
      off if they were. */
  predicate Advances(p: Plant, r: Round) {
    && Grows(p, r.plant)
    && (Mirrored(p) ==> Mirrored(r.plant))
    && (r.status != Waiting && CoilsOff(p) ==> CoilsOff(r.plant))
  }

  /** What the cycle keeps, as a predicate of its end: the fork is not touched, the log and the
      picking-status history only grow, the store changes at most in the picking process flag
      and the picking status, and it stays in step with the history. */
  predicate CycleKept(p: Plant, r: Round) {
    && r.plant == p.(rig := r.plant.rig)
    && p.rig.log <= r.plant.rig.log && p.rig.trail <= r.plant.rig.trail
    && r.plant.rig.store == p.rig.store.(startPickingProcess := r.plant.rig.store.startPickingProcess,
                                         startPickingStatus := r.plant.rig.store.startPickingStatus)
    && (Mirrored(p) ==> Mirrored(r.plant))
  }

  lemma CycleKeptAdvances(p: Plant, r: Round)
    requires CycleKept(p, r)
    ensures Advances(p, r) && ForkFieldsOf(p.rig.store, r.plant.rig.store)
  {
  }

  /** A rig that picking or placing left behind, put back into the plant. */
  lemma RigKept(p: Plant, status: Status, e: Rig)
    requires Appended(p.rig, e) && Reported(p.rig, e)
    ensures CycleKept(p, Round(status, p.(rig := e)))
  {
  }

  lemma AfterPutOffKeeps(p: Plant, po: Ended)
    requires Appended(p.rig, po.rig) && Reported(p.rig, po.rig)
    ensures CycleKept(p, AfterPutOff(p, po))
  {
    match po.progress
    case Blocked => RigKept(p, Waiting, po.rig);
    case Raised => RigKept(p, Crashed, po.rig);
    case Returned(_) =>
  }

  /** The end of the cycle depends on the plant before `put_off_pallet` only through the fork. */
  lemma AfterPutOffOnlyNeedsFork(p: Plant, q: Plant, po: Ended)
    requires q.fork == p.fork && q.forkTrail == p.forkTrail
    ensures AfterPutOff(q, po) == AfterPutOff(p, po)
  {
  }

  /** Backing off only appends to the log. */
  lemma BackedKeeps(r: Rig)
    ensures Appended(r, Backed(r)) && Reported(r, Backed(r))
  {
  }

  lemma DeliveryKeeps(p: Plant, back: Timer, po: Ended)
    requires Appended(Backed(p.rig), po.rig) && Reported(Backed(p.rig), po.rig)
    ensures CycleKept(p, Delivery(p, back, po))
  {
    if !Rings(back, BACKWARD_TIME) {
      RigKept(p, Waiting, p.rig.(log := p.rig.log + SpeedLines(AtMinRpm(-1, -1, -1, -1))));
    } else {
      BackedKeeps(p.rig);
      AppendedTrans(p.rig, Backed(p.rig), po.rig);
      ReportedTrans(p.rig, Backed(p.rig), po.rig);
      AfterPutOffKeeps(p, po);
    }
  }

  lemma CycleKeptTrans(p: Plant, q: Plant, r: Round)
    ensures CycleKept(p, Round(Going, q)) && CycleKept(q, r) ==> CycleKept(p, r)
  {
  }

  lemma AfterPickKeeps(p: Plant, pk: Ended, back: Timer, po: Ended)
    requires Appended(p.rig, pk.rig) && Reported(p.rig, pk.rig)
    requires Appended(Backed(pk.rig), po.rig) && Reported(Backed(pk.rig), po.rig)
    ensures CycleKept(p, AfterPick(p, pk, back, po))
  {
    match pk.progress
    case Blocked => RigKept(p, Waiting, pk.rig);
    case Raised => RigKept(p, Crashed, pk.rig);
    case Returned(picked) =>
      RigKept(p, Going, pk.rig);
      if picked {
        DeliveryKeeps(p.(rig := pk.rig), back, po);
        CycleKeptTrans(p, p.(rig := pk.rig), Delivery(p.(rig := pk.rig), back, po));
      }
  }

  /** The pick-and-place cycle never touches the fork, and keeps what iterations keep. */
  lemma CycleKeeps(p: Plant, w: IterationWorld, xAlign: bool, angleAlign: bool,
                   sin: real -> real, cos: real -> real)
    ensures CycleKept(p, Cycle(p, w, xAlign, angleAlign, sin, cos))
    ensures Advances(p, Cycle(p, w, xAlign, angleAlign, sin, cos))
  {
    PickingAppends(p.rig, w.pick, PICK_ID, xAlign, angleAlign, sin, cos);
    PickingReported(p.rig, w.pick, PICK_ID, xAlign, angleAlign, sin, cos);
    var pk := Picking(p.rig, w.pick, PICK_ID, xAlign, angleAlign, sin, cos);
    PutOffKeeps(Backed(pk.rig), w.search, w.drop, DROP_ID, xAlign, angleAlign, sin, cos);
    AfterPickKeeps(p, pk, w.back, PutOff(Backed(pk.rig), w.search, w.drop, DROP_ID, xAlign, angleAlign, sin, cos));
    CycleKeptAdvances(p, Cycle(p, w, xAlign, angleAlign, sin, cos));
  }

  lemma AdvancesTrans(p: Plant, q: Plant, r: Round)
    ensures Advances(p, Round(Going, q)) && Advances(q, r) ==> Advances(p, r)
  {
  }

  /** A fork movement, as the end of a stage: going on when it is done. */
  lemma MoveAdvances(p: Plant, m: Moved)
    ensures ForkMove(p, m) ==> Advances(p, Round(if m.done then Going else Waiting, m.plant))
  {
  }

  lemma ZeroCheckKeeps(p: Plant, pressed: seq<bool>)
    ensures Advances(p, ZeroCheck(p, pressed))
  {
    LoweringMoves(p, pressed);
  }

  lemma AutoKeeps(p: Plant, w: IterationWorld, xAlign: bool, angleAlign: bool,
                  sin: real -> real, cos: real -> real)
    ensures Advances(p, Auto(p, w, xAlign, angleAlign, sin, cos))
  {
    ServingMoves(p, w.zeroing, w.raising);
    var z := Homing(p, w.zeroing);
    MoveAdvances(p, z);
    if z.done && z.plant.rig.store.startPickingProcess {
      CycleKeeps(z.plant, w, xAlign, angleAlign, sin, cos);
      AdvancesTrans(p, z.plant, Cycle(z.plant, w, xAlign, angleAlign, sin, cos));
    }
  }

  lemma ManualKeeps(p: Plant, w: IterationWorld)
    ensures Advances(p, Manual(p, w))
  {
    var p0 := p.(rig := Report(p.rig, "-"));
    assert Advances(p, Round(Going, p0));
    ServingMoves(p0, w.zeroing, w.raising);
    var z := Homing(p0, w.zeroing);
    MoveAdvances(p0, z);
    AdvancesTrans(p, p0, Round(if z.done then Going else Waiting, z.plant));
    ServingMoves(z.plant, w.lowering, w.raising);
    var l := ServeDown(z.plant, w.lowering);
    MoveAdvances(z.plant, l);
    AdvancesTrans(p, z.plant, Round(if l.done then Going else Waiting, l.plant));
    ServingMoves(l.plant, w.lowering, w.raising);
    var u := ServeUp(l.plant, w.raising);
    MoveAdvances(l.plant, u);
    AdvancesTrans(p, l.plant, Round(if u.done then Going else Waiting, u.plant));
  }

  /** An iteration only appends to the serial log, the status histories and the coil patterns,
      never changes the mode, the frame or the pose list, keeps the store in step with the
      status histories, and leaves the coils off unless it is waiting on a fork movement. */
  lemma IterationKeeps(p: Plant, w: IterationWorld, xAlign: bool, angleAlign: bool,
                       sin: real -> real, cos: real -> real)
    ensures Advances(p, Iteration(p, w, xAlign, angleAlign, sin, cos))
  {
    var z := ZeroCheck(p, w.zeroCheck);
    ZeroCheckKeeps(p, w.zeroCheck);
    if z.status == Going {
      AutoKeeps(z.plant, w, xAlign, angleAlign, sin, cos);
      ManualKeeps(z.plant, w);
      AdvancesTrans(p, z.plant, Auto(z.plant, w, xAlign, angleAlign, sin, cos));
      AdvancesTrans(p, z.plant, Manual(z.plant, w));
    }
  }

  /** The same over any run of iterations. */
  lemma {:induction false} RunningKeeps(p: Plant, worlds: seq<IterationWorld>, xAlign: bool,
                                        angleAlign: bool, sin: real -> real, cos: real -> real)
    ensures Advances(p, Running(p, worlds, xAlign, angleAlign, sin, cos))
    decreases |worlds|
  {
    if worlds != [] {
      var i := Iteration(p, worlds[0], xAlign, angleAlign, sin, cos);
      IterationKeeps(p, worlds[0], xAlign, angleAlign, sin, cos);
      if i.status == Going {
        RunningKeeps(i.plant, worlds[1..], xAlign, angleAlign, sin, cos);
        AdvancesTrans(p, i.plant, Running(i.plant, worlds[1..], xAlign, angleAlign, sin, cos));
      }
    }
  }

  /** The first step homes the fork exactly when the web interface has reset its status to "-":
      the interface then sees "Going down", and the loop goes on only once the limit switch has
      been seen pressed, with the fork reported "Steady down", the coils off and the zero flag
      cleared. The wheels and the picking status are not touched. */
  lemma ZeroCheckHomes(p: Plant, pressed: seq<bool>)
    ensures var r := ZeroCheck(p, pressed);
      if p.rig.store.forkliftStatus != "-" then r == Round(Going, p)
      else
        && r.status != Crashed
        && (r.status == Going <==> First(pressed, Pressed()).Some?)
        && r.plant.rig == p.rig.(store := r.plant.rig.store)
        && p.forkTrail + ["Going down"] <= r.plant.forkTrail
        && (r.status == Going ==>
              && r.plant.forkTrail == p.forkTrail + ["Going down", "Steady down"]
              && r.plant.rig.store.forkliftStatus == "Steady down" && !r.plant.rig.store.forkliftZero
              && CoilsOff(r.plant))
  {
    LoweringMoves(p, pressed);
  }

  /** The store starts with the fork status "-" and the mode "manul", so the first iteration
      homes the fork and then does nothing else: the misspelt mode is neither "auto" nor
      "manual". */
  lemma FirstIterationOnlyHomes(p: Plant, w: IterationWorld, xAlign: bool, angleAlign: bool,
                                sin: real -> real, cos: real -> real)
    requires p.rig.store == INITIAL
    ensures Iteration(p, w, xAlign, angleAlign, sin, cos) == ZeroCheck(p, w.zeroCheck)
    ensures ZeroCheck(p, w.zeroCheck).plant.forkTrail[|p.forkTrail|] == "Going down"
  {
    ZeroCheckHomes(p, w.zeroCheck);
    assert (p.forkTrail + ["Going down"])[|p.forkTrail|] == "Going down";
  }

  /** Manual mode never drives the wheels and always reports the picking status "-". */
  lemma ManualReportsIdle(p: Plant, w: IterationWorld)
    ensures var r := Manual(p, w).plant.rig;
      && r.log == p.rig.log && r.target == p.rig.target && r.drive == p.rig.drive
      && r.trail == p.rig.trail + ["-"] && r.store.startPickingStatus == Some("-")
  {
  }

  /** With no homing requested and no command to serve, manual mode only reports "-". */
  lemma ManualIdles(p: Plant, w: IterationWorld)
    requires !p.rig.store.forkliftZero
    requires !(p.rig.store.forkliftStatus == "Steady up" && p.rig.store.commandDown)
    requires !(p.rig.store.forkliftStatus == "Steady down" && p.rig.store.commandUp)
    ensures Manual(p, w) == Round(Going, p.(rig := Report(p.rig, "-")))
  {
  }

  /** A fork at rest up with the down command set is lowered: the interface sees "Going down",
      and once the switch is pressed "Steady down", with the down command cleared; until then
      the iteration waits. */
  lemma ManualLowers(p: Plant, w: IterationWorld)
    requires !p.rig.store.forkliftZero
    requires p.rig.store.forkliftStatus == "Steady up" && p.rig.store.commandDown
    ensures var r := Manual(p, w);
      && p.forkTrail + ["Going down"] <= r.plant.forkTrail
      && (First(w.lowering, Pressed()).None? ==> r.status == Waiting)
      && (First(w.lowering, Pressed()).Some? ==>
            p.forkTrail + ["Going down", "Steady down"] <= r.plant.forkTrail && !r.plant.rig.store.commandDown)
  {
    var p0 := p.(rig := Report(p.rig, "-"));
    var l := Lowering(p0, w.lowering);
    if l.done {
      RaisingMoves(l.plant, w.raising);
      assert p.forkTrail + ["Going down", "Steady down"] == l.plant.forkTrail;
    }
  }

  /** A fork at rest down with the up command set is raised: the iteration goes on exactly when
      the clock reaches `UP_DURATION`, and then the interface has seen "Going up" and "Steady
      up", the up command is cleared and the coils are off. */
  lemma ManualRaises(p: Plant, w: IterationWorld)
    requires !p.rig.store.forkliftZero
    requires p.rig.store.forkliftStatus == "Steady down" && p.rig.store.commandUp
    ensures var r := Manual(p, w);
      && r.status != Crashed
      && (r.status == Going <==> Rings(w.raising, UP_DURATION))
      && r.plant.forkTrail == p.forkTrail + ["Going up"] + (if r.status == Going then ["Steady up"] else [])
      && (r.status == Going ==>
            r.plant.rig.store.forkliftStatus == "Steady up" && !r.plant.rig.store.commandUp && CoilsOff(r.plant))
  {
    RaisingMoves(p.(rig := Report(p.rig, "-")), w.raising);
  }

  /** In automatic mode nothing but the fork moves until the picking process is started. */
  lemma AutoWaitsForStart(p: Plant, w: IterationWorld, xAlign: bool, angleAlign: bool,
                          sin: real -> real, cos: real -> real)
    requires !p.rig.store.startPickingProcess
    ensures var r := Auto(p, w, xAlign, angleAlign, sin, cos);
      && r.status != Crashed
      && r.plant.rig.log == p.rig.log && r.plant.rig.trail == p.rig.trail
      && r.plant.rig.target == p.rig.target && r.plant.rig.drive == p.rig.drive
  {
  }

  /** A cycle that completed: the picking process is stopped, the status "-" is the last one
      reported and shown, and the last command sent stops the robot. */
  predicate Completed(q: Plant) {
    && !q.rig.store.startPickingProcess && q.rig.store.startPickingStatus == Some("-")
    && q.rig.trail != [] && q.rig.trail[|q.rig.trail| - 1] == "-"
    && EndsWith(q.rig.log, SpeedLines(STOP))
  }

  lemma AfterPickGoing(p: Plant, pk: Ended, back: Timer, po: Ended, r1: Rig)
    requires pk.progress == Returned(false) ==> pk.rig == r1
    requires po.progress.Returned? ==> EndsWith(po.rig.log, SpeedLines(STOP))
    ensures var r := AfterPick(p, pk, back, po);
      r.status == Going ==>
        || (pk.progress == Returned(false) && r.plant == p.(rig := r1))
        || (pk.progress == Returned(true) && po.progress.Returned? && Completed(r.plant))
  {
  }

  /** A cycle goes on only in two ways: `picking_sequence` declined after its first lookup, and
      nothing else happened; or the pallet was picked up, the drop marker was found by the
      search turn, and the cycle completed. */
  lemma CycleEnds(p: Plant, w: IterationWorld, xAlign: bool, angleAlign: bool,
                  sin: real -> real, cos: real -> real)
    ensures var r := Cycle(p, w, xAlign, angleAlign, sin, cos);
      var r1 := p.rig.(target := Resolve(p.rig.target, w.pick.first, PICK_ID));
      var go := Proceeds(xAlign, angleAlign, p.rig.store.startPickingProcess, r1.target);
      r.status == Going ==>
        || (!go && r.plant == p.(rig := r1))
        || (go && Completed(r.plant) && First(w.search, Sees(DROP_ID)).Some?)
  {
    var pk := Picking(p.rig, w.pick, PICK_ID, xAlign, angleAlign, sin, cos);
    PickingDeclines(p.rig, w.pick, PICK_ID, xAlign, angleAlign, sin, cos);
    PutOffStops(Backed(pk.rig), w.search, w.drop, DROP_ID, xAlign, angleAlign, sin, cos);
    AfterPickGoing(p, pk, w.back, PutOff(Backed(pk.rig), w.search, w.drop, DROP_ID, xAlign, angleAlign, sin, cos),
                   p.rig.(target := Resolve(p.rig.target, w.pick.first, PICK_ID)));
  }

  /** `ExeRobotControl`: the control thread's objects and flags. The shared store is the one the
      other threads use, so it is given to the constructor. */
  class ExeRobotControl {
    var running: bool
    const angleAlignPick: bool
    const xAlignPick: bool
    const angleAlignDrop: bool
    const xAlignDrop: bool
    const commandHandler: CommandHandler
    const target: Target
    const directController: DirectDriveController
    const forklift: ForkliftController
    const shared: SharedData
    var testPreviousPickingStatus: bool
    var testPreviousForkliftStatus: bool

    ghost predicate Valid()
      reads this, forklift
    {
      forklift.Valid()
    }

    ghost function State(): Plant
      reads this, target, directController, commandHandler, shared, forklift
    {
      Plant(RigOf(target, directController, commandHandler, shared), forklift.written,
            shared.forkliftStatusWrites)
    }

    /** Not running, every alignment flag down, fresh objects at rest. */
    constructor (shared: SharedData)
      ensures !running && !angleAlignPick && !xAlignPick && !angleAlignDrop && !xAlignDrop
      ensures !testPreviousPickingStatus && !testPreviousForkliftStatus
      ensures this.shared == shared
      ensures fresh(commandHandler) && fresh(target) && fresh(directController) && fresh(forklift)
      ensures commandHandler.log == [] && forklift.written == [] && forklift.Pins() == OFF
      ensures target.State() == TargetState(Val(0.0), Val(0.0), Val(0.0), 0.0)
      ensures directController.State() == DriveState(Wheels(0.0, 0.0, 0.0, 0.0), 0.0, None)
      ensures Valid()
    {
      running := false;
      angleAlignPick := false;
      xAlignPick := false;
      angleAlignDrop := false;
      xAlignDrop := false;
      commandHandler := new CommandHandler();
      target := new Target();
      directController := new DirectDriveController();
      forklift := new ForkliftController();
      this.shared := shared;
      testPreviousPickingStatus := false;
      testPreviousForkliftStatus := false;
    }

    /** `self.forklift.forklift_zero()`. */
    method Home(pressed: seq<bool>) returns (done: bool)
      requires Valid()
      modifies forklift, shared
      ensures Valid()
      ensures Moved(done, State()) == Zeroing(old(State()), pressed)
    {
      done := forklift.ForkliftZero(shared, pressed);
    }

    /** `self.forklift.move_forklift_down(False)`. */
    method Lower(pressed: seq<bool>) returns (done: bool)
      requires Valid()
      modifies forklift, shared
      ensures Valid()
      ensures Moved(done, State()) == Lowering(old(State()), pressed)
    {
      done := forklift.MoveForkliftDown(shared, false, pressed);
    }

    /** `self.forklift.move_forklift_up()`. */
    method Raise(c: Timer) returns (done: bool)
      requires Valid()
      modifies forklift, shared
      ensures Valid()
      ensures Moved(done, State()) == Raising(old(State()), c)
    {
      done := forklift.MoveForkliftUp(shared, c.start, c.readings);
    }

    /** `if shared_data.get_forklift_zero(): self.forklift.forklift_zero()`. */
    method HomeIfAsked(pressed: seq<bool>) returns (done: bool)
      requires Valid()
      modifies forklift, shared
      ensures Valid()
      ensures Moved(done, State()) == Homing(old(State()), pressed)
    {
      done := true;
      if shared.GetForkliftZero() {
        done := Home(pressed);
      }
    }

    /** The down command of manual mode. */
    method ServeDownStep(pressed: seq<bool>) returns (done: bool)
      requires Valid()
      modifies forklift, shared
      ensures Valid()
      ensures Moved(done, State()) == ServeDown(old(State()), pressed)
    {
      done := true;
      if shared.GetForkliftStatus() == "Steady up" && shared.GetForkliftCommandDown() {
        done := Lower(pressed);
      }
    }

    /** The up command of manual mode. */
    method ServeUpStep(c: Timer) returns (done: bool)
      requires Valid()
      modifies forklift, shared
      ensures Valid()
      ensures Moved(done, State()) == ServeUp(old(State()), c)
    {
      done := true;
      if shared.GetForkliftStatus() == "Steady down" && shared.GetForkliftCommandUp() {
        done := Raise(c);
      }
    }

    /** The first step of an iteration. */
    method ZeroCheckStep(pressed: seq<bool>) returns (status: Status)
      requires Valid()
      modifies forklift, shared
      ensures Valid()
      ensures Round(status, State()) == ZeroCheck(old(State()), pressed)
    {
      if shared.GetForkliftStatus() == "-" {
        var done := Home(pressed);
        if !done {
          return Waiting;
        }
        shared.SetForkliftZero(false);
      }
      status := Going;
    }
  
    /** The pick-and-place cycle, with the pick flags for both calls as the source passes them. */
    method CycleStep(w: IterationWorld, sin: real -> real, cos: real -> real) returns (status: Status)
      modifies target, commandHandler, shared, directController
      ensures Round(status, State()) == Cycle(old(State()), w, xAlignPick, angleAlignPick, sin, cos)
    {
      var picked := PickingSequence(PICK_ID, target, commandHandler, shared, directController,
                                    xAlignPick, angleAlignPick, w.pick, sin, cos);
      match picked
      case Blocked => return Waiting;
      case Raised => return Crashed;
      case Returned(value) =>
        if !value {
          return Going;
        }
        status := DeliverStep(w, sin, cos);
    }

    /** The cycle once the pallet is picked up: back off, put it off at marker 1, stop the picking
        process and reset the status. */
    method DeliverStep(w: IterationWorld, sin: real -> real, cos: real -> real) returns (status: Status)
      modifies target, commandHandler, shared, directController
      ensures var p := old(State());
        Round(status, State()) == Delivery(p, w.back, PutOff(Backed(p.rig), w.search, w.drop, DROP_ID,
                                                              xAlignPick, angleAlignPick, sin, cos))
    {
      ghost var p := State();
      var backed := AlignBackward(commandHandler, w.back.start, w.back.readings);
      if !backed {
        assert State() == p.(rig := p.rig.(log := p.rig.log + SpeedLines(AtMinRpm(-1, -1, -1, -1))));
        return Waiting;
      }
      ghost var q := State();
      assert q == p.(rig := Backed(p.rig));
      status := PlaceStep(w, sin, cos);
      AfterPutOffOnlyNeedsFork(p, q, PutOff(Backed(p.rig), w.search, w.drop, DROP_ID, xAlignPick, angleAlignPick, sin, cos));
    }

    /** `put_off_pallet(1, ...)`; when it returns, the picking process is stopped and the status
        reset to "-". */
    method PlaceStep(w: IterationWorld, sin: real -> real, cos: real -> real) returns (status: Status)
      modifies target, commandHandler, shared, directController
      ensures var p := old(State());
        Round(status, State()) == AfterPutOff(p, PutOff(p.rig, w.search, w.drop, DROP_ID,
                                                        xAlignPick, angleAlignPick, sin, cos))
    {
      var placed := PutOffPallet(DROP_ID, target, commandHandler, shared, directController,
                                 xAlignPick, angleAlignPick, w.search, w.drop, sin, cos);
      if !placed.Returned? {
        return if placed.Blocked? then Waiting else Crashed;
      }
      shared.SetStartPickingProcess(false);
      shared.SetPickingStatus("-");
      status := Going;
    }
  
    /** The automatic-mode branch of an iteration. */
    method AutoStep(w: IterationWorld, sin: real -> real, cos: real -> real) returns (status: Status)
      requires Valid()
      modifies forklift, target, commandHandler, shared, directController
      ensures Valid()
      ensures Round(status, State()) == Auto(old(State()), w, xAlignPick, angleAlignPick, sin, cos)
    {
      var done := HomeIfAsked(w.zeroing);
      if !done {
        return Waiting;
      }
      if !shared.GetStartPickingProcess() {
        return Going;
      }
      status := CycleStep(w, sin, cos);
    }

    /** The manual-mode branch of an iteration. */
    method ManualStep(w: IterationWorld) returns (status: Status)
      requires Valid()
      modifies forklift, shared
      ensures Valid()
      ensures Round(status, State()) == Manual(old(State()), w)
    {
      shared.SetPickingStatus("-");
      var done := HomeIfAsked(w.zeroing);
      if !done {
        return Waiting;
      }
      done := ServeDownStep(w.lowering);
      if !done {
        return Waiting;
      }
      done := ServeUpStep(w.raising);
      if !done {
        return Waiting;
      }
      status := Going;
    }

    /** One iteration of the loop of `run`. */
    method Step(w: IterationWorld, sin: real -> real, cos: real -> real) returns (status: Status)
      requires Valid()
      modifies forklift, target, commandHandler, shared, directController
      ensures Valid()
      ensures Round(status, State()) == Iteration(old(State()), w, xAlignPick, angleAlignPick, sin, cos)
    {
      status := ZeroCheckStep(w.zeroCheck);
      if status != Going {
        return;
      }
      if shared.GetMode() == "auto" {
        status := AutoStep(w, sin, cos);
      } else if shared.GetMode() == "manual" {
        status := ManualStep(w);
      }
    }

    /** `run()`: sets `running`, stops the robot and loops over the iterations whose readings are
        `worlds`, ending early at the first one that does not go through. */
    method Run(worlds: seq<IterationWorld>, sin: real -> real, cos: real -> real) returns (status: Status)
      requires Valid()
      modifies this, forklift, target, commandHandler, shared, directController
      ensures Valid() && running
      ensures var p := old(State());
        Round(status, State()) == Running(p.(rig := p.rig.(log := p.rig.log + SpeedLines(STOP))), worlds,
                                          xAlignPick, angleAlignPick, sin, cos)
    {
      running := true;
      StopRobot(commandHandler);
      ghost var start := State();
      var i := 0;
      while running && i < |worlds|
        invariant 0 <= i <= |worlds| && running && Valid()
        invariant Running(start, worlds, xAlignPick, angleAlignPick, sin, cos)
                  == Running(State(), worlds[i..], xAlignPick, angleAlignPick, sin, cos)
      {
        assert worlds[i..][0] == worlds[i] && worlds[i..][1..] == worlds[i + 1..];
        status := Step(worlds[i], sin, cos);
        if status != Going {
          return;
        }
        i := i + 1;
      }
      status := Going;
    }
  }
}
