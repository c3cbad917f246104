/** robotExe/sharedData.py: the store the vision, web and control threads share. A plain record
    of fields with a getter and a setter each; setters accept any value and check nothing. */
module SharedState {
  import opened Wrappers
  import opened Targeting

  /** A camera frame as the vision thread publishes it; the store never looks inside. */
  type Frame = seq<int>

  /** Every field of the store. `pickingStatus` is the field `__init__` creates; the picking
      status accessors use `startPickingStatus`, which does not exist until it is first set
      (None). */
  datatype Store = Store(
    frame: Option<Frame>,
    poseData: seq<Marker>,
    mode: string,
    startPickingProcess: bool,
    pickingStatus: string,
    startPickingStatus: Option<string>,
    forkliftZero: bool,
    commandUp: bool,
    commandDown: bool,
    forkliftStatus: string)

  /** The store as `__init__` leaves it. The mode is spelled "manul", which is neither of the
      modes the control loop acts on. */
  const INITIAL: Store := Store(None, [], "manul", false, "-", None, true, false, false, "-")

  class SharedData {
    var frame: Option<Frame>
    var poseData: seq<Marker>
    var mode: string
    var startPickingProcess: bool
    var pickingStatus: string
    var startPickingStatus: Option<string>
    var forkliftZero: bool
    var commandUp: bool
    var commandDown: bool
    var forkliftStatus: string

    /** Every value written by the picking and forklift status setters, oldest first. The web
        thread may read the store between two writes, so the intermediate statuses are
        observable. */
    ghost var pickingStatusWrites: seq<string>
    ghost var forkliftStatusWrites: seq<string>

    function Snapshot(): Store
      reads this
    {
      Store(frame, poseData, mode, startPickingProcess, pickingStatus, startPickingStatus,
            forkliftZero, commandUp, commandDown, forkliftStatus)
    }

    ghost function Writes(): (seq<string>, seq<string>)
      reads this
    {
      (pickingStatusWrites, forkliftStatusWrites)
    }

    /** The store as `__init__` leaves it; reading the picking status would raise. */
    constructor ()
      ensures Snapshot() == INITIAL
      ensures GetMode() == "manul" && GetPoseData() == [] && GetFrame() == None
      ensures !GetStartPickingProcess() && GetForkliftZero() && GetForkliftStatus() == "-"
      ensures !GetForkliftCommandUp() && !GetForkliftCommandDown()
      ensures GetPickingStatus() == None
      ensures Writes() == ([], [])
    {
      frame := None;
      poseData := [];
      mode := "manul";
      startPickingProcess := false;
      pickingStatus := "-";
      startPickingStatus := None;
      forkliftZero := true;
      commandUp := false;
      commandDown := false;
      forkliftStatus := "-";
      pickingStatusWrites := [];
      forkliftStatusWrites := [];
    }

    method SetFrame(f: Frame)
      modifies this
      ensures Snapshot() == old(Snapshot()).(frame := Some(f))
      ensures GetFrame() == Some(f)
      ensures Writes() == old(Writes())
    {
      frame := Some(f);
    }

    function GetFrame(): Option<Frame>
      reads this
    {
      frame
    }

    /** Replaces the whole list; nothing of the previous one is kept. */
    method SetPoseData(pose: seq<Marker>)
      modifies this
      ensures Snapshot() == old(Snapshot()).(poseData := pose)
      ensures GetPoseData() == pose
      ensures Writes() == old(Writes())
    {
      poseData := pose;
    }

    function GetPoseData(): seq<Marker>
      reads this
    {
      poseData
    }

    method SetMode(m: string)
      modifies this
      ensures Snapshot() == old(Snapshot()).(mode := m)
      ensures GetMode() == m
      ensures Writes() == old(Writes())
    {
      mode := m;
    }

    function GetMode(): string
      reads this
    {
      mode
    }

    method SetStartPickingProcess(value: bool)
      modifies this
      ensures Snapshot() == old(Snapshot()).(startPickingProcess := value)
      ensures GetStartPickingProcess() == value
      ensures Writes() == old(Writes())
    {
      startPickingProcess := value;
    }

    function GetStartPickingProcess(): bool
      reads this
    {
      startPickingProcess
    }

    /** Writes `startPickingStatus`; `pickingStatus` and `startPickingProcess` are untouched. */
    method SetPickingStatus(value: string)
      modifies this
      ensures Snapshot() == old(Snapshot()).(startPickingStatus := Some(value))
      ensures GetPickingStatus() == Some(value)
      ensures Writes() == (old(pickingStatusWrites) + [value], old(forkliftStatusWrites))
    {
      startPickingStatus := Some(value);
      pickingStatusWrites := pickingStatusWrites + [value];
    }

    /** None stands for the AttributeError raised when no status has been set yet. */
    function GetPickingStatus(): Option<string>
      reads this
    {
      startPickingStatus
    }

    function GetForkliftCommandUp(): bool
      reads this
    {
      commandUp
    }

    function GetForkliftCommandDown(): bool
      reads this
    {
      commandDown
    }

    method SetForkliftCommandUp(command: bool)
      modifies this
      ensures Snapshot() == old(Snapshot()).(commandUp := command)
      ensures GetForkliftCommandUp() == command
      ensures Writes() == old(Writes())
    {
      commandUp := command;
    }

    method SetForkliftCommandDown(command: bool)
      modifies this
      ensures Snapshot() == old(Snapshot()).(commandDown := command)
      ensures GetForkliftCommandDown() == command
      ensures Writes() == old(Writes())
    {
      commandDown := command;
    }

    function GetForkliftStatus(): string
      reads this
    {
      forkliftStatus
    }

    method SetForkliftStatus(status: string)
      modifies this
      ensures Snapshot() == old(Snapshot()).(forkliftStatus := status)
      ensures GetForkliftStatus() == status
      ensures Writes() == (old(pickingStatusWrites), old(forkliftStatusWrites) + [status])
    {
      forkliftStatus := status;
      forkliftStatusWrites := forkliftStatusWrites + [status];
    }

    function GetForkliftZero(): bool
      reads this
    {
      forkliftZero
    }

    method SetForkliftZero(stat: bool)
      modifies this
      ensures Snapshot() == old(Snapshot()).(forkliftZero := stat)
      ensures GetForkliftZero() == stat
      ensures Writes() == old(Writes())
    {
      forkliftZero := stat;
    }
  }
}
