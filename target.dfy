/** new_app/RobotControl/Target.py: the tracked pallet marker. `getPoseData` looks up the marker
    with a given id in the latest pose list and copies its angle and position into the target;
    when the marker is not in view the three fields hold the "Not Visible" sentinel. */
module Targeting {
  import opened Wrappers
  import opened Lookup
  import opened PyMath

  /** One pose dictionary published by the vision thread: marker id, roll in degrees, lateral
      offset `x_cm` and distance `z_cm`. */
  datatype Marker = Marker(id: int, roll: real, xCm: real, zCm: real)

  /** A target field: a number, or the string "Not Visible". */
  datatype Reading = NotVisible | Val(v: real)

  /** The triple `getPoseValues` returns, in its order: angle, x, y. */
  datatype PoseValues = PoseValues(angle: Reading, x: Reading, y: Reading)

  /** The three fields are numbers together or the sentinel together. */
  predicate AllOrNothing(angle: Reading, x: Reading, y: Reading) {
    (angle.Val? && x.Val? && y.Val?) || (angle.NotVisible? && x.NotVisible? && y.NotVisible?)
  }

  /** `getPoseValues(target)`: the negated roll, `x_cm` and `z_cm` of a marker, or the sentinel
      three times for None. */
  function GetPoseValues(target: Option<Marker>): (p: PoseValues)
    ensures AllOrNothing(p.angle, p.x, p.y)
    ensures p.x.Val? <==> target.Some?
    ensures target.Some? ==> p.angle.v == -target.value.roll && p.x.v == target.value.xCm
                             && p.y.v == target.value.zCm
  {
    match target
    case None => PoseValues(NotVisible, NotVisible, NotVisible)
    case Some(m) => PoseValues(Val(-m.roll), Val(m.xCm), Val(m.zCm))
  }

  /** The test `x.get("id") == id`. */
  function HasId(id: int): Marker -> bool {
    (m: Marker) => m.id == id
  }

  /** The four fields of a target. */
  datatype TargetState = TargetState(x: Reading, y: Reading, angle: Reading, angleRad: real)

  predicate Consistent(t: TargetState) {
    AllOrNothing(t.angle, t.x, t.y)
  }

  /** What `getPoseData(pose, id)` leaves in a target that held `t`: the first marker with the id
      decides angle, x, y and the angle in radians; with no such marker angle, x and y become
      the sentinel and the angle in radians keeps its old value. */
  function Resolve(t: TargetState, pose: seq<Marker>, id: int): TargetState {
    match First(pose, HasId(id))
    case Some(i) =>
      var p := GetPoseValues(Some(pose[i]));
      TargetState(p.x, p.y, p.angle, Radians(-pose[i].roll))
    case None =>
      var p := GetPoseValues(None);
      t.(x := p.x, y := p.y, angle := p.angle)
  }

  /** A lookup leaves the fields all numeric or all the sentinel, whatever they held before. */
  lemma ResolveConsistent(t: TargetState, pose: seq<Marker>, id: int)
    ensures Consistent(Resolve(t, pose, id))
  {
  }

  /** When some marker has the id, the first one gives angle = -Roll, x = x_cm, y = z_cm. */
  lemma ResolveFirstMatch(t: TargetState, pose: seq<Marker>, id: int, i: nat)
    requires i < |pose| && pose[i].id == id
    requires forall j :: 0 <= j < i ==> pose[j].id != id
    ensures var r := Resolve(t, pose, id);
      r == TargetState(Val(pose[i].xCm), Val(pose[i].zCm), Val(-pose[i].roll),
                       Radians(-pose[i].roll))
  {
    FirstIsUnique(pose, HasId(id), i);
  }

  /** With no marker of that id in view, angle, x and y read "Not Visible" and the angle in
      radians is left as it was. */
  lemma ResolveNoMatch(t: TargetState, pose: seq<Marker>, id: int)
    requires forall j :: 0 <= j < |pose| ==> pose[j].id != id
    ensures Resolve(t, pose, id) == t.(x := NotVisible, y := NotVisible, angle := NotVisible)
  {
  }

  /** Markers after the first match are never looked at. */
  lemma ResolveIgnoresRest(t: TargetState, pose: seq<Marker>, rest: seq<Marker>, id: int)
    requires First(pose, HasId(id)).Some?
    ensures Resolve(t, pose + rest, id) == Resolve(t, pose, id)
  {
    FirstOfAppend(pose, rest, HasId(id));
    var i := First(pose, HasId(id)).value;
    assert (pose + rest)[i] == pose[i];
  }

  /** When some marker has the id, the lookup does not depend on what the target held. */
  lemma ResolveForgets(t: TargetState, u: TargetState, pose: seq<Marker>, id: int)
    requires First(pose, HasId(id)).Some?
    ensures Resolve(t, pose, id) == Resolve(u, pose, id)
  {
  }

  /** The target's angle, position and angle in radians, updated in place by `getPoseData`. */
  class Target {
    var x: Reading
    var y: Reading
    var angle: Reading
    var angleRad: real

    function State(): TargetState
      reads this
    {
      TargetState(x, y, angle, angleRad)
    }

    /** A new target is at the origin: every field is 0. */
    constructor ()
      ensures State() == TargetState(Val(0.0), Val(0.0), Val(0.0), 0.0)
    {
      x := Val(0.0);
      y := Val(0.0);
      angle := Val(0.0);
      angleRad := 0.0;
    }

    /** `getPoseData(pose, id)`: scans the list in order, writing the sentinel for every marker
        with another id and the marker's values on the first match, where it returns True.
        `found` is false where the source falls off the end and returns None. */
    method GetPoseData(pose: seq<Marker>, id: int) returns (found: bool)
      modifies this
      ensures found <==> First(pose, HasId(id)).Some?
      ensures State() == Resolve(old(State()), pose, id)
    {
      if |pose| > 0 {
        var i := 0;
        while i < |pose|
          invariant i <= |pose|
          invariant forall j :: 0 <= j < i ==> !HasId(id)(pose[j])
          invariant angleRad == old(angleRad)
          invariant i == 0 ==> State() == old(State())
          invariant i > 0 ==> x == NotVisible && y == NotVisible && angle == NotVisible
        {
          if pose[i].id == id {
            var p := GetPoseValues(Some(pose[i]));
            angle, x, y := p.angle, p.x, p.y;
            angleRad := Radians(p.angle.v);
            FirstIsUnique(pose, HasId(id), i);
            return true;
          } else {
            var p := GetPoseValues(None);
            angle, x, y := p.angle, p.x, p.y;
          }
          i := i + 1;
        }
      } else {
        var p := GetPoseValues(None);
        angle, x, y := p.angle, p.x, p.y;
      }
      found := false;
    }
  }
}
