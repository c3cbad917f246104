/** robotExe/RobotControl/ForkLiftController.py: the fork's stepper motor, driven through four
    output pins with an 8-step half-step table. Going up runs for a fixed time; going down runs
    until the bottom limit switch is pressed. Both report progress through the shared store. */
module Forklift {
  import opened Wrappers
  import opened Lookup
  import opened SharedState
  import opened RobotUtils

  /** A pin level. */
  type Bit = b: int | 0 <= b <= 1

  /** One row of the step table: the levels written to in1, in2, in3 and in4. */
  datatype Row = Row(in1: Bit, in2: Bit, in3: Bit, in4: Bit)

  /** The half-step sequence, in the order the motor steps forward (fork up). */
  const STEP_SEQUENCE: seq<Row> := [
    Row(1, 0, 0, 0),
    Row(1, 1, 0, 0),
    Row(0, 1, 0, 0),
    Row(0, 1, 1, 0),
    Row(0, 0, 1, 0),
    Row(0, 0, 1, 1),
    Row(0, 0, 0, 1),
    Row(1, 0, 0, 1)
  ]

  /** All coils off. */
  const OFF: Row := Row(0, 0, 0, 0)

  /** `move_forklift_up`'s default running time, in seconds. */
  const UP_DURATION: real := 25.0

  /** Number of coils a row energises. */
  function Energised(r: Row): nat {
    r.in1 + r.in2 + r.in3 + r.in4
  }

  /** Number of coils whose level differs between two rows. */
  function Changes(a: Row, b: Row): nat {
    (if a.in1 != b.in1 then 1 else 0) + (if a.in2 != b.in2 then 1 else 0)
    + (if a.in3 != b.in3 then 1 else 0) + (if a.in4 != b.in4 then 1 else 0)
  }

  /** Each row energises one or two coils, and every row differs from the next one in exactly one
      coil, the last row from the first included, so the table can be run over and over. */
  predicate HalfStepCycle(rows: seq<Row>) {
    && |rows| > 0
    && (forall i :: 0 <= i < |rows| ==> 1 <= Energised(rows[i]) <= 2)
    && (forall i :: 0 <= i < |rows| - 1 ==> Changes(rows[i], rows[i + 1]) == 1)
    && Changes(rows[|rows| - 1], rows[0]) == 1
  }

  /** A run of pin patterns in which consecutive patterns differ in exactly one coil and every
      pattern energises one or two coils. */
  predicate Smooth(t: seq<Row>) {
    && (forall i :: 0 <= i < |t| ==> 1 <= Energised(t[i]) <= 2)
    && (forall i :: 0 <= i < |t| - 1 ==> Changes(t[i], t[i + 1]) == 1)
  }

  /** The rows in the opposite order, as `reversed(...)` yields them. */
  function Reversed(rows: seq<Row>): (r: seq<Row>)
    ensures |r| == |rows|
  {
    seq(|rows|, i requires 0 <= i < |rows| => rows[|rows| - 1 - i])
  }

  /** `n` full passes over the table. */
  function Repeat(rows: seq<Row>, n: nat): (r: seq<Row>)
    ensures |r| == n * |rows|
  {
    if n == 0 then [] else Repeat(rows, n - 1) + rows
  }

  /** The table has 8 rows of 4 pins and is a half-step cycle. */
  lemma StepTable()
    ensures |STEP_SEQUENCE| == 8
    ensures HalfStepCycle(STEP_SEQUENCE)
  {
    assert forall i :: 0 <= i < |STEP_SEQUENCE| ==> 1 <= Energised(STEP_SEQUENCE[i]) <= 2;
    assert forall i :: 0 <= i < |STEP_SEQUENCE| - 1 ==> Changes(STEP_SEQUENCE[i], STEP_SEQUENCE[i + 1]) == 1;
  }

  /** A half-step cycle run backwards is one too: the motor can step the other way. */
  lemma {:induction false} ReversedCycle(rows: seq<Row>)
    requires HalfStepCycle(rows)
    ensures HalfStepCycle(Reversed(rows))
  {
    var r := Reversed(rows);
    var n := |rows|;
    forall i | 0 <= i < n
      ensures 1 <= Energised(r[i]) <= 2
    {
      assert r[i] == rows[n - 1 - i];
    }
    forall i | 0 <= i < n - 1
      ensures Changes(r[i], r[i + 1]) == 1
    {
      assert r[i] == rows[n - 1 - i] && r[i + 1] == rows[n - 2 - i];
      assert Changes(rows[n - 2 - i], rows[n - 1 - i]) == 1;
    }
    assert r[n - 1] == rows[0] && r[0] == rows[n - 1];
  }

  /** Running a half-step cycle any number of times moves one coil at a time throughout. */
  lemma {:induction false} RepeatSmooth(rows: seq<Row>, n: nat)
    requires HalfStepCycle(rows)
    ensures Smooth(Repeat(rows, n))
  {
    if n > 0 {
      RepeatSmooth(rows, n - 1);
      var a := Repeat(rows, n - 1);
      var t := a + rows;
      forall i | 0 <= i < |t|
        ensures 1 <= Energised(t[i]) <= 2
      {
        if i >= |a| {
          assert t[i] == rows[i - |a|];
        }
      }
      forall i | 0 <= i < |t| - 1
        ensures Changes(t[i], t[i + 1]) == 1
      {
        if i + 1 < |a| {
        } else if i + 1 == |a| {
          assert a[|a| - 1] == rows[|rows| - 1];
          assert t[i + 1] == rows[0];
        } else {
          assert t[i] == rows[i - |a|] && t[i + 1] == rows[i + 1 - |a|];
        }
      }
    }
  }

  /** Every pin pattern either motion writes changes one coil from the one before. */
  lemma PassesAreSmooth(n: nat)
    ensures Smooth(Repeat(STEP_SEQUENCE, n))
    ensures Smooth(Repeat(Reversed(STEP_SEQUENCE), n))
  {
    StepTable();
    ReversedCycle(STEP_SEQUENCE);
    RepeatSmooth(STEP_SEQUENCE, n);
    RepeatSmooth(Reversed(STEP_SEQUENCE), n);
  }

  /** The pattern on the pins after the patterns `w` have been written in turn: the last one,
      all coils off before the first. */
  function Latest(w: seq<Row>): Row {
    if w == [] then OFF else w[|w| - 1]
  }

  /** How many readings a sensor loop consumes before one of them stops it: the position of
      the first reading `halt` accepts, or all of them. */
  function Halts<T>(readings: seq<T>, halt: T -> bool): (n: nat)
    ensures n <= |readings|
    ensures n < |readings| ==> halt(readings[n])
    ensures forall j :: 0 <= j < n ==> !halt(readings[j])
  {
    match First(readings, halt)
    case Some(n) => n
    case None => |readings|
  }

  /** The test `self.down_pin.is_pressed`. */
  function Pressed(): bool -> bool {
    (b: bool) => b
  }

  /** The four motor pins. `written` records every pattern written to them, oldest first: the
      sequence of coil states the motor goes through. */
  class ForkliftController {
    var in1: Bit
    var in2: Bit
    var in3: Bit
    var in4: Bit
    const stepDelay: real
    ghost var written: seq<Row>

    function Pins(): Row
      reads this
    {
      Row(in1, in2, in3, in4)
    }

    /** The pins hold the last pattern written to them. */
    ghost predicate Valid()
      reads this
    {
      Pins() == Latest(written)
    }

    /** The pins start low. */
    constructor ()
      ensures Pins() == OFF && written == [] && stepDelay == 0.0007
      ensures Valid()
    {
      in1, in2, in3, in4 := 0, 0, 0, 0;
      stepDelay := 0.0007;
      written := [];
    }

    /** `set_pins(step)`: in1..in4 take step[0..3], nothing else changes. */
    method SetPins(step: Row)
      modifies this
      ensures Pins() == step && written == old(written) + [step]
      ensures Valid()
    {
      in1 := step.in1;
      in2 := step.in2;
      in3 := step.in3;
      in4 := step.in4;
      written := written + [step];
    }

    /** The inner `for step in ...: self.set_pins(step)` loop: one pass over the table. */
    method Pass(rows: seq<Row>)
      requires Valid()
      modifies this
      ensures Valid()
      ensures written == old(written) + rows
      ensures rows != [] ==> Pins() == rows[|rows| - 1]
      ensures rows == [] ==> Pins() == old(Pins())
    {
      for j := 0 to |rows|
        invariant written == old(written) + rows[..j]
        invariant j > 0 ==> Pins() == rows[j - 1]
        invariant j == 0 ==> Pins() == old(Pins())
        invariant Valid()
      {
        SetPins(rows[j]);
        assert rows[..j + 1] == rows[..j] + [rows[j]];
      }
      assert rows[..|rows|] == rows;
    }

    /** A `while` loop of whole passes over `rows` that reads a sensor before each pass and stops
        at the first reading `halt` accepts; `readings` are the successive values the sensor
        returns. With no such reading the source is still stepping after all of them. */
    method RunPasses<T>(rows: seq<Row>, readings: seq<T>, halt: T -> bool) returns (passes: nat)
      requires Valid()
      modifies this
      ensures Valid()
      ensures passes == Halts(readings, halt)
      ensures written == old(written) + Repeat(rows, passes)
    {
      passes := 0;
      while passes < |readings| && !halt(readings[passes])
        invariant passes <= |readings|
        invariant Valid()
        invariant forall j :: 0 <= j < passes ==> !halt(readings[j])
        invariant written == old(written) + Repeat(rows, passes)
      {
        Pass(rows);
        passes := passes + 1;
      }
      if passes < |readings| {
        FirstIsUnique(readings, halt, passes);
      }
    }

    /** `move_forklift_up(duration)`: reports "Going up", runs whole forward passes while fewer
        than `duration` seconds have passed since `start` (the clock is read before each pass
        and `readings` are the values it returns), then switches the coils off, reports
        "Steady up" and clears the up command. The limit switch is never read. `done` is false
        when no reading reaches the duration: the source is then still stepping. */
    method MoveForkliftUp(shared: SharedData, start: real, readings: seq<real>,
                          duration: real := UP_DURATION) returns (done: bool)
      requires Valid()
      modifies this, shared
      ensures Valid()
      ensures done <==> First(readings, Elapsed(start, duration)).Some?
      ensures written == old(written) + Repeat(STEP_SEQUENCE, Halts(readings, Elapsed(start, duration)))
                         + (if done then [OFF] else [])
      ensures done ==> Pins() == OFF
      ensures done ==> shared.Snapshot()
                         == old(shared.Snapshot()).(forkliftStatus := "Steady up", commandUp := false)
      ensures !done ==> shared.Snapshot() == old(shared.Snapshot()).(forkliftStatus := "Going up")
      ensures shared.pickingStatusWrites == old(shared.pickingStatusWrites)
      ensures shared.forkliftStatusWrites == old(shared.forkliftStatusWrites) + ["Going up"]
                                             + (if done then ["Steady up"] else [])
    {
      shared.SetForkliftStatus("Going up");
      var _ := RunPasses(STEP_SEQUENCE, readings, Elapsed(start, duration));
      done := First(readings, Elapsed(start, duration)).Some?;
      if done {
        SetPins(OFF);
        shared.SetForkliftStatus("Steady up");
        shared.SetForkliftCommandUp(false);
      }
    }

    /** `move_forklift_down(zero)`: reports "Going down", reads the limit switch before each pass
        and runs whole reverse passes while it is not pressed (none when it already is), then
        switches the coils off, reports "Steady down" and clears the down command. `pressed` are
        the successive switch readings; `zero` only changes what is printed, and the zero flag
        is not touched. `done` is false when the switch is never seen pressed. */
    method MoveForkliftDown(shared: SharedData, zero: bool, pressed: seq<bool>) returns (done: bool)
      requires Valid()
      modifies this, shared
      ensures Valid()
      ensures done <==> First(pressed, Pressed()).Some?
      ensures written == old(written) + Repeat(Reversed(STEP_SEQUENCE), Halts(pressed, Pressed()))
                         + (if done then [OFF] else [])
      ensures done ==> Pins() == OFF
      ensures done ==> shared.Snapshot()
                         == old(shared.Snapshot()).(forkliftStatus := "Steady down", commandDown := false)
      ensures !done ==> shared.Snapshot() == old(shared.Snapshot()).(forkliftStatus := "Going down")
      ensures shared.pickingStatusWrites == old(shared.pickingStatusWrites)
      ensures shared.forkliftStatusWrites == old(shared.forkliftStatusWrites) + ["Going down"]
                                             + (if done then ["Steady down"] else [])
    {
      shared.SetForkliftStatus("Going down");
      var _ := RunPasses(Reversed(STEP_SEQUENCE), pressed, Pressed());
      done := First(pressed, Pressed()).Some?;
      if done {
        SetPins(OFF);
        shared.SetForkliftStatus("Steady down");
        shared.SetForkliftCommandDown(false);
      }
    }

    /** `forklift_zero()`: lowers the fork onto the limit switch and then clears the zero flag. */
    method ForkliftZero(shared: SharedData, pressed: seq<bool>) returns (done: bool)
      requires Valid()
      modifies this, shared
      ensures Valid()
      ensures done <==> First(pressed, Pressed()).Some?
      ensures written == old(written) + Repeat(Reversed(STEP_SEQUENCE), Halts(pressed, Pressed()))
                         + (if done then [OFF] else [])
      ensures done ==> Pins() == OFF
      ensures done ==> shared.Snapshot() == old(shared.Snapshot())
                         .(forkliftStatus := "Steady down", commandDown := false, forkliftZero := false)
      ensures !done ==> shared.Snapshot() == old(shared.Snapshot()).(forkliftStatus := "Going down")
      ensures shared.pickingStatusWrites == old(shared.pickingStatusWrites)
      ensures shared.forkliftStatusWrites == old(shared.forkliftStatusWrites) + ["Going down"]
                                             + (if done then ["Steady down"] else [])
    {
      done := MoveForkliftDown(shared, true, pressed);
      if done {
        shared.SetForkliftZero(false);
      }
    }
  }
}
