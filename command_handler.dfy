/** robotExe/RobotControl/CommandHandler.py: the text protocol spoken to the motor controller over
    the serial link. The port itself is modelled by the log of strings written to it. */
module CommandHandling {
  import opened Wrappers
  import opened Text
  import opened Mecanum

  /** A value interpolated into a command: a Python `int`, a `float` that is a whole number, or
      the float not-a-number (which numpy arithmetic yields where a float64 zero is divided
      into and the infinity is then multiplied by zero). */
  datatype Num = Int(i: int) | Float(whole: int) | NaN

  /** How an f-string renders the value: `str(int)`, or for a whole float its integer digits
      followed by ".0". That is Python's rendering of the small whole floats the model sends
      (such as 20.0 and -20.0); above 1e16 in magnitude Python switches to exponent notation,
      and -0.0 keeps its sign, neither of which this form covers. Not-a-number renders as
      "nan". */
  function NumText(v: Num): (s: string)
    ensures |s| > 0
    ensures forall k :: 0 <= k < |s| ==> s[k] != '\n' && s[k] != ';' && s[k] != ':'
  {
    match v
    case Int(i) => IntText(i)
    case Float(n) => IntText(n) + ".0"
    case NaN => "nan"
  }

  /** How the receiving side reads a value back. */
  function ParseNum(t: string): Option<Num> {
    if t == "nan" then Some(NaN)
    else if |t| >= 2 && t[|t| - 2..] == ".0" then
      match ParseInt(t[..|t| - 2])
      case Some(i) => Some(Float(i))
      case None => None
    else
      match ParseInt(t)
      case Some(i) => Some(Int(i))
      case None => None
  }

  /** Every value reads back as itself, including whether it was an int or a float. */
  lemma NumTextRoundTrip(v: Num)
    ensures ParseNum(NumText(v)) == Some(v)
  {
    match v
    case Int(i) =>
      IntTextRoundTrip(i);
      var t := IntText(i);
      assert t != "nan" by { assert IsDigit(t[0]) || t[0] == '-'; }
      if |t| >= 2 {
        assert t[|t| - 1] != '0' || t[|t| - 2] != '.';
        assert t[|t| - 2..] != ".0";
      }
    case Float(n) =>
      IntTextRoundTrip(n);
      var t := IntText(n) + ".0";
      assert t != "nan" by { assert t[|t| - 1] == '0'; }
      assert t[|t| - 2..] == ".0";
      assert t[..|t| - 2] == IntText(n);
    case NaN =>
  }

  /** The motor numbers the speed commands address. */
  type MotorId = m: nat | m < 4

  const SPEED_PREFIX: string := "SET_SPEED_MOTOR_"
  const RPM_TAG: string := ":RPM:"

  /** `SET_SPEED_MOTOR_<n>:RPM:<value>;` followed by a newline. */
  function SpeedLine(motor: MotorId, v: Num): (line: string)
    ensures |line| >= 2 && line[|line| - 2..] == ";\n"
  {
    SPEED_PREFIX + IntText(motor) + RPM_TAG + NumText(v) + ";\n"
  }

  /** `SET_PID_MOTOR_<n>;Kp:<kp>;Ki:<ki>;Kd:<kd>;` followed by a newline. */
  function PidLine(motor: int, kp: Num, ki: Num, kd: Num): (line: string)
    ensures |line| >= 2 && line[|line| - 2..] == ";\n"
  {
    "SET_PID_MOTOR_" + IntText(motor) + ";Kp:" + NumText(kp) + ";Ki:" + NumText(ki)
      + ";Kd:" + NumText(kd) + ";\n"
  }

  /** The four speed lines `sendSpeedCommand` emits, motors 0 to 3 in order. */
  function SpeedLines(w: Wheels<Num>): (ls: seq<string>)
    ensures |ls| == 4
  {
    LinesFrom(w, 0)
  }

  /** The speed of motor `m`: 0 front-left, 1 front-right, 2 rear-left, 3 rear-right. */
  function Speed(w: Wheels<Num>, m: MotorId): Num {
    match m
    case 0 => w.fl
    case 1 => w.fr
    case 2 => w.rl
    case 3 => w.rr
  }

  /** The speed lines of motors `k` to 3. */
  function LinesFrom(w: Wheels<Num>, k: nat): (ls: seq<string>)
    requires k <= 4
    ensures |ls| == 4 - k
    decreases 4 - k
  {
    if k == 4 then [] else [SpeedLine(k, Speed(w, k))] + LinesFrom(w, k + 1)
  }

  /** How the motor controller reads a speed line: the motor number and the value. */
  function ParseSpeedLine(line: string): Option<(MotorId, Num)> {
    if |line| >= 24 && line[..16] == SPEED_PREFIX && '0' <= line[16] <= '3'
       && line[17..22] == RPM_TAG && line[|line| - 2..] == ";\n"
    then
      match ParseNum(line[22..|line| - 2])
      case Some(v) => Some((line[16] as int - '0' as int, v))
      case None => None
    else None
  }

  /** A speed line carries its motor and its value intact. */
  lemma SpeedLineRoundTrip(motor: MotorId, v: Num)
    ensures ParseSpeedLine(SpeedLine(motor, v)) == Some((motor, v))
  {
    var t := NumText(v);
    var line := SpeedLine(motor, v);
    assert IntText(motor) == [DigitChar(motor)];
    assert line == SPEED_PREFIX + [DigitChar(motor)] + RPM_TAG + t + ";\n";
    assert line[..16] == SPEED_PREFIX;
    assert line[16] == DigitChar(motor);
    assert line[17..22] == RPM_TAG;
    assert line[22..|line| - 2] == t;
    NumTextRoundTrip(v);
  }

  /** The four lines spelled out. */
  lemma {:induction false} SpeedLinesInOrder(w: Wheels<Num>)
    ensures SpeedLines(w) == [SpeedLine(0, w.fl), SpeedLine(1, w.fr), SpeedLine(2, w.rl), SpeedLine(3, w.rr)]
  {
    assert LinesFrom(w, 3) == [SpeedLine(3, w.rr)];
    assert LinesFrom(w, 2) == [SpeedLine(2, w.rl), SpeedLine(3, w.rr)];
  }

  /** Line `m` of a speed command addresses motor `m` and carries that motor's value. */
  lemma SpeedLinesAddressMotors(w: Wheels<Num>, m: MotorId)
    ensures ParseSpeedLine(SpeedLines(w)[m]) == Some((m, Speed(w, m)))
  {
    SpeedLinesInOrder(w);
    SpeedLineRoundTrip(m, Speed(w, m));
  }


  /** A newline-free text closed by ";\n" holds exactly one newline. */
  lemma {:induction false} OneLine(x: string)
    requires '\n' !in x
    ensures Count(x + ";\n", '\n') == 1
  {
    CountAbsent(x, '\n');
    CountAppend(x, ";\n", '\n');
    assert Count(";\n", '\n') == 1;
  }

  lemma NoNewlineInNum(v: Num)
    ensures '\n' !in NumText(v)
  {
  }

  lemma NoNewlineInInt(n: int)
    ensures '\n' !in IntText(n)
  {
  }

  /** Each speed command is exactly one protocol line: its only newline is the final one. */
  lemma SpeedLineIsOneLine(motor: MotorId, v: Num)
    ensures Count(SpeedLine(motor, v), '\n') == 1
  {
    NoNewlineInInt(motor);
    NoNewlineInNum(v);
    OneLine(SPEED_PREFIX + IntText(motor) + RPM_TAG + NumText(v));
  }

  /** Each PID command is exactly one protocol line: its only newline is the final one. */
  lemma PidLineIsOneLine(motor: int, kp: Num, ki: Num, kd: Num)
    ensures Count(PidLine(motor, kp, ki, kd), '\n') == 1
  {
    var a := "SET_PID_MOTOR_" + IntText(motor);
    assert '\n' !in a by { NoNewlineInInt(motor); }
    var b := a + ";Kp:" + NumText(kp);
    assert '\n' !in b by { NoNewlineInNum(kp); }
    var c := b + ";Ki:" + NumText(ki);
    assert '\n' !in c by { NoNewlineInNum(ki); }
    var d := c + ";Kd:" + NumText(kd);
    assert '\n' !in d by { NoNewlineInNum(kd); }
    OneLine(d);
  }

  /** The serial link to the motor controller. Everything written to it is kept in `log`, one
      entry per write, oldest first. */
  class CommandHandler {
    const baudrate: int
    const port: string
    var log: seq<string>

    /** Opens the link; nothing has been written yet. */
    constructor (baudrate: int := 115200, port: string := "/dev/ttyACM1")
      ensures this.baudrate == baudrate && this.port == port
      ensures log == []
    {
      this.baudrate := baudrate;
      this.port := port;
      log := [];
    }

    /** Writes the text unchanged; earlier writes stay as they were. */
    method SendData(data: string)
      modifies this
      ensures log == old(log) + [data]
    {
      log := log + [data];
    }

    method SetFLSpeed(fl: Num)
      modifies this
      ensures log == old(log) + [SpeedLine(0, fl)]
    {
      SendData(SpeedLine(0, fl));
    }

    method SetFRSpeed(fr: Num)
      modifies this
      ensures log == old(log) + [SpeedLine(1, fr)]
    {
      SendData(SpeedLine(1, fr));
    }

    method SetRLSpeed(rl: Num)
      modifies this
      ensures log == old(log) + [SpeedLine(2, rl)]
    {
      SendData(SpeedLine(2, rl));
    }

    method SetRRSpeed(rr: Num)
      modifies this
      ensures log == old(log) + [SpeedLine(3, rr)]
    {
      SendData(SpeedLine(3, rr));
    }

    method SendPidCommand(motor: int, kp: Num, ki: Num, kd: Num)
      modifies this
      ensures log == old(log) + [PidLine(motor, kp, ki, kd)]
    {
      SendData(PidLine(motor, kp, ki, kd));
    }

    /** Four lines, motors 0, 1, 2, 3 in that order. */
    method SendSpeedCommand(fl: Num, fr: Num, rl: Num, rr: Num)
      modifies this
      ensures log == old(log) + SpeedLines(Wheels(fl, fr, rl, rr))
    {
      SetFLSpeed(fl);
      SetFRSpeed(fr);
      SetRLSpeed(rl);
      SetRRSpeed(rr);
      SpeedLinesInOrder(Wheels(fl, fr, rl, rr));
    }

    /** Decodes the line just received (`received`, as `readline` returned it) and strips the
        surrounding whitespace, the terminating newline included. */
    method ReadUart(received: string) returns (text: string)
      ensures text == Strip(received)
      ensures |text| <= |received|
      ensures text != [] ==> !IsSpace(text[0]) && !IsSpace(text[|text| - 1])
    {
      text := Strip(received);
    }
  }
}
