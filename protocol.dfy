/**
 * The outbound command vocabulary of the rig: every ASCII command the two
 * controller generations send to the carriage, the camera PC and the
 * oscillation actuator. A device's command log is a sequence of these values;
 * numeric payloads are kept as numbers, and their decimal rendering (Python's
 * `str(float)`) is the parameter `num` of `Wire`.
 */
module Protocol {

  import Text

  datatype Command =
    // towing carriage
    | Init | Reset | SetZero | EnableServo | DisableServo | Stop | MovePos | MoveNeg
    | Distance(distance: real) | SetSpeed(speed: real) | SetAcc(acc: real) | SetDec(dec: real)
    // camera PC
    | ChangeTime(seconds: real) | AutoPhoto(photoName: string)
    | StratPhoto(photoName: string) | StopPhoto(photoName: string)
    // forced-oscillation actuator
    | SetName(caseName: string)
    | SetA1(a1: real) | SetF1(f1: real) | SetA2(a2: real) | SetF2(f2: real)
    | SetTheta(theta: real) | SetCycle(cycleTime: real)
    | EnableControl | DisableControl | Move
    // self-excited oscillation program of the older generation
    | SetVm(mass: real) | SetDRatio(dampingRatio: real) | SetVsCF(stiffness: real)
    | SetVsIL(stiffness: real) | SetRm(realMass: real) | SetVr(vr: real)
    | SetAddZeta(addZeta: real) | SetRuntime(runtime: real)

  /** The token that starts the command's text on the wire. */
  function Keyword(c: Command): string
  {
    match c
    case Init => "INIT"
    case Reset => "RESET"
    case SetZero => "SETZERO"
    case EnableServo => "ENABLE_SERVO"
    case DisableServo => "DISABLE_SERVO"
    case Stop => "STOP"
    case MovePos => "MOVE_POS"
    case MoveNeg => "MOVE_NEG"
    case Distance(_) => "DISTANCE"
    case SetSpeed(_) => "SET_SPEED"
    case SetAcc(_) => "SET_ACC"
    case SetDec(_) => "SET_DEC"
    case ChangeTime(_) => "CHANGETIME"
    case AutoPhoto(_) => "AUTOPHOTO"
    case StratPhoto(_) => "STRATPHOTO"
    case StopPhoto(_) => "STOPPHOTO"
    case SetName(_) => "SET_NAME"
    case SetA1(_) => "SET_A1"
    case SetF1(_) => "SET_F1"
    case SetA2(_) => "SET_A2"
    case SetF2(_) => "SET_F2"
    case SetTheta(_) => "SET_THETA"
    case SetCycle(_) => "SET_CYCLE"
    case EnableControl => "ENABLE_CONTROL"
    case DisableControl => "DISABLE_CONTROL"
    case Move => "MOVE"
    case SetVm(_) => "SET_VM"
    case SetDRatio(_) => "SET_DRATIO"
    case SetVsCF(_) => "SET_VSCF"
    case SetVsIL(_) => "SET_VSIL"
    case SetRm(_) => "SET_RM"
    case SetVr(_) => "SET_Vr"
    case SetAddZeta(_) => "SET_AddZeta"
    case SetRuntime(_) => "SET_RUNTIME"
  }

  /** The payload after the colon, if the command carries one. */
  function Payload(c: Command, num: real -> string): Text.Option<string>
  {
    match c
    case Distance(v) => Text.Some(num(v))
    case SetSpeed(v) => Text.Some(num(v))
    case SetAcc(v) => Text.Some(num(v))
    case SetDec(v) => Text.Some(num(v))
    case ChangeTime(v) => Text.Some(num(v))
    case AutoPhoto(n) => Text.Some(n)
    case StratPhoto(n) => Text.Some(n)
    case StopPhoto(n) => Text.Some(n)
    case SetName(n) => Text.Some(n)
    case SetA1(v) => Text.Some(num(v))
    case SetF1(v) => Text.Some(num(v))
    case SetA2(v) => Text.Some(num(v))
    case SetF2(v) => Text.Some(num(v))
    case SetTheta(v) => Text.Some(num(v))
    case SetCycle(v) => Text.Some(num(v))
    case SetVm(v) => Text.Some(num(v))
    case SetDRatio(v) => Text.Some(num(v))
    case SetVsCF(v) => Text.Some(num(v))
    case SetVsIL(v) => Text.Some(num(v))
    case SetRm(v) => Text.Some(num(v))
    case SetVr(v) => Text.Some(num(v))
    case SetAddZeta(v) => Text.Some(num(v))
    case SetRuntime(v) => Text.Some(num(v))
    case _ => Text.None
  }

  /**
   * The ASCII text sent for a command, `KEYWORD` or `KEYWORD:payload`, with
   * `num` rendering numbers.
   */
  function Wire(c: Command, num: real -> string): string
  {
    match Payload(c, num)
    case None => Keyword(c)
    case Some(p) => Keyword(c) + ":" + p
  }

  // ------------------------------------------------------------ command groups

  function Abs(x: real): (r: real)
    ensures r >= 0.0 && (r == x || r == -x)
  {
    if x < 0.0 then -x else x
  }

  /** `MOVE_NEG` for direction 0, `MOVE_POS` for anything else. */
  function DirectionCommand(direction: int): (c: Command)
    ensures c == MoveNeg || c == MovePos
  {
    if direction == 0 then MoveNeg else MovePos
  }

  /**
   * What a carriage `move` that is allowed sends, in order: speed magnitude,
   * acceleration, deceleration, then the direction command.
   */
  function CarriageMoveCommands(vel: real, acc: real, dec: real, direction: int): seq<Command>
  {
    [SetSpeed(Abs(vel)), SetAcc(acc), SetDec(dec), DirectionCommand(direction)]
  }
}
