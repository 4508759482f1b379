/**
 * The device controllers of both controller programs: the towing carriage
 * (`TowingCarriage` / `tuoche`), the camera PC (`CameraController` /
 * `shexiang`), the forced-oscillation actuator of the newer program
 * (`ForcedOscillationController`) and the self-excited oscillation actuator
 * of the older one (`forceback`).
 *
 * Each controller keeps the device's last known status and appends every
 * command it sends to its `log`; sending never fails as far as the controller
 * can tell (see `Sender`), so the log is exactly the sequence of commands the
 * controller tried to deliver. A method that Python lets raise returns
 * `ok == false` instead, with the state it had at the raise.
 */
module Devices {

  import opened Protocol

  /**
   * Which controller program a carriage object belongs to: the older one
   * (`tuoche`) or the newer one (`TowingCarriage`).
   */
  datatype Generation = Older | Newer

  // ------------------------------------------------------------ the journal

  /** The three devices the controllers talk to. */
  datatype Device = Carriage | Camera | Actuator

  /**
   * One entry of the order in which things happen across the devices: a
   * command sent to a device, or the start of the listener that waits for the
   * finish messages.
   */
  datatype Event = Sent(device: Device, cmd: Command) | ListenStart

  /**
   * A record, kept for the proofs only, of everything every controller sends
   * and of every start of the listener, in the order it happens. The
   * controllers of one program share one journal; each device's own `log`
   * is its projection.
   */
  class Journal {
    ghost var events: seq<Event>

    constructor ()
      ensures events == []
    {
      events := [];
    }
  }

  /** The journal entries for commands `cmds` sent to `device`, in order. */
  function Sends(device: Device, cmds: seq<Command>): (j: seq<Event>)
    ensures |j| == |cmds|
    ensures forall k :: 0 <= k < |j| ==> j[k] == Sent(device, cmds[k])
  {
    seq(|cmds|, k requires 0 <= k < |cmds| => Sent(device, cmds[k]))
  }

  /** Sending two batches one after the other journals them one after the other. */
  lemma SendsAppend(device: Device, a: seq<Command>, b: seq<Command>)
    ensures Sends(device, a + b) == Sends(device, a) + Sends(device, b)
  {
    assert forall k :: 0 <= k < |a + b| ==> Sends(device, a + b)[k] == (Sends(device, a) + Sends(device, b))[k];
  }

  /** The carriage's order to start moving: its direction command. */
  predicate IsCarriageMove(e: Event)
  {
    e == Sent(Carriage, MovePos) || e == Sent(Carriage, MoveNeg)
  }

  /** The actuator's order to start moving. */
  predicate IsActuatorMove(e: Event)
  {
    e == Sent(Actuator, Command.Move)
  }

  /** An order to start moving, to the carriage or to the actuator. */
  predicate IsMove(e: Event)
  {
    IsCarriageMove(e) || IsActuatorMove(e)
  }

  /** No entry of `j` starts a drive. */
  predicate Still(j: seq<Event>)
  {
    forall i :: 0 <= i < |j| ==> !IsMove(j[i])
  }

  /** No entry of `j` starts the listener. */
  predicate Unheard(j: seq<Event>)
  {
    forall i :: 0 <= i < |j| ==> j[i] != ListenStart
  }

  /** In `j` every start of the listener comes before every order to move. */
  predicate ListensBeforeMoves(j: seq<Event>)
  {
    forall m, k :: 0 <= m < |j| && 0 <= k < |j| && IsMove(j[m]) && j[k] == ListenStart ==> k < m
  }

  /** In `j` every order to move comes before every start of the listener. */
  predicate MovesBeforeListening(j: seq<Event>)
  {
    forall m, k :: 0 <= m < |j| && 0 <= k < |j| && IsMove(j[m]) && j[k] == ListenStart ==> m < k
  }

  /** In `j` every order to move the actuator comes before every order to move the carriage. */
  predicate ActuatorBeforeCarriage(j: seq<Event>)
  {
    forall a, c :: 0 <= a < |j| && 0 <= c < |j| && IsActuatorMove(j[a]) && IsCarriageMove(j[c]) ==> a < c
  }

  /**
   * A stretch that never moves the carriage followed by one that never moves
   * the actuator moves the actuator first.
   */
  lemma ActuatorFirst(before: seq<Event>, after: seq<Event>)
    requires forall i :: 0 <= i < |before| ==> !IsCarriageMove(before[i])
    requires forall i :: 0 <= i < |after| ==> !IsActuatorMove(after[i])
    ensures ActuatorBeforeCarriage(before + after)
  {
    var j := before + after;
    assert forall i :: 0 <= i < |before| ==> j[i] == before[i];
    assert forall i :: |before| <= i < |j| ==> j[i] == after[i - |before|];
  }

  /**
   * A listener started between a stretch with no moves and a stretch with no
   * other listener start comes before every move.
   */
  lemma ListenerInBetween(before: seq<Event>, after: seq<Event>)
    requires Still(before) && Unheard(after)
    ensures ListensBeforeMoves(before + [ListenStart] + after)
  {
    var j := before + [ListenStart] + after;
    assert forall i :: 0 <= i < |before| ==> j[i] == before[i];
    assert forall i :: |before| < i < |j| ==> j[i] == after[i - |before| - 1];
  }

  /**
   * A listener started between a stretch with no other listener start and a
   * stretch with no moves comes after every move.
   */
  lemma ListenerAfter(before: seq<Event>, after: seq<Event>)
    requires Unheard(before) && Still(after)
    ensures MovesBeforeListening(before + [ListenStart] + after)
  {
    var j := before + [ListenStart] + after;
    assert forall i :: 0 <= i < |before| ==> j[i] == before[i];
    assert forall i :: |before| < i < |j| ==> j[i] == after[i - |before| - 1];
  }

  /**
   * The towing carriage. The two programs' classes differ in two places:
   * only the newer `initial` zeroes the position, and only the newer `move`
   * records the speed (the older one stores the built-in `abs` function in
   * `Movespeed`, which the model leaves as it was).
   */
  class TowingCarriage {
    const generation: Generation
    const journal: Journal
    var initStatus: bool
    var enableStatus: bool
    var moveStatus: bool
    var position: real
    var moveSpeed: real
    var moveAcc: real
    var moveDec: real
    var totalDistance: real
    /** 1 runs forward (`MOVE_POS`), 0 backward (`MOVE_NEG`). */
    var moveDirection: int
    var log: seq<Command>

    constructor (generation: Generation, journal: Journal)
      ensures this.generation == generation && this.journal == journal
      ensures !initStatus && !enableStatus && !moveStatus
      ensures position == 0.0 && moveSpeed == 0.0 && moveAcc == 0.0 && moveDec == 0.0
      ensures totalDistance == 1.0 && moveDirection == 0 && log == []
    {
      this.generation, this.journal := generation, journal;
      initStatus, enableStatus, moveStatus := false, false, false;
      position, moveSpeed, moveAcc, moveDec := 0.0, 0.0, 0.0, 0.0;
      totalDistance, moveDirection, log := 1.0, 0, [];
    }

    /** `changedistance`: sends the travel distance and records it. */
    method ChangeDistance(distance: real)
      modifies this`log, this`totalDistance, journal
      ensures log == old(log) + [Distance(distance)]
      ensures journal.events == old(journal.events) + Sends(Carriage, [Distance(distance)])
      ensures totalDistance == distance
    {
      log := log + [Distance(distance)];
      journal.events := journal.events + Sends(Carriage, [Distance(distance)]);
      totalDistance := distance;
    }

    /**
     * `initial`: initialise, reset and zero the drive. The newer program also
     * records position 0; the older one keeps the recorded position.
     */
    method Initial()
      modifies this`log, this`initStatus, this`position, journal
      ensures log == old(log) + [Init, Reset, Command.SetZero]
      ensures journal.events == old(journal.events) + Sends(Carriage, [Init, Reset, Command.SetZero])
      ensures initStatus
      ensures generation == Newer ==> position == 0.0
      ensures generation == Older ==> position == old(position)
    {
      log := log + [Init, Reset, Command.SetZero];
      journal.events := journal.events + Sends(Carriage, [Init, Reset, Command.SetZero]);
      initStatus := true;
      if generation == Newer {
        position := 0.0;
      }
    }

    /** `setzero`: zero the drive's position. */
    method SetZero()
      modifies this`log, this`position, journal
      ensures log == old(log) + [Command.SetZero]
      ensures journal.events == old(journal.events) + Sends(Carriage, [Command.SetZero])
      ensures position == 0.0
    {
      log := log + [Command.SetZero];
      journal.events := journal.events + Sends(Carriage, [Command.SetZero]);
      position := 0.0;
    }

    /** `enable`: switch the servo on, but only once the drive is initialised. */
    method Enable()
      modifies this`log, this`enableStatus, journal
      ensures initStatus ==> log == old(log) + [EnableServo] && enableStatus
      ensures initStatus ==> journal.events == old(journal.events) + Sends(Carriage, [EnableServo])
      ensures !initStatus ==> log == old(log) && enableStatus == old(enableStatus)
      ensures !initStatus ==> journal.events == old(journal.events)
    {
      if initStatus {
        log := log + [EnableServo];
        journal.events := journal.events + Sends(Carriage, [EnableServo]);
        enableStatus := true;
      }
    }

    /** `disable`: switch the servo off, but only if it is on. */
    method Disable()
      modifies this`log, this`enableStatus, journal
      ensures old(enableStatus) ==> log == old(log) + [DisableServo]
      ensures old(enableStatus) ==> journal.events == old(journal.events) + Sends(Carriage, [DisableServo])
      ensures !old(enableStatus) ==> log == old(log) && journal.events == old(journal.events)
      ensures !enableStatus
    {
      if enableStatus {
        log := log + [DisableServo];
        journal.events := journal.events + Sends(Carriage, [DisableServo]);
        enableStatus := false;
      }
    }

    /**
     * `move`: allowed only with the servo on and the carriage at position 0;
     * then it sends speed, acceleration, deceleration and the direction
     * command and marks the carriage moving. Otherwise it raises
     * (`RuntimeError` in the newer program, `KeyError` in the older one;
     * `ok == false`) having sent and changed nothing.
     */
    method Move(vel: real, acc: real := 0.2, dec: real := 0.2) returns (ok: bool)
      modifies this`log, this`moveSpeed, this`moveAcc, this`moveDec, this`moveStatus, journal
      ensures ok <==> enableStatus && position == 0.0
      ensures ok ==> log == old(log) + CarriageMoveCommands(vel, acc, dec, moveDirection)
      ensures ok ==> journal.events == old(journal.events) + Sends(Carriage, CarriageMoveCommands(vel, acc, dec, moveDirection))
      ensures ok ==> moveStatus && moveAcc == acc && moveDec == dec
      ensures ok && generation == Newer ==> moveSpeed == Abs(vel)
      ensures ok && generation == Older ==> moveSpeed == old(moveSpeed)
      ensures !ok ==> log == old(log) && moveStatus == old(moveStatus) && journal.events == old(journal.events)
      ensures !ok ==> moveSpeed == old(moveSpeed) && moveAcc == old(moveAcc) && moveDec == old(moveDec)
    {
      var absVel := Abs(vel);
      if enableStatus && position == 0.0 {
        log := log + [SetSpeed(absVel)];
        if generation == Newer {
          moveSpeed := absVel;
        }
        log := log + [SetAcc(acc)];
        moveAcc := acc;
        log := log + [SetDec(dec)];
        moveDec := dec;
        log := log + [DirectionCommand(moveDirection)];
        journal.events := journal.events + Sends(Carriage, CarriageMoveCommands(vel, acc, dec, moveDirection));
        moveStatus := true;
        ok := true;
      } else {
        ok := false;
      }
    }

    /** `stop`: halt and switch the servo off, whatever the state. */
    method Stop()
      modifies this`log, this`moveStatus, this`enableStatus, journal
      ensures log == old(log) + [Command.Stop, DisableServo]
      ensures journal.events == old(journal.events) + Sends(Carriage, [Command.Stop, DisableServo])
      ensures !moveStatus && !enableStatus
    {
      log := log + [Command.Stop];
      moveStatus := false;
      log := log + [DisableServo];
      journal.events := journal.events + Sends(Carriage, [Command.Stop, DisableServo]);
      enableStatus := false;
    }
  }

  /** The camera PC (`CameraController`; the older `shexiang` behaves the same). */
  class CameraController {
    const journal: Journal
    var photoStatus: bool
    var log: seq<Command>

    constructor (journal: Journal)
      ensures this.journal == journal && !photoStatus && log == []
    {
      this.journal := journal;
      photoStatus, log := false, [];
    }

    /** `auto`: set the recording time, start a self-stopping recording. */
    method Auto(durationS: real, name: string)
      modifies this, journal
      ensures log == old(log) + [Command.ChangeTime(durationS), AutoPhoto(name)]
      ensures journal.events == old(journal.events) + Sends(Camera, [Command.ChangeTime(durationS), AutoPhoto(name)])
      ensures photoStatus
    {
      log := log + [Command.ChangeTime(durationS), AutoPhoto(name)];
      journal.events := journal.events + Sends(Camera, [Command.ChangeTime(durationS), AutoPhoto(name)]);
      photoStatus := true;
    }

    /**
     * `start`: start recording. It sends the token `STRATPHOTO`, which the
     * camera tool does not recognise (see `CameraTool.StratPhotoIgnored`).
     */
    method Start(name: string)
      modifies this, journal
      ensures log == old(log) + [StratPhoto(name)]
      ensures journal.events == old(journal.events) + Sends(Camera, [StratPhoto(name)])
      ensures photoStatus
    {
      log := log + [StratPhoto(name)];
      journal.events := journal.events + Sends(Camera, [StratPhoto(name)]);
      photoStatus := true;
    }

    /** `stop`: stop recording (the name defaults to a single blank). */
    method Stop(name: string := " ")
      modifies this, journal
      ensures log == old(log) + [StopPhoto(name)]
      ensures journal.events == old(journal.events) + Sends(Camera, [StopPhoto(name)])
      ensures !photoStatus
    {
      log := log + [StopPhoto(name)];
      journal.events := journal.events + Sends(Camera, [StopPhoto(name)]);
      photoStatus := false;
    }

    /** `changetime`: set the recording time only. */
    method ChangeTime(durationS: real)
      modifies this, journal
      ensures log == old(log) + [Command.ChangeTime(durationS)]
      ensures journal.events == old(journal.events) + Sends(Camera, [Command.ChangeTime(durationS)])
      ensures photoStatus == old(photoStatus)
    {
      log := log + [Command.ChangeTime(durationS)];
      journal.events := journal.events + Sends(Camera, [Command.ChangeTime(durationS)]);
    }
  }

  /** The actuator parameters of one run (columns A1, f1, A2, f2, Theta, Count). */
  datatype OscParams = OscParams(a1: real, f1: real, a2: real, f2: real, theta: real, cycleTime: real)

  /** What `enable` of the actuator sends, in order. */
  function OscEnableCommands(name: string, p: OscParams): seq<Command>
  {
    [SetName(name), SetA1(p.a1), SetF1(p.f1), SetA2(p.a2), SetF2(p.f2),
     SetTheta(p.theta), SetCycle(p.cycleTime), EnableControl]
  }

  /** The forced-oscillation actuator (`ForcedOscillationController`). */
  class ForcedOscillationController {
    const journal: Journal
    var name: string
    var enableStatus: bool
    var moveStatus: bool
    var position: real
    var a1: real
    var f1: real
    var a2: real
    var f2: real
    var theta: real
    var cycleTime: real
    var log: seq<Command>

    constructor (journal: Journal)
      ensures this.journal == journal
      ensures name == "" && !enableStatus && !moveStatus && position == 0.0
      ensures a1 == 0.0 && f1 == 0.0 && a2 == 0.0 && f2 == 0.0 && theta == 0.0 && cycleTime == 0.0
      ensures log == []
    {
      this.journal := journal;
      name, enableStatus, moveStatus, position := "", false, false, 0.0;
      a1, f1, a2, f2, theta, cycleTime := 0.0, 0.0, 0.0, 0.0, 0.0, 0.0;
      log := [];
    }

    /** The six stored run parameters. */
    function Params(): OscParams
      reads this
    {
      OscParams(a1, f1, a2, f2, theta, cycleTime)
    }

    /**
     * `enable`: send the case name and the six parameters, store all of them
     * (`f2` from `f2`), then switch control on. Always allowed.
     */
    method Enable(name: string, a1: real, f1: real, a2: real, f2: real, theta: real, cycleTime: real)
      modifies this`name, this`a1, this`f1, this`a2, this`f2, this`theta, this`cycleTime
      modifies this`enableStatus, this`log, journal
      ensures this.name == name && Params() == OscParams(a1, f1, a2, f2, theta, cycleTime)
      ensures enableStatus
      ensures log == old(log) + OscEnableCommands(name, OscParams(a1, f1, a2, f2, theta, cycleTime))
      ensures journal.events ==
        old(journal.events) + Sends(Actuator, OscEnableCommands(name, OscParams(a1, f1, a2, f2, theta, cycleTime)))
    {
      this.name := name;
      log := log + [SetName(this.name), SetA1(a1), SetF1(f1), SetA2(a2), SetF2(f2),
                    SetTheta(theta), SetCycle(cycleTime)];
      this.a1, this.f1, this.a2, this.f2, this.theta, this.cycleTime := a1, f1, a2, f2, theta, cycleTime;
      log := log + [EnableControl];
      journal.events :=
        journal.events + Sends(Actuator, OscEnableCommands(name, OscParams(a1, f1, a2, f2, theta, cycleTime)));
      enableStatus := true;
    }

    /** `disable`: switch control off, but only if it is on. */
    method Disable()
      modifies this`log, this`enableStatus, journal
      ensures old(enableStatus) ==> log == old(log) + [DisableControl]
      ensures old(enableStatus) ==> journal.events == old(journal.events) + Sends(Actuator, [DisableControl])
      ensures !old(enableStatus) ==> log == old(log) && journal.events == old(journal.events)
      ensures !enableStatus
    {
      if enableStatus {
        log := log + [DisableControl];
        journal.events := journal.events + Sends(Actuator, [DisableControl]);
        enableStatus := false;
      }
    }

    /**
     * `move`: start the oscillation if control is on; otherwise raise
     * `RuntimeError` (`ok == false`) leaving the state as it was.
     */
    method Move() returns (ok: bool)
      modifies this`log, this`moveStatus, journal
      ensures ok <==> enableStatus
      ensures ok ==> log == old(log) + [Command.Move] && moveStatus
      ensures ok ==> journal.events == old(journal.events) + Sends(Actuator, [Command.Move])
      ensures !ok ==> log == old(log) && moveStatus == old(moveStatus) && journal.events == old(journal.events)
    {
      if enableStatus {
        log := log + [Command.Move];
        journal.events := journal.events + Sends(Actuator, [Command.Move]);
        moveStatus := true;
        ok := true;
      } else {
        ok := false;
      }
    }
  }

  /**
   * The parameters of one run of the self-excited oscillation program
   * (columns VirtM, DampR, StiffKCF, StiffKIL, RealMass, Vr, AddZeta).
   */
  datatype SelfExcitedParams = SelfExcitedParams(
    mass: real, dampingRatio: real, stiffnessCF: real, stiffnessIL: real,
    realMass: real, vr: real, addZeta: real)

  /** What `Enable` of the self-excited actuator sends, in order. */
  function SelfExcitedEnableCommands(name: string, p: SelfExcitedParams, runtime: real): seq<Command>
  {
    [SetName(name), SetVm(p.mass), SetDRatio(p.dampingRatio), SetVsCF(p.stiffnessCF),
     SetVsIL(p.stiffnessIL), SetRm(p.realMass), SetVr(p.vr), SetAddZeta(p.addZeta),
     SetRuntime(runtime), EnableControl]
  }

  /** The self-excited oscillation actuator of the older program (`forceback`). */
  class SelfExcitedController {
    const journal: Journal
    var name: string
    var enableStatus: bool
    var moveStatus: bool
    var position: real
    var mass: real
    var dampingRatio: real
    var stiffnessCF: real
    var stiffnessIL: real
    var realMass: real
    var vr: real
    var addZeta: real
    var runtime: real
    var log: seq<Command>

    constructor (journal: Journal)
      ensures this.journal == journal
      ensures name == "" && !enableStatus && !moveStatus && position == 0.0
      ensures mass == 0.0 && dampingRatio == 0.0 && stiffnessCF == 0.0 && stiffnessIL == 0.0
      ensures realMass == 0.0 && vr == 0.0 && addZeta == 0.0 && runtime == 0.0
      ensures log == []
    {
      this.journal := journal;
      name, enableStatus, moveStatus, position := "", false, false, 0.0;
      mass, dampingRatio, stiffnessCF, stiffnessIL := 0.0, 0.0, 0.0, 0.0;
      realMass, vr, addZeta, runtime := 0.0, 0.0, 0.0, 0.0;
      log := [];
    }

    /** The seven stored run parameters. */
    function Params(): SelfExcitedParams
      reads this
    {
      SelfExcitedParams(mass, dampingRatio, stiffnessCF, stiffnessIL, realMass, vr, addZeta)
    }

    /**
     * `Enable`: send the case name, the seven parameters and the run time,
     * storing each, then switch control on. The stored in-line stiffness is
     * the damping ratio: the program sends `stiffnessIL` but assigns
     * `dampingratio` to the field.
     */
    method Enable(name: string, mass: real, dampingRatio: real, stiffnessCF: real, stiffnessIL: real,
                  realMass: real, vr: real, addZeta: real, runtime: real)
      modifies this`name, this`mass, this`dampingRatio, this`stiffnessCF, this`stiffnessIL
      modifies this`realMass, this`vr, this`addZeta, this`runtime, this`enableStatus, this`log, journal
      ensures this.name == name && this.runtime == runtime
      ensures Params() == SelfExcitedParams(mass, dampingRatio, stiffnessCF, dampingRatio, realMass, vr, addZeta)
      ensures enableStatus
      ensures log == old(log) + SelfExcitedEnableCommands(name,
        SelfExcitedParams(mass, dampingRatio, stiffnessCF, stiffnessIL, realMass, vr, addZeta), runtime)
      ensures journal.events == old(journal.events) + Sends(Actuator, SelfExcitedEnableCommands(name,
        SelfExcitedParams(mass, dampingRatio, stiffnessCF, stiffnessIL, realMass, vr, addZeta), runtime))
    {
      this.name, this.mass, this.dampingRatio, this.stiffnessCF := name, mass, dampingRatio, stiffnessCF;
      this.stiffnessIL := dampingRatio;
      this.realMass, this.vr, this.addZeta, this.runtime := realMass, vr, addZeta, runtime;
      log := log + SelfExcitedEnableCommands(name,
        SelfExcitedParams(mass, dampingRatio, stiffnessCF, stiffnessIL, realMass, vr, addZeta), runtime);
      journal.events := journal.events + Sends(Actuator, SelfExcitedEnableCommands(name,
        SelfExcitedParams(mass, dampingRatio, stiffnessCF, stiffnessIL, realMass, vr, addZeta), runtime));
      enableStatus := true;
    }

    /** `Disable`: switch control off, but only if it is on. */
    method Disable()
      modifies this`log, this`enableStatus, journal
      ensures old(enableStatus) ==> log == old(log) + [DisableControl]
      ensures old(enableStatus) ==> journal.events == old(journal.events) + Sends(Actuator, [DisableControl])
      ensures !old(enableStatus) ==> log == old(log) && journal.events == old(journal.events)
      ensures !enableStatus
    {
      if enableStatus {
        log := log + [DisableControl];
        journal.events := journal.events + Sends(Actuator, [DisableControl]);
        enableStatus := false;
      }
    }

    /**
     * `Move`: start the oscillation if control is on; otherwise raise
     * `KeyError` (`ok == false`) leaving the state as it was.
     */
    method Move() returns (ok: bool)
      modifies this`log, this`moveStatus, journal
      ensures ok <==> enableStatus
      ensures ok ==> log == old(log) + [Command.Move] && moveStatus
      ensures ok ==> journal.events == old(journal.events) + Sends(Actuator, [Command.Move])
      ensures !ok ==> log == old(log) && moveStatus == old(moveStatus) && journal.events == old(journal.events)
    {
      if enableStatus {
        log := log + [Command.Move];
        journal.events := journal.events + Sends(Actuator, [Command.Move]);
        moveStatus := true;
        ok := true;
      } else {
        ok := false;
      }
    }
  }
}
