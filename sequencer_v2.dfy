/**
 * `run_experiments_from_csv` of the newer controller: one pass over the
 * condition table, running every row not yet finished while the camera and
 * the carriage are idle.
 *
 * The table is the value read from the CSV file and the returned `table` the
 * value last saved; `inbox(i)` is the traffic that reaches the listener while
 * row `i` runs. The waits (`timeinterval`) take no part in the model.
 */
module SequencerV2 {

  import opened Text
  import opened Protocol
  import opened Runs
  import opened Devices
  import opened ListenerV2

  /** A row of the condition table: name, speed, actuator parameters, `Finished`. */
  type Condition = Row<OscParams>

  /** The smallest speed magnitude the run time is computed with (`1e-12`). */
  const MinSpeed: real := 0.000000000001

  /**
   * The recording time of a run, `total_distance / max(abs(speed), 1e-12)`:
   * the time to cover the distance at the row's speed, whatever its sign;
   * a zero speed never divides by zero.
   */
  function Runtime(distance: real, speed: real): (t: real)
    ensures Abs(speed) >= MinSpeed ==> t * Abs(speed) == distance
    ensures Abs(speed) < MinSpeed ==> t * MinSpeed == distance
  {
    if Abs(speed) >= MinSpeed then distance / Abs(speed) else distance / MinSpeed
  }

  /** The direction of travel does not change the recording time. */
  lemma RuntimeIgnoresSign(distance: real, speed: real)
    ensures Runtime(distance, -speed) == Runtime(distance, speed)
  {
    assert Abs(-speed) == Abs(speed);
  }

  /**
   * Over a distance that is not negative the recording time is never
   * negative, and a faster row (in either direction) never records longer.
   */
  lemma RuntimeShrinksWithSpeed(distance: real, slow: real, fast: real)
    requires distance >= 0.0 && Abs(slow) <= Abs(fast)
    ensures 0.0 <= Runtime(distance, fast) <= Runtime(distance, slow)
  {
    var a := if Abs(slow) >= MinSpeed then Abs(slow) else MinSpeed;
    var b := if Abs(fast) >= MinSpeed then Abs(fast) else MinSpeed;
    assert 0.0 < a <= b;
    var x, y := Runtime(distance, fast), Runtime(distance, slow);
    assert x * b == distance && y * a == distance;
    assert x >= 0.0;
    assert x * a <= x * b by {
      assert x * (b - a) >= 0.0;
    }
    assert x * a <= y * a;
  }

  /** The carriage commands of `initial` followed by `enable`. */
  function StartUpCommands(): seq<Command>
  {
    [Init, Reset, Command.SetZero, EnableServo]
  }

  /** The carriage's journal entries of `initial` and `enable`, sent only at position 0. */
  function StartUpJournal(atZero: bool): seq<Event>
  {
    if atZero then Sends(Carriage, StartUpCommands()) else []
  }

  /**
   * `if tow.position == 0: tow.initial(); tow.enable()`, shared by both
   * programs: at position 0 the carriage is initialised and its servo
   * switched on; elsewhere it is sent nothing. The position stays as it was.
   */
  method StartUp(tow: TowingCarriage)
    modifies tow`log, tow`initStatus, tow`position, tow`enableStatus, tow.journal
    ensures tow.position == old(tow.position)
    ensures old(tow.position) == 0.0 ==> tow.log == old(tow.log) + StartUpCommands() && tow.enableStatus
    ensures old(tow.position) != 0.0 ==> tow.log == old(tow.log)
    ensures tow.journal.events == old(tow.journal.events) + StartUpJournal(old(tow.position) == 0.0)
  {
    if tow.position == 0.0 {
      tow.Initial();
      tow.Enable();
      SendsAppend(Carriage, [Init, Reset, Command.SetZero], [EnableServo]);
    }
  }

  /**
   * The journal of a row's preparations: the carriage's start-up when it
   * stands at 0, the actuator's parameters, the camera's recording, then the
   * start of the listener.
   */
  function PrepareJournal(row: Condition, runtime: real, atZero: bool): seq<Event>
  {
    StartUpJournal(atZero)
    + Sends(Actuator, OscEnableCommands(row.name, row.params))
    + Sends(Camera, [Command.ChangeTime(runtime), AutoPhoto(row.name)])
    + [ListenStart]
  }

  /**
   * The journal of a row's run that ends in `r`, the carriage's direction
   * being `direction`: a run that raises stops after its preparations; the
   * others go on to move the carriage, then the actuator, and a completed one
   * zeroes and switches off both drives.
   */
  function RowJournal(row: Condition, runtime: real, direction: int, r: RowResult): seq<Event>
  {
    if r.RowRaised? then PrepareJournal(row, runtime, false)
    else
      var moving := PrepareJournal(row, runtime, true)
        + Sends(Carriage, CarriageMoveCommands(row.speed, 0.2, 0.2, direction)) + Sends(Actuator, [Command.Move]);
      if r.RowHung? then moving
      else moving + Sends(Carriage, [Command.SetZero, DisableServo]) + Sends(Actuator, [DisableControl])
  }

  /** A stretch of commands none of which starts a drive. */
  lemma SendsStill(device: Device, cmds: seq<Command>)
    requires forall k :: 0 <= k < |cmds| ==> cmds[k] != MovePos && cmds[k] != MoveNeg && cmds[k] != Command.Move
    ensures Still(Sends(device, cmds))
  {
  }

  /**
   * In every run of the newer program the listener starts before the
   * carriage or the actuator is told to move; a run that goes past its
   * preparations orders both to move, and one that raises orders neither.
   */
  lemma RowListensFirst(row: Condition, runtime: real, direction: int, r: RowResult)
    ensures ListensBeforeMoves(RowJournal(row, runtime, direction, r))
    ensures ListenStart in RowJournal(row, runtime, direction, r)
    ensures r.RowRaised? ==> Still(RowJournal(row, runtime, direction, r))
    ensures !r.RowRaised? ==>
      Sent(Carriage, DirectionCommand(direction)) in RowJournal(row, runtime, direction, r) &&
      Sent(Actuator, Command.Move) in RowJournal(row, runtime, direction, r)
  {
    var atZero := !r.RowRaised?;
    var startUp := StartUpJournal(atZero);
    var enable := Sends(Actuator, OscEnableCommands(row.name, row.params));
    var record := Sends(Camera, [Command.ChangeTime(runtime), AutoPhoto(row.name)]);
    SendsStill(Carriage, StartUpCommands());
    SendsStill(Actuator, OscEnableCommands(row.name, row.params));
    SendsStill(Camera, [Command.ChangeTime(runtime), AutoPhoto(row.name)]);
    var before := startUp + enable + record;
    assert Still(before);
    var moves := Sends(Carriage, CarriageMoveCommands(row.speed, 0.2, 0.2, direction)) + Sends(Actuator, [Command.Move]);
    var after := if r.RowRaised? then []
      else if r.RowHung? then moves
      else moves + Sends(Carriage, [Command.SetZero, DisableServo]) + Sends(Actuator, [DisableControl]);
    assert RowJournal(row, runtime, direction, r) == before + [ListenStart] + after;
    ListenerInBetween(before, after);
    if !r.RowRaised? {
      assert after[3] == Sent(Carriage, DirectionCommand(direction)) && after[4] == Sent(Actuator, Command.Move);
    }
  }

  /** What a row's run adds to a journal listens before it moves. */
  lemma RowJournalOrdered(prior: seq<Event>, row: Condition, runtime: real, direction: int, r: RowResult)
    ensures ListensBeforeMoves((prior + RowJournal(row, runtime, direction, r))[|prior|..])
  {
    assert (prior + RowJournal(row, runtime, direction, r))[|prior|..] == RowJournal(row, runtime, direction, r);
    RowListensFirst(row, runtime, direction, r);
  }

  /**
   * The preparations of a row's run: initialise and enable the carriage when
   * it is at position 0, enable the actuator with the row's parameters, start
   * an automatic recording of `runtime` seconds and start the listener, which
   * clears the finish events.
   */
  method PrepareRun(row: Condition, runtime: real, tow: TowingCarriage,
                    cam: CameraController, osc: ForcedOscillationController, ev: FinishEvents)
    requires cam.journal == tow.journal && osc.journal == tow.journal && ev.journal == tow.journal
    modifies tow, cam, osc, ev, tow.journal
    ensures tow.moveDirection == old(tow.moveDirection) && tow.totalDistance == old(tow.totalDistance)
    ensures tow.position == old(tow.position)
    ensures tow.journal.events == old(tow.journal.events) + PrepareJournal(row, runtime, old(tow.position) == 0.0)
    ensures old(tow.position) == 0.0 ==> tow.log == old(tow.log) + StartUpCommands() && tow.enableStatus
    ensures old(tow.position) != 0.0 ==> tow.log == old(tow.log)
    ensures osc.name == row.name && osc.Params() == row.params && osc.enableStatus
    ensures osc.log == old(osc.log) + OscEnableCommands(row.name, row.params)
    ensures cam.log == old(cam.log) + [Command.ChangeTime(runtime), AutoPhoto(row.name)]
    ensures !ev.moveDone && !ev.photoDone && !ev.controlDone
  {
    StartUp(tow);
    var p := row.params;
    osc.Enable(row.name, p.a1, p.f1, p.a2, p.f2, p.theta, p.cycleTime);
    cam.Auto(runtime, row.name);
    Open(ev);
  }

  /**
   * The first half of a row's run: `PrepareRun`, then move the carriage and
   * the actuator. The carriage refuses to move unless it stands at 0, and
   * then has been sent nothing.
   */
  method StartRun(row: Condition, runtime: real, tow: TowingCarriage,
                  cam: CameraController, osc: ForcedOscillationController, ev: FinishEvents)
    returns (moved: bool)
    requires cam.journal == tow.journal && osc.journal == tow.journal && ev.journal == tow.journal
    modifies tow, cam, osc, ev, tow.journal
    ensures tow.moveDirection == old(tow.moveDirection) && tow.totalDistance == old(tow.totalDistance)
    ensures moved <==> old(tow.position) == 0.0
    ensures !moved ==> tow.log == old(tow.log) && tow.position == old(tow.position)
    ensures !moved ==> osc.log == old(osc.log) + OscEnableCommands(row.name, row.params)
    ensures !moved ==> tow.journal.events == old(tow.journal.events) + PrepareJournal(row, runtime, false)
    ensures moved ==>
      tow.journal.events == old(tow.journal.events) + PrepareJournal(row, runtime, true)
      + Sends(Carriage, CarriageMoveCommands(row.speed, 0.2, 0.2, tow.moveDirection)) + Sends(Actuator, [Command.Move])
    ensures osc.name == row.name && osc.Params() == row.params
    ensures cam.log == old(cam.log) + [Command.ChangeTime(runtime), AutoPhoto(row.name)]
    ensures moved ==>
      && tow.log == old(tow.log) + StartUpCommands() + CarriageMoveCommands(row.speed, 0.2, 0.2, tow.moveDirection)
      && osc.log == old(osc.log) + OscEnableCommands(row.name, row.params) + [Command.Move]
      && tow.position == 0.0 && tow.enableStatus && osc.enableStatus
      && !ev.moveDone && !ev.photoDone && !ev.controlDone
  {
    PrepareRun(row, runtime, tow, cam, osc, ev);
    moved := tow.Move(row.speed);
    if moved {
      var oscMoved := osc.Move();
      assert oscMoved;
    }
  }

  /**
   * `listener_thread.join()`: the listener, its events already cleared, runs
   * to its end. It returns exactly when the traffic holds the three finish
   * messages, and then camera, carriage and actuator are idle.
   */
  method AwaitFinish(inbox: seq<string>, tow: TowingCarriage, cam: CameraController,
                     osc: ForcedOscillationController, ev: FinishEvents)
    returns (done: bool)
    requires !ev.moveDone && !ev.photoDone && !ev.controlDone
    modifies tow`moveStatus, tow`position, cam`photoStatus, osc`moveStatus, ev
    ensures done <==> AcksPresent(inbox)
    ensures done ==> !cam.photoStatus && !tow.moveStatus && !osc.moveStatus
  {
    ghost var listening := Capture(tow, cam, osc, ev);
    assert Cleared(listening) == listening;
    var consumed;
    done, consumed := Serve(inbox, tow, cam, osc, ev);
    ListenCompletesIff(listening, inbox);
    if done {
      ListenDoneMeansIdle(listening, inbox);
    }
  }

  /**
   * A row that runs (camera and carriage idle): `StartRun`, wait for the
   * listener, then zero and switch off carriage and actuator.
   *
   * A row raises exactly when the carriage is away from position 0, having
   * sent nothing to the carriage. Otherwise it completes exactly when its
   * traffic holds the three finish messages, and leaves every device idle
   * and switched off, the carriage at 0.
   */
  method RunRow(row: Condition, runtime: real, inbox: seq<string>, tow: TowingCarriage,
                cam: CameraController, osc: ForcedOscillationController, ev: FinishEvents)
    returns (r: RowResult)
    requires cam.journal == tow.journal && osc.journal == tow.journal && ev.journal == tow.journal
    modifies tow, cam, osc, ev, tow.journal
    ensures tow.moveDirection == old(tow.moveDirection) && tow.totalDistance == old(tow.totalDistance)
    ensures r.RowRaised? <==> old(tow.position) != 0.0
    ensures r.RowRaised? ==> r.fault == CannotMove && tow.log == old(tow.log) && tow.position == old(tow.position)
    ensures r.RowRaised? ==> osc.log == old(osc.log) + OscEnableCommands(row.name, row.params)
    ensures tow.journal.events == old(tow.journal.events) + RowJournal(row, runtime, tow.moveDirection, r)
    ensures ListensBeforeMoves(tow.journal.events[|old(tow.journal.events)|..])
    ensures !r.RowRaised? ==> (r.RowCompleted? <==> AcksPresent(inbox))
    ensures osc.name == row.name && osc.Params() == row.params
    ensures r.RowCompleted? ==>
      && tow.log == old(tow.log) + StartUpCommands() + CarriageMoveCommands(row.speed, 0.2, 0.2, tow.moveDirection)
                    + [Command.SetZero, DisableServo]
      && cam.log == old(cam.log) + [Command.ChangeTime(runtime), AutoPhoto(row.name)]
      && osc.log == old(osc.log) + OscEnableCommands(row.name, row.params) + [Command.Move, DisableControl]
      && tow.position == 0.0 && !tow.moveStatus && !tow.enableStatus
      && !cam.photoStatus && !osc.moveStatus && !osc.enableStatus
  {
    ghost var prior := tow.journal.events;
    var moved := StartRun(row, runtime, tow, cam, osc, ev);
    if !moved {
      r := RowRaised(CannotMove);
    } else {
      var done := AwaitFinish(inbox, tow, cam, osc, ev);
      if !done {
        r := RowHung;
      } else {
        FinishRun(tow, osc);
        r := RowCompleted;
      }
    }
    RowJournalOrdered(prior, row, runtime, tow.moveDirection, r);
  }

  /**
   * The end of a completed run: zero the carriage, switch its servo off and
   * switch the actuator's control off.
   */
  method FinishRun(tow: TowingCarriage, osc: ForcedOscillationController)
    requires tow.enableStatus && osc.enableStatus
    requires osc.journal == tow.journal
    modifies tow`log, tow`position, tow`enableStatus, osc`log, osc`enableStatus, tow.journal
    ensures tow.log == old(tow.log) + [Command.SetZero, DisableServo]
    ensures osc.log == old(osc.log) + [DisableControl]
    ensures tow.journal.events ==
      old(tow.journal.events) + Sends(Carriage, [Command.SetZero, DisableServo]) + Sends(Actuator, [DisableControl])
    ensures tow.position == 0.0 && !tow.enableStatus && !osc.enableStatus
  {
    tow.SetZero();
    tow.Disable();
    osc.Disable();
    SendsAppend(Carriage, [Command.SetZero], [DisableServo]);
  }

  /** Row `i`'s listener traffic holds all three finish messages. */
  function AckedRows(inbox: nat -> seq<string>): (acked: nat -> bool)
    ensures forall i :: acked(i) == AcksPresent(inbox(i))
  {
    (i: nat) => AcksPresent(inbox(i))
  }

  /**
   * The pass as a value, from row `i` on: the table it leaves, the names it
   * reports (after the `names` reported before row `i`) and how it ends, when
   * the devices are `busy` (camera recording or carriage moving) and the
   * carriage stands at 0 (`atZero`) or not. A row runs only when it is
   * unfinished and the devices are idle; a run raises when the carriage is
   * away from 0, hangs when its traffic lacks a finish message (`acked(i)`
   * says row `i`'s traffic holds all three), and otherwise
   * marks the row finished, reports its name and leaves the carriage idle at 0.
   */
  function Pass(table: seq<Condition>, names: seq<string>, i: nat, busy: bool, atZero: bool,
                acked: nat -> bool): (r: (seq<Condition>, seq<string>, PassOutcome))
    decreases |table| - i
  {
    if i >= |table| then (table, names, Completed)
    else if table[i].finished != 0 || busy then Pass(table, names, i + 1, busy, atZero, acked)
    else if !atZero then (table, names, Raised(i, CannotMove))
    else if !acked(i) then (table, names, Hung(i))
    else Pass(table[i := table[i].(finished := 1)], names + [table[i].name], i + 1, false, true, acked)
  }

  /**
   * The pass keeps the table's length, only marks unfinished rows finished,
   * leaves the rows before `i` alone, and ends early only at a row from `i`
   * on, which it leaves as it was.
   */
  lemma {:induction false} PassShape(table: seq<Condition>, names: seq<string>, i: nat, busy: bool,
                                      atZero: bool, acked: nat -> bool)
    ensures var (t, _, o) := Pass(table, names, i, busy, atZero, acked);
      && |t| == |table|
      && (forall j :: 0 <= j < |t| ==> KeptOrMarked(table[j], t[j]))
      && (forall j :: 0 <= j < i && j < |t| ==> t[j] == table[j])
      && (!o.Completed? ==> i <= o.row < |t| && t[o.row] == table[o.row])
    decreases |table| - i
  {
    if i < |table| && table[i].finished == 0 && !busy && atZero && acked(i) {
      PassShape(table[i := table[i].(finished := 1)], names + [table[i].name], i + 1, false, true, acked);
    } else if i < |table| && (table[i].finished != 0 || busy) {
      PassShape(table, names, i + 1, busy, atZero, acked);
    }
  }

  /** The names a pass reports are those of the rows it marked, in table order. */
  lemma {:induction false} PassNames(table: seq<Condition>, names: seq<string>, i: nat, busy: bool,
                                      atZero: bool, acked: nat -> bool)
    requires i <= |table|
    ensures var (t, n, _) := Pass(table, names, i, busy, atZero, acked);
      |t| == |table| && n == names + NewlyFinished(table[i..], t[i..])
    decreases |table| - i
  {
    if i == |table| {
      assert table[i..] == [];
    } else if table[i].finished != 0 || busy {
      var (t, n, _) := Pass(table, names, i + 1, busy, atZero, acked);
      PassNames(table, names, i + 1, busy, atZero, acked);
      PassShape(table, names, i + 1, busy, atZero, acked);
      assert t[i] == table[i];
      NewlyFinishedAt(table, t, i);
      assert NewlyFinished(table[i..], t[i..]) == NewlyFinished(table[i + 1..], t[i + 1..]);
    } else if !atZero || !acked(i) {
      NewlyFinishedNone(table[i..], table[i..]);
    } else {
      var next := table[i := table[i].(finished := 1)];
      var (t, n, _) := Pass(next, names + [table[i].name], i + 1, false, true, acked);
      PassNames(next, names + [table[i].name], i + 1, false, true, acked);
      PassShape(next, names + [table[i].name], i + 1, false, true, acked);
      assert t[i] == next[i] && next[i + 1..] == table[i + 1..];
      NewlyFinishedAt(table, t, i);
      var rest := NewlyFinished(table[i + 1..], t[i + 1..]);
      assert NewlyFinished(table[i..], t[i..]) == [table[i].name] + rest;
      assert names + [table[i].name] + rest == names + ([table[i].name] + rest);
    }
  }

  /**
   * A pass over rows that are all finished, or one that starts while the
   * devices are busy, runs nothing and changes nothing.
   */
  lemma {:induction false} PassQuiet(table: seq<Condition>, names: seq<string>, i: nat, busy: bool,
                                      atZero: bool, acked: nat -> bool)
    requires busy || forall j :: i <= j < |table| ==> table[j].finished != 0
    ensures Pass(table, names, i, busy, atZero, acked) == (table, names, Completed)
    decreases |table| - i
  {
    if i < |table| {
      PassQuiet(table, names, i + 1, busy, atZero, acked);
    }
  }

  /** A pass that starts idle and completes leaves every row from `i` on finished. */
  lemma {:induction false} PassFinishesAll(table: seq<Condition>, names: seq<string>, i: nat,
                                            atZero: bool, acked: nat -> bool)
    ensures var (t, _, o) := Pass(table, names, i, false, atZero, acked);
      o.Completed? ==> forall j :: i <= j < |t| ==> t[j].finished != 0
    decreases |table| - i
  {
    if i < |table| {
      if table[i].finished != 0 {
        PassFinishesAll(table, names, i + 1, atZero, acked);
        PassShape(table, names, i + 1, false, atZero, acked);
      } else if atZero && acked(i) {
        var next := table[i := table[i].(finished := 1)];
        PassFinishesAll(next, names + [table[i].name], i + 1, true, acked);
        PassShape(next, names + [table[i].name], i + 1, false, true, acked);
      }
    }
  }

  /**
   * Only the first run of a pass can raise: the carriage is then away from 0,
   * and no row has been marked or reported. A pass that hangs does so at a
   * row whose traffic lacks a finish message.
   */
  lemma {:induction false} PassFailures(table: seq<Condition>, names: seq<string>, i: nat, busy: bool,
                                         atZero: bool, acked: nat -> bool)
    ensures var (t, n, o) := Pass(table, names, i, busy, atZero, acked);
      o.Raised? ==> o.fault == CannotMove && !atZero && t == table && n == names
    ensures var (_, _, o) := Pass(table, names, i, busy, atZero, acked);
      o.Hung? ==> !acked(o.row)
    decreases |table| - i
  {
    if i < |table| {
      if table[i].finished != 0 || busy {
        PassFailures(table, names, i + 1, busy, atZero, acked);
      } else if atZero && acked(i) {
        PassFailures(table[i := table[i].(finished := 1)], names + [table[i].name], i + 1, false, true, acked);
      }
    }
  }

  /**
   * The body of the pass for row `i`: the carriage direction flips, a
   * finished row is skipped, and an unfinished row runs only while camera
   * and carriage are idle. This advances `Pass` by one row: when the run
   * completes (or the row is skipped) the rest of the pass is `Pass` from the
   * next row, and otherwise the pass ends here. A row that does not run
   * leaves every device as it was, apart from the direction.
   */
  method VisitRow(table: seq<Condition>, names: seq<string>, i: nat, inbox: nat -> seq<string>,
                  tow: TowingCarriage, cam: CameraController, osc: ForcedOscillationController,
                  ev: FinishEvents)
    returns (ran: bool, r: RowResult)
    requires i < |table|
    requires cam.journal == tow.journal && osc.journal == tow.journal && ev.journal == tow.journal
    modifies tow, cam, osc, ev, tow.journal
    ensures ran ==> table[i].finished == 0 && old(!cam.photoStatus && !tow.moveStatus)
    ensures r.RowCompleted? ==>
      Pass(if ran then table[i := table[i].(finished := 1)] else table,
           if ran then names + [table[i].name] else names,
           i + 1, cam.photoStatus || tow.moveStatus, tow.position == 0.0, AckedRows(inbox)) ==
      Pass(table, names, i, old(cam.photoStatus || tow.moveStatus), old(tow.position) == 0.0, AckedRows(inbox))
    ensures !r.RowCompleted? ==> ran
    ensures !r.RowCompleted? ==>
      (table, names, PassEnd(i, r)) ==
      Pass(table, names, i, old(cam.photoStatus || tow.moveStatus), old(tow.position) == 0.0, AckedRows(inbox))
    ensures !ran ==> r == RowCompleted && unchanged(cam, osc, ev, tow.journal)
    ensures ran ==>
      tow.journal.events == old(tow.journal.events)
      + RowJournal(table[i], Runtime(tow.totalDistance, table[i].speed), tow.moveDirection, r)
    ensures !ran ==> tow.log == old(tow.log) && tow.position == old(tow.position) && tow.moveStatus == old(tow.moveStatus)
    ensures tow.moveDirection == Toggle(old(tow.moveDirection))
  {
    tow.moveDirection := Toggle(tow.moveDirection);
    ran, r := false, RowCompleted;
    var row := table[i];
    if row.finished == 0 {
      var runtime := Runtime(tow.totalDistance, row.speed);
      if !cam.photoStatus && !tow.moveStatus {
        ran := true;
        r := RunRow(row, runtime, inbox(i), tow, cam, osc, ev);
      }
    }
  }

  /**
   * `run_experiments_from_csv`: one pass over the table. Before every row the
   * carriage direction flips; a finished row is skipped; an unfinished row
   * runs only while camera and carriage are idle, and is marked finished (and
   * its name reported) when its run completes. An exception or a listener
   * that never returns ends the pass at that row. A pass that runs no row
   * sends nothing.
   */
  method RunExperiments(table0: seq<Condition>, inbox: nat -> seq<string>, tow: TowingCarriage,
                        cam: CameraController, osc: ForcedOscillationController, ev: FinishEvents)
    returns (table: seq<Condition>, names: seq<string>, outcome: PassOutcome)
    requires cam.journal == tow.journal && osc.journal == tow.journal && ev.journal == tow.journal
    modifies tow, cam, osc, ev, tow.journal
    ensures (table, names, outcome) ==
      Pass(table0, [], 0, old(cam.photoStatus || tow.moveStatus), old(tow.position) == 0.0, AckedRows(inbox))
    ensures tow.moveDirection == Toggled(old(tow.moveDirection), Examined(outcome, |table0|))
    ensures AllFinished(table0) || old(cam.photoStatus || tow.moveStatus) ==>
      tow.log == old(tow.log) && cam.log == old(cam.log) && osc.log == old(osc.log)
      && tow.journal.events == old(tow.journal.events)
  {
    table, names, outcome := table0, [], Completed;
    ghost var spec := Pass(table0, [], 0, cam.photoStatus || tow.moveStatus, tow.position == 0.0, AckedRows(inbox));
    ghost var quiet := AllFinished(table0) || cam.photoStatus || tow.moveStatus;
    var i := 0;
    while i < |table|
      invariant i <= |table| == |table0|
      invariant forall j :: i <= j < |table| ==> table[j] == table0[j]
      invariant Pass(table, names, i, cam.photoStatus || tow.moveStatus, tow.position == 0.0, AckedRows(inbox)) == spec
      invariant tow.moveDirection == Toggled(old(tow.moveDirection), i)
      invariant quiet ==> tow.log == old(tow.log) && cam.log == old(cam.log) && osc.log == old(osc.log)
      invariant quiet ==> tow.journal.events == old(tow.journal.events)
      invariant quiet ==> cam.photoStatus == old(cam.photoStatus) && tow.moveStatus == old(tow.moveStatus)
    {
      var ran, r := VisitRow(table, names, i, inbox, tow, cam, osc, ev);
      if !r.RowCompleted? {
        outcome := PassEnd(i, r);
        return;
      }
      if ran {
        names := names + [table[i].name];
        table := table[i := table[i].(finished := 1)];
      }
      i := i + 1;
    }
  }

  /**
   * What the pass promises, in the terms of its result: the table keeps its
   * rows and only marks unfinished ones; the reported names are those of the
   * rows marked; a pass that runs nothing changes nothing; one that starts
   * idle and completes finishes every row; only a carriage away from 0 makes
   * it raise, before anything is marked; and it hangs only at a row whose
   * traffic lacks a finish message.
   */
  lemma PassProperties(table0: seq<Condition>, busy: bool, atZero: bool, inbox: nat -> seq<string>)
    ensures var (t, n, o) := Pass(table0, [], 0, busy, atZero, AckedRows(inbox));
      && |t| == |table0|
      && (forall j :: 0 <= j < |t| ==> KeptOrMarked(table0[j], t[j]))
      && n == NewlyFinished(table0, t)
      && (!o.Completed? ==> o.row < |t| && t[o.row] == table0[o.row])
      && (AllFinished(table0) || busy ==> o.Completed? && t == table0 && n == [])
      && (!busy && o.Completed? ==> AllFinished(t))
      && (o.Raised? ==> o.fault == CannotMove && !atZero && t == table0 && n == [])
      && (o.Hung? ==> !AcksPresent(inbox(o.row)))
  {
    PassShape(table0, [], 0, busy, atZero, AckedRows(inbox));
    PassNames(table0, [], 0, busy, atZero, AckedRows(inbox));
    var t := Pass(table0, [], 0, busy, atZero, AckedRows(inbox)).0;
    assert table0[0..] == table0 && t[0..] == t;
    if AllFinished(table0) || busy {
      PassQuiet(table0, [], 0, busy, atZero, AckedRows(inbox));
    }
    if !busy {
      PassFinishesAll(table0, [], 0, atZero, AckedRows(inbox));
    }
    PassFailures(table0, [], 0, busy, atZero, AckedRows(inbox));
  }
}
