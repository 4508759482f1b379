/**
 * `StartNtest` of the older controller: one pass over the condition table,
 * running every row not yet finished while the camera and the carriage are
 * idle, with the self-excited oscillation actuator.
 *
 * Compared with the newer pass: the run time divides by the bare speed, so an
 * unfinished row with speed 0 raises `ZeroDivisionError` (even when the row
 * would be skipped as busy); the actuator is started before the carriage,
 * and the listener runs only after both moves (its thread is handed the
 * result of calling `start_server`, so the call itself does the listening);
 * and a listener ended by a FINISHMOVE without a position still lets the row
 * be marked finished, possibly leaving the camera marked as recording.
 *
 * The table is the value read from the CSV file and the returned `table` the
 * value last saved; `inbox(i)` is the traffic the listener of row `i` reads.
 * The waits (`timeinterval`) take no part in the model.
 */
module SequencerV1 {

  import opened Text
  import opened Protocol
  import opened Runs
  import opened Devices
  import opened ListenerV2
  import opened ListenerV1
  import SequencerV2

  /** A row of the condition table: name, speed, actuator parameters, `Finished`. */
  type Condition = Row<SelfExcitedParams>

  /**
   * `totalDistance / abs(Speed)`: the time to cover the distance at the
   * row's speed, or `None` when the speed is 0 (`ZeroDivisionError`).
   */
  function RuntimeV1(distance: real, speed: real): (t: Option<real>)
    ensures t.None? <==> speed == 0.0
    ensures t.Some? ==> t.value * Abs(speed) == distance
  {
    if speed == 0.0 then None else Some(distance / Abs(speed))
  }

  /**
   * Both programs compute the same recording time, except that the newer one
   * divides by at least 1e-12 instead of raising on a zero speed.
   */
  lemma RuntimeAgrees(distance: real, speed: real)
    requires Abs(speed) >= SequencerV2.MinSpeed
    ensures RuntimeV1(distance, speed) == Some(SequencerV2.Runtime(distance, speed))
  {
  }

  /**
   * The journal of a row's preparations: the carriage's start-up when it
   * stands at 0, the actuator's parameters, the camera's recording, then the
   * actuator's order to move.
   */
  function PrepareJournalV1(row: Condition, runtime: real, atZero: bool): seq<Event>
  {
    SequencerV2.StartUpJournal(atZero)
    + Sends(Actuator, SelfExcitedEnableCommands(row.name, row.params, runtime))
    + Sends(Camera, [Command.ChangeTime(runtime), AutoPhoto(row.name)])
    + Sends(Actuator, [Command.Move])
  }

  /**
   * The journal of a row's run that ends in `r`, the carriage's direction
   * being `direction`: a run that raises stops after its preparations, with
   * the actuator moving; the others move the carriage and only then start
   * the listener, and a completed one zeroes and switches off both drives.
   */
  function RowJournalV1(row: Condition, runtime: real, direction: int, r: RowResult): seq<Event>
  {
    if r.RowRaised? then PrepareJournalV1(row, runtime, false)
    else
      var heard := PrepareJournalV1(row, runtime, true)
        + Sends(Carriage, CarriageMoveCommands(row.speed, 0.2, 0.2, direction)) + [ListenStart];
      if r.RowHung? then heard
      else heard + Sends(Carriage, [Command.SetZero, DisableServo]) + Sends(Actuator, [DisableControl])
  }

  /**
   * A row's preparations never move the carriage nor start the listener,
   * and end with the actuator's order to move.
   */
  lemma PrepareJournalV1Quiet(row: Condition, runtime: real, atZero: bool)
    ensures var p := PrepareJournalV1(row, runtime, atZero);
      && (forall i :: 0 <= i < |p| ==> !IsCarriageMove(p[i]))
      && Unheard(p)
      && |p| > 0 && p[|p| - 1] == Sent(Actuator, Command.Move)
  {
    var startUp := SequencerV2.StartUpJournal(atZero);
    var enable := Sends(Actuator, SelfExcitedEnableCommands(row.name, row.params, runtime));
    var record := Sends(Camera, [Command.ChangeTime(runtime), AutoPhoto(row.name)]);
    SequencerV2.SendsStill(Carriage, SequencerV2.StartUpCommands());
    SequencerV2.SendsStill(Actuator, SelfExcitedEnableCommands(row.name, row.params, runtime));
    SequencerV2.SendsStill(Camera, [Command.ChangeTime(runtime), AutoPhoto(row.name)]);
    assert Still(startUp + enable + record);
  }

  /**
   * In every run of the older program the actuator is told to move before
   * the carriage, and the listener starts only after both.
   */
  lemma RowMovesFirstV1(row: Condition, runtime: real, direction: int, r: RowResult)
    ensures MovesBeforeListening(RowJournalV1(row, runtime, direction, r))
    ensures ActuatorBeforeCarriage(RowJournalV1(row, runtime, direction, r))
  {
    var prepare := PrepareJournalV1(row, runtime, !r.RowRaised?);
    PrepareJournalV1Quiet(row, runtime, !r.RowRaised?);
    if r.RowRaised? {
      assert RowJournalV1(row, runtime, direction, r) == prepare + [];
      ActuatorFirst(prepare, []);
    } else {
      var carriageMove := Sends(Carriage, CarriageMoveCommands(row.speed, 0.2, 0.2, direction));
      var after := if r.RowHung? then []
        else Sends(Carriage, [Command.SetZero, DisableServo]) + Sends(Actuator, [DisableControl]);
      var before := prepare + carriageMove;
      assert RowJournalV1(row, runtime, direction, r) == before + [ListenStart] + after;
      ListenerAfter(before, after);
      ActuatorFirst(prepare, carriageMove + [ListenStart] + after);
      assert before + [ListenStart] + after == prepare + (carriageMove + [ListenStart] + after);
    }
  }

  /**
   * Every run of the older program moves the actuator; a run that raises
   * never starts the listener, and the others move the carriage in the
   * row's direction and start the listener.
   */
  lemma RowJournalV1Moves(row: Condition, runtime: real, direction: int, r: RowResult)
    ensures Sent(Actuator, Command.Move) in RowJournalV1(row, runtime, direction, r)
    ensures r.RowRaised? <==> !(ListenStart in RowJournalV1(row, runtime, direction, r))
    ensures !r.RowRaised? ==> Sent(Carriage, DirectionCommand(direction)) in RowJournalV1(row, runtime, direction, r)
  {
    var prepare := PrepareJournalV1(row, runtime, !r.RowRaised?);
    PrepareJournalV1Quiet(row, runtime, !r.RowRaised?);
    if !r.RowRaised? {
      var carriageMove := Sends(Carriage, CarriageMoveCommands(row.speed, 0.2, 0.2, direction));
      var after := if r.RowHung? then []
        else Sends(Carriage, [Command.SetZero, DisableServo]) + Sends(Actuator, [DisableControl]);
      var j := prepare + carriageMove + [ListenStart] + after;
      assert RowJournalV1(row, runtime, direction, r) == j;
      assert j[|prepare| - 1] == Sent(Actuator, Command.Move);
      assert j[|prepare| + 3] == Sent(Carriage, DirectionCommand(direction));
      assert j[|prepare| + 4] == ListenStart;
    } else {
      assert RowJournalV1(row, runtime, direction, r) == prepare;
    }
  }

  /** What a row's run adds to a journal moves before it listens. */
  lemma RowJournalOrderedV1(prior: seq<Event>, row: Condition, runtime: real, direction: int, r: RowResult)
    ensures MovesBeforeListening((prior + RowJournalV1(row, runtime, direction, r))[|prior|..])
    ensures ActuatorBeforeCarriage((prior + RowJournalV1(row, runtime, direction, r))[|prior|..])
  {
    assert (prior + RowJournalV1(row, runtime, direction, r))[|prior|..] == RowJournalV1(row, runtime, direction, r);
    RowMovesFirstV1(row, runtime, direction, r);
  }

  /**
   * The preparations of a row's run: initialise and enable the carriage when
   * it is at position 0, enable the actuator with the row's parameters and
   * run time, start an automatic recording of `runtime` seconds and start the
   * actuator.
   */
  method PrepareRunV1(row: Condition, runtime: real, tow: TowingCarriage,
                      cam: CameraController, osc: SelfExcitedController)
    requires cam.journal == tow.journal && osc.journal == tow.journal
    modifies tow, cam, osc, tow.journal
    ensures tow.journal.events == old(tow.journal.events) + PrepareJournalV1(row, runtime, old(tow.position) == 0.0)
    ensures tow.moveDirection == old(tow.moveDirection) && tow.totalDistance == old(tow.totalDistance)
    ensures tow.position == old(tow.position) && tow.moveStatus == old(tow.moveStatus)
    ensures old(tow.position) == 0.0 ==> tow.log == old(tow.log) + SequencerV2.StartUpCommands() && tow.enableStatus
    ensures old(tow.position) != 0.0 ==> tow.log == old(tow.log)
    ensures osc.name == row.name && osc.runtime == runtime && osc.enableStatus && osc.moveStatus
    ensures osc.log == old(osc.log) + SelfExcitedEnableCommands(row.name, row.params, runtime) + [Command.Move]
    ensures cam.log == old(cam.log) + [Command.ChangeTime(runtime), AutoPhoto(row.name)]
    ensures cam.photoStatus
  {
    SequencerV2.StartUp(tow);
    var p := row.params;
    osc.Enable(row.name, p.mass, p.dampingRatio, p.stiffnessCF, p.stiffnessIL, p.realMass, p.vr, p.addZeta, runtime);
    cam.Auto(runtime, row.name);
    var oscMoved := osc.Move();
    assert oscMoved;
  }

  /**
   * The first half of a row's run: `PrepareRunV1`, then move the carriage.
   * The carriage refuses to move unless it stands at 0, and then has been sent
   * nothing, while the actuator has already been started.
   */
  method StartRunV1(row: Condition, runtime: real, tow: TowingCarriage,
                    cam: CameraController, osc: SelfExcitedController)
    returns (moved: bool)
    requires cam.journal == tow.journal && osc.journal == tow.journal
    modifies tow, cam, osc, tow.journal
    ensures !moved ==> tow.journal.events == old(tow.journal.events) + PrepareJournalV1(row, runtime, false)
    ensures moved ==>
      tow.journal.events == old(tow.journal.events) + PrepareJournalV1(row, runtime, true)
      + Sends(Carriage, CarriageMoveCommands(row.speed, 0.2, 0.2, tow.moveDirection))
    ensures tow.moveDirection == old(tow.moveDirection) && tow.totalDistance == old(tow.totalDistance)
    ensures moved <==> old(tow.position) == 0.0
    ensures !moved ==> tow.log == old(tow.log) && tow.position == old(tow.position)
    ensures osc.name == row.name && osc.enableStatus && osc.moveStatus
    ensures osc.log == old(osc.log) + SelfExcitedEnableCommands(row.name, row.params, runtime) + [Command.Move]
    ensures cam.log == old(cam.log) + [Command.ChangeTime(runtime), AutoPhoto(row.name)]
    ensures cam.photoStatus
    ensures moved ==>
      && tow.log == old(tow.log) + SequencerV2.StartUpCommands()
                    + CarriageMoveCommands(row.speed, 0.2, 0.2, tow.moveDirection)
      && tow.position == 0.0 && tow.enableStatus && tow.moveStatus
  {
    PrepareRunV1(row, runtime, tow, cam, osc);
    moved := tow.Move(row.speed);
  }

  /** The listener's view when it starts: camera, carriage and actuator busy, carriage at 0. */
  function Listening(): Snapshot
  {
    Snapshot(true, true, 0.0, true, false, false, false)
  }

  /**
   * What the listener of a row does with its traffic: whether it returns,
   * and whether the camera or the carriage is still marked busy afterwards.
   */
  function RowHeard(msgs: seq<string>): (r: (bool, bool))
  {
    var (s, _, end) := ListenV1(Listening(), msgs);
    (end != Starved, s.photoStatus || s.moveStatus)
  }

  /**
   * A row's listener returns exactly when its traffic holds the three finish
   * messages or a FINISHMOVE without a position; when it returns with all
   * three, camera and carriage are idle.
   */
  lemma RowHeardReturns(msgs: seq<string>)
    ensures RowHeard(msgs).0 <==>
      Awaited(Listening(), DecodedV1(msgs), 0) || MalformedAhead(DecodedV1(msgs), 0)
    ensures ListenV1(Listening(), msgs).2 == AllAcked ==> !RowHeard(msgs).1
  {
    ListenV1ReturnsIff(Listening(), msgs);
    DrainV1KeepsSettled(Listening(), DecodedV1(msgs), 0);
  }

  /**
   * A FINISHMOVE without a position as the first message ends the listener
   * at once, with the camera still marked as recording.
   */
  lemma MalformedFirstLeavesCameraBusy(msgs: seq<string>)
    requires |msgs| > 0 && Malformed(ClassifyV1(msgs[0]))
    ensures RowHeard(msgs) == (true, true)
  {
    MalformedFirstEndsListener(Listening(), msgs);
  }

  /**
   * `threadtest.join()` after the synchronous `start_server` call: the
   * listener runs to its end.
   */
  method AwaitFinishV1(inbox: seq<string>, tow: TowingCarriage, cam: CameraController,
                       osc: SelfExcitedController, ev: FinishEvents)
    returns (returned: bool)
    requires cam.photoStatus && tow.moveStatus && tow.position == 0.0 && osc.moveStatus
    modifies tow`moveStatus, tow`position, cam`photoStatus, osc`moveStatus, ev, ev.journal
    ensures (returned, cam.photoStatus || tow.moveStatus) == RowHeard(inbox)
    ensures ev.journal.events == old(ev.journal.events) + [ListenStart]
  {
    assert Cleared(CaptureV1(tow, cam, osc, ev)) == Listening();
    var end, consumed := StartServerV1(inbox, tow, cam, osc, ev);
    returned := end != Starved;
  }

  /** The end of a run: zero the carriage, switch its servo and the actuator off. */
  method FinishRunV1(tow: TowingCarriage, osc: SelfExcitedController)
    requires tow.enableStatus && osc.enableStatus
    requires osc.journal == tow.journal
    modifies tow`log, tow`position, tow`enableStatus, osc`log, osc`enableStatus, tow.journal
    ensures tow.log == old(tow.log) + [Command.SetZero, DisableServo]
    ensures osc.log == old(osc.log) + [DisableControl]
    ensures tow.journal.events ==
      old(tow.journal.events) + Sends(Carriage, [Command.SetZero, DisableServo]) + Sends(Actuator, [DisableControl])
    ensures tow.position == 0.0 && !tow.enableStatus && !osc.enableStatus
  {
    tow.SetZero();
    tow.Disable();
    osc.Disable();
    SendsAppend(Carriage, [Command.SetZero], [DisableServo]);
  }

  /**
   * A row that runs (camera and carriage idle): `StartRunV1`, the listener,
   * then zero and switch off carriage and actuator.
   *
   * A row raises exactly when the carriage is away from position 0; it has
   * then sent nothing to the carriage but has started the actuator.
   * Otherwise it completes exactly when its listener returns, and leaves both
   * drives switched off and the carriage at 0; camera and carriage are then
   * marked busy as the listener left them.
   */
  method RunRowV1(row: Condition, runtime: real, inbox: seq<string>, tow: TowingCarriage,
                  cam: CameraController, osc: SelfExcitedController, ev: FinishEvents)
    returns (r: RowResult)
    requires cam.journal == tow.journal && osc.journal == tow.journal && ev.journal == tow.journal
    modifies tow, cam, osc, ev, tow.journal
    ensures tow.moveDirection == old(tow.moveDirection) && tow.totalDistance == old(tow.totalDistance)
    ensures tow.journal.events == old(tow.journal.events) + RowJournalV1(row, runtime, tow.moveDirection, r)
    ensures MovesBeforeListening(tow.journal.events[|old(tow.journal.events)|..])
    ensures ActuatorBeforeCarriage(tow.journal.events[|old(tow.journal.events)|..])
    ensures r.RowRaised? <==> old(tow.position) != 0.0
    ensures r.RowRaised? ==> r.fault == CannotMove && tow.log == old(tow.log) && tow.position == old(tow.position)
    ensures r.RowRaised? ==>
      osc.moveStatus && osc.log == old(osc.log) + SelfExcitedEnableCommands(row.name, row.params, runtime) + [Command.Move]
    ensures !r.RowRaised? ==> (r.RowCompleted? <==> RowHeard(inbox).0)
    ensures r.RowCompleted? ==>
      && tow.log == old(tow.log) + SequencerV2.StartUpCommands()
                    + CarriageMoveCommands(row.speed, 0.2, 0.2, tow.moveDirection) + [Command.SetZero, DisableServo]
      && cam.log == old(cam.log) + [Command.ChangeTime(runtime), AutoPhoto(row.name)]
      && osc.log == old(osc.log) + SelfExcitedEnableCommands(row.name, row.params, runtime)
                    + [Command.Move, DisableControl]
      && tow.position == 0.0 && !tow.enableStatus && !osc.enableStatus
      && (cam.photoStatus || tow.moveStatus) == RowHeard(inbox).1
  {
    ghost var prior := tow.journal.events;
    var moved := StartRunV1(row, runtime, tow, cam, osc);
    if !moved {
      r := RowRaised(CannotMove);
    } else {
      ghost var heard := PrepareJournalV1(row, runtime, true)
        + Sends(Carriage, CarriageMoveCommands(row.speed, 0.2, 0.2, tow.moveDirection)) + [ListenStart];
      var returned := AwaitFinishV1(inbox, tow, cam, osc, ev);
      assert tow.journal.events == prior + heard;
      if !returned {
        r := RowHung;
      } else {
        FinishRunV1(tow, osc);
        r := RowCompleted;
        assert RowJournalV1(row, runtime, tow.moveDirection, r)
          == heard + Sends(Carriage, [Command.SetZero, DisableServo]) + Sends(Actuator, [DisableControl]);
      }
    }
    RowJournalOrderedV1(prior, row, runtime, tow.moveDirection, r);
  }

  /** What the listener of every row does with its traffic. */
  function HeardRows(inbox: nat -> seq<string>): (heard: nat -> (bool, bool))
    ensures forall i :: heard(i) == RowHeard(inbox(i))
  {
    (i: nat) => RowHeard(inbox(i))
  }

  /**
   * The pass as a value, from row `i` on: the table it leaves, the names it
   * reports (after the `names` reported before row `i`) and how it ends, when
   * the devices are `busy` (camera recording or carriage moving) and the
   * carriage stands at 0 (`atZero`) or not. An unfinished row with speed 0
   * raises; otherwise it runs only while the devices are idle. A run raises
   * when the carriage is away from 0 and hangs when its listener never
   * returns (`heard(i).0`); otherwise the row is marked finished, its name
   * reported, and the devices are left busy as its listener left them
   * (`heard(i).1`), the carriage at 0.
   */
  function PassV1(table: seq<Condition>, names: seq<string>, i: nat, busy: bool, atZero: bool,
                  heard: nat -> (bool, bool)): (r: (seq<Condition>, seq<string>, PassOutcome))
    decreases |table| - i
  {
    if i >= |table| then (table, names, Completed)
    else if table[i].finished != 0 then PassV1(table, names, i + 1, busy, atZero, heard)
    else if table[i].speed == 0.0 then (table, names, Raised(i, ZeroDivision))
    else if busy then PassV1(table, names, i + 1, busy, atZero, heard)
    else if !atZero then (table, names, Raised(i, CannotMove))
    else if !heard(i).0 then (table, names, Hung(i))
    else PassV1(table[i := table[i].(finished := 1)], names + [table[i].name], i + 1, heard(i).1, true, heard)
  }

  /**
   * The pass keeps the table's length, only marks unfinished rows finished,
   * leaves the rows before `i` alone, and ends early only at a row from `i`
   * on, which it leaves as it was.
   */
  lemma {:induction false} PassV1Shape(table: seq<Condition>, names: seq<string>, i: nat, busy: bool,
                                        atZero: bool, heard: nat -> (bool, bool))
    ensures var (t, _, o) := PassV1(table, names, i, busy, atZero, heard);
      && |t| == |table|
      && (forall j :: 0 <= j < |t| ==> KeptOrMarked(table[j], t[j]))
      && (forall j :: 0 <= j < i && j < |t| ==> t[j] == table[j])
      && (!o.Completed? ==> i <= o.row < |t| && t[o.row] == table[o.row])
    decreases |table| - i
  {
    if i < |table| && table[i].finished == 0 && table[i].speed != 0.0 && !busy && atZero && heard(i).0 {
      PassV1Shape(table[i := table[i].(finished := 1)], names + [table[i].name], i + 1, heard(i).1, true, heard);
    } else if i < |table| && (table[i].finished != 0 || (table[i].speed != 0.0 && busy)) {
      PassV1Shape(table, names, i + 1, busy, atZero, heard);
    }
  }

  /** The names a pass reports are those of the rows it marked, in table order. */
  lemma {:induction false} PassV1Names(table: seq<Condition>, names: seq<string>, i: nat, busy: bool,
                                        atZero: bool, heard: nat -> (bool, bool))
    requires i <= |table|
    ensures var (t, n, _) := PassV1(table, names, i, busy, atZero, heard);
      |t| == |table| && n == names + NewlyFinished(table[i..], t[i..])
    decreases |table| - i
  {
    if i == |table| {
      assert table[i..] == [];
    } else if table[i].finished != 0 || (table[i].speed != 0.0 && busy) {
      var (t, n, _) := PassV1(table, names, i + 1, busy, atZero, heard);
      PassV1Names(table, names, i + 1, busy, atZero, heard);
      PassV1Shape(table, names, i + 1, busy, atZero, heard);
      assert t[i] == table[i];
      NewlyFinishedAt(table, t, i);
      assert NewlyFinished(table[i..], t[i..]) == NewlyFinished(table[i + 1..], t[i + 1..]);
    } else if table[i].speed == 0.0 || !atZero || !heard(i).0 {
      NewlyFinishedNone(table[i..], table[i..]);
    } else {
      var next := table[i := table[i].(finished := 1)];
      var (t, n, _) := PassV1(next, names + [table[i].name], i + 1, heard(i).1, true, heard);
      PassV1Names(next, names + [table[i].name], i + 1, heard(i).1, true, heard);
      PassV1Shape(next, names + [table[i].name], i + 1, heard(i).1, true, heard);
      assert t[i] == next[i] && next[i + 1..] == table[i + 1..];
      NewlyFinishedAt(table, t, i);
      var rest := NewlyFinished(table[i + 1..], t[i + 1..]);
      assert NewlyFinished(table[i..], t[i..]) == [table[i].name] + rest;
      assert names + [table[i].name] + rest == names + ([table[i].name] + rest);
    }
  }

  /**
   * While the devices are busy no row runs: the pass marks nothing and
   * either completes or raises at the first unfinished row with speed 0.
   */
  lemma {:induction false} PassV1Busy(table: seq<Condition>, names: seq<string>, i: nat, atZero: bool,
                                       heard: nat -> (bool, bool))
    ensures var (t, n, o) := PassV1(table, names, i, true, atZero, heard);
      t == table && n == names && (o.Completed? || o == Raised(o.row, ZeroDivision))
    decreases |table| - i
  {
    if i < |table| && (table[i].finished != 0 || table[i].speed != 0.0) {
      PassV1Busy(table, names, i + 1, atZero, heard);
    }
  }

  /** A pass over rows that are all finished changes nothing. */
  lemma {:induction false} PassV1Finished(table: seq<Condition>, names: seq<string>, i: nat, busy: bool,
                                           atZero: bool, heard: nat -> (bool, bool))
    requires forall j :: i <= j < |table| ==> table[j].finished != 0
    ensures PassV1(table, names, i, busy, atZero, heard) == (table, names, Completed)
    decreases |table| - i
  {
    if i < |table| {
      PassV1Finished(table, names, i + 1, busy, atZero, heard);
    }
  }

  /**
   * An unfinished row with speed 0 at or after row `i` keeps the pass from
   * completing, busy devices or not.
   */
  lemma {:induction false} PassV1ZeroSpeed(table: seq<Condition>, names: seq<string>, i: nat, busy: bool,
                                            atZero: bool, heard: nat -> (bool, bool), k: nat)
    requires i <= k < |table| && table[k].finished == 0 && table[k].speed == 0.0
    ensures !PassV1(table, names, i, busy, atZero, heard).2.Completed?
    decreases |table| - i
  {
    if table[i].finished != 0 || (table[i].speed != 0.0 && busy) {
      PassV1ZeroSpeed(table, names, i + 1, busy, atZero, heard, k);
    } else if table[i].speed != 0.0 && atZero && heard(i).0 {
      var next := table[i := table[i].(finished := 1)];
      assert next[k] == table[k];
      PassV1ZeroSpeed(next, names + [table[i].name], i + 1, heard(i).1, true, heard, k);
    }
  }

  /**
   * How a pass fails: a division by zero only at an unfinished row with
   * speed 0; a refused move only at the first run, with the carriage away
   * from 0 and nothing marked or reported; a hang only at a row whose
   * listener never returns.
   */
  lemma {:induction false} PassV1Failures(table: seq<Condition>, names: seq<string>, i: nat, busy: bool,
                                           atZero: bool, heard: nat -> (bool, bool))
    ensures var (t, n, o) := PassV1(table, names, i, busy, atZero, heard);
      o.Raised? && o.fault == ZeroDivision ==> o.row < |table| && table[o.row].finished == 0 && table[o.row].speed == 0.0
    ensures var (t, n, o) := PassV1(table, names, i, busy, atZero, heard);
      o.Raised? && o.fault == CannotMove ==> !atZero && t == table && n == names
    ensures var (_, _, o) := PassV1(table, names, i, busy, atZero, heard);
      o.Hung? ==> !heard(o.row).0
    decreases |table| - i
  {
    if i < |table| {
      if table[i].finished != 0 || (table[i].speed != 0.0 && busy) {
        PassV1Failures(table, names, i + 1, busy, atZero, heard);
      } else if table[i].speed != 0.0 && atZero && heard(i).0 {
        var next := table[i := table[i].(finished := 1)];
        PassV1Failures(next, names + [table[i].name], i + 1, heard(i).1, true, heard);
        PassV1Shape(next, names + [table[i].name], i + 1, heard(i).1, true, heard);
      }
    }
  }

  /**
   * The body of `StartNtest` for row `i`: the carriage direction flips, a
   * finished row is skipped, an unfinished row computes its run time (and
   * raises on speed 0), and runs only while camera and carriage are idle.
   * This advances `PassV1` by one row. A row that does not run leaves every
   * device as it was, apart from the direction.
   */
  method VisitRowV1(table: seq<Condition>, names: seq<string>, i: nat, inbox: nat -> seq<string>,
                    tow: TowingCarriage, cam: CameraController, osc: SelfExcitedController,
                    ev: FinishEvents)
    returns (ran: bool, r: RowResult)
    requires i < |table|
    requires cam.journal == tow.journal && osc.journal == tow.journal && ev.journal == tow.journal
    modifies tow, cam, osc, ev, tow.journal
    ensures ran ==> table[i].finished == 0 && table[i].speed != 0.0 && old(!cam.photoStatus && !tow.moveStatus)
    ensures r.RowCompleted? ==>
      PassV1(if ran then table[i := table[i].(finished := 1)] else table,
             if ran then names + [table[i].name] else names,
             i + 1, cam.photoStatus || tow.moveStatus, tow.position == 0.0, HeardRows(inbox)) ==
      PassV1(table, names, i, old(cam.photoStatus || tow.moveStatus), old(tow.position) == 0.0, HeardRows(inbox))
    ensures !r.RowCompleted? ==>
      (table, names, PassEnd(i, r)) ==
      PassV1(table, names, i, old(cam.photoStatus || tow.moveStatus), old(tow.position) == 0.0, HeardRows(inbox))
    ensures !ran ==> unchanged(cam, osc, ev, tow.journal)
    ensures ran ==>
      tow.journal.events == old(tow.journal.events)
      + RowJournalV1(table[i], tow.totalDistance / Abs(table[i].speed), tow.moveDirection, r)
    ensures !ran ==> tow.log == old(tow.log) && tow.position == old(tow.position) && tow.moveStatus == old(tow.moveStatus)
    ensures tow.moveDirection == Toggle(old(tow.moveDirection))
  {
    tow.moveDirection := Toggle(tow.moveDirection);
    ran, r := false, RowCompleted;
    var row := table[i];
    if row.finished == 0 {
      if row.speed == 0.0 {
        r := RowRaised(ZeroDivision);
        return;
      }
      var runtime := tow.totalDistance / Abs(row.speed);
      if !cam.photoStatus && !tow.moveStatus {
        ran := true;
        r := RunRowV1(row, runtime, inbox(i), tow, cam, osc, ev);
      }
    }
  }

  /**
   * `StartNtest`: one pass over the table. Before every row the carriage
   * direction flips; a finished row is skipped; an unfinished row runs only
   * while camera and carriage are idle, and is marked finished (and its name
   * reported) when its run completes. An exception or a listener that never
   * returns ends the pass at that row. A pass that runs no row sends nothing.
   */
  method StartNtest(table0: seq<Condition>, inbox: nat -> seq<string>, tow: TowingCarriage,
                    cam: CameraController, osc: SelfExcitedController, ev: FinishEvents)
    returns (table: seq<Condition>, names: seq<string>, outcome: PassOutcome)
    requires cam.journal == tow.journal && osc.journal == tow.journal && ev.journal == tow.journal
    modifies tow, cam, osc, ev, tow.journal
    ensures (table, names, outcome) ==
      PassV1(table0, [], 0, old(cam.photoStatus || tow.moveStatus), old(tow.position) == 0.0, HeardRows(inbox))
    ensures tow.moveDirection == Toggled(old(tow.moveDirection), Examined(outcome, |table0|))
    ensures AllFinished(table0) || old(cam.photoStatus || tow.moveStatus) ==>
      tow.log == old(tow.log) && cam.log == old(cam.log) && osc.log == old(osc.log)
      && tow.journal.events == old(tow.journal.events)
  {
    table, names, outcome := table0, [], Completed;
    ghost var spec := PassV1(table0, [], 0, cam.photoStatus || tow.moveStatus, tow.position == 0.0, HeardRows(inbox));
    ghost var quiet := AllFinished(table0) || cam.photoStatus || tow.moveStatus;
    var i := 0;
    while i < |table|
      invariant i <= |table| == |table0|
      invariant forall j :: i <= j < |table| ==> table[j] == table0[j]
      invariant PassV1(table, names, i, cam.photoStatus || tow.moveStatus, tow.position == 0.0, HeardRows(inbox)) == spec
      invariant tow.moveDirection == Toggled(old(tow.moveDirection), i)
      invariant quiet ==> tow.log == old(tow.log) && cam.log == old(cam.log) && osc.log == old(osc.log)
      invariant quiet ==> tow.journal.events == old(tow.journal.events)
      invariant quiet ==> cam.photoStatus == old(cam.photoStatus) && tow.moveStatus == old(tow.moveStatus)
    {
      var ran, r := VisitRowV1(table, names, i, inbox, tow, cam, osc, ev);
      if !r.RowCompleted? {
        outcome := PassEnd(i, r);
        return;
      }
      if ran {
        names := names + [table[i].name];
        table := table[i := table[i].(finished := 1)];
      }
      i := i + 1;
    }
  }

  /**
   * What the pass promises, in the terms of its result: the table keeps its
   * rows and only marks unfinished ones; the reported names are those of the
   * rows marked; a pass over finished rows changes nothing; while the devices
   * are busy nothing is marked; an unfinished row with speed 0 keeps it from
   * completing; and each failure has its cause.
   */
  lemma PassV1Properties(table0: seq<Condition>, busy: bool, atZero: bool, inbox: nat -> seq<string>)
    ensures var (t, n, o) := PassV1(table0, [], 0, busy, atZero, HeardRows(inbox));
      && |t| == |table0|
      && (forall j :: 0 <= j < |t| ==> KeptOrMarked(table0[j], t[j]))
      && n == NewlyFinished(table0, t)
      && (!o.Completed? ==> o.row < |t| && t[o.row] == table0[o.row])
      && (AllFinished(table0) ==> o.Completed? && t == table0 && n == [])
      && (busy ==> t == table0 && n == [])
      && ((exists k :: 0 <= k < |table0| && table0[k].finished == 0 && table0[k].speed == 0.0) ==> !o.Completed?)
      && (o.Raised? && o.fault == ZeroDivision ==> table0[o.row].finished == 0 && table0[o.row].speed == 0.0)
      && (o.Raised? && o.fault == CannotMove ==> !atZero && t == table0 && n == [])
      && (o.Hung? ==> !RowHeard(inbox(o.row)).0)
  {
    var heard := HeardRows(inbox);
    PassV1Shape(table0, [], 0, busy, atZero, heard);
    PassV1Names(table0, [], 0, busy, atZero, heard);
    var t := PassV1(table0, [], 0, busy, atZero, heard).0;
    assert table0[0..] == table0 && t[0..] == t;
    if AllFinished(table0) {
      PassV1Finished(table0, [], 0, busy, atZero, heard);
    }
    if busy {
      PassV1Busy(table0, [], 0, atZero, heard);
    }
    if k :| 0 <= k < |table0| && table0[k].finished == 0 && table0[k].speed == 0.0 {
      PassV1ZeroSpeed(table0, [], 0, busy, atZero, heard, k);
    }
    PassV1Failures(table0, [], 0, busy, atZero, heard);
  }
}
