# Towing-tank experiment controller, modelled in Dafny

The system runs series of towing-tank experiments. A controller PC reads a
table of cases, one row per case. For each unfinished case it commands three
devices over TCP:

- the towing carriage, which initialises, enables its servo, sets speed,
  acceleration and deceleration, and moves forward or backward;
- the camera PC, which records the run;
- an oscillation actuator. The newer controller drives a forced-oscillation
  program. The older one drives a self-excited program.

The controller then listens on port 55001 for FINISHPHOTO, FINISHMOVE and
FINISHCONTROL. When all three have arrived it returns the carriage to zero,
disables the devices and marks the case finished. The camera PC runs a
small panel. It receives the controller's commands, starts and stops
recordings, renames the recorded files after the case, and rewrites the
case name for the next case.

The model covers three programs:

- the newer controller, `src/control/main_command1V2.py`;
- the older controller, `src/control/main_command2.py`;
- the camera tool, `src/control/video_V2_command.py`.

## Structure

- `text.dfy` (`Text`): the Python string operations the programs use.
  These are `split(":", 1)`, `strip`, `upper`, `rfind`, `str(int)`,
  `int(...)` on digits, and `float` on plain decimal numerals.
- `protocol.dfy` (`Protocol`): the command vocabulary of the three devices
  and its wire text.
- `sender.dfy` (`Sender`): `send_command`. The newer one retries; the older
  one tries once. Whether an attempt is delivered is a parameter. Failures
  are swallowed in both.
- `devices.dfy` (`Devices`): the device objects as classes.
  - Each records the commands it sends in a `log` field.
  - The devices of one program also share a `Journal`. It is a ghost
    record of every command sent to any device and of every start of the
    listener, in the order they happen. It states the order across devices:
    in the newer program the listener starts before either drive is told
    to move; in the older one it starts only after both have been.
  - The carriage has a `generation`, because the older carriage keeps its
    position on `initial` and keeps its stored speed on `Move`.
  - The older program's camera class behaves like the newer one, so the
    model shares it.
- `listener_v2.dfy`, `listener_v1.dfy`: `process_command` and the accept
  loop of `start_server`.
  - Each is specified by a pure function over the received messages
    (`Step`/`DrainFrom`, `DrainV1`) and implemented by methods on the
    device objects.
  - The older listener matches case-sensitively and without stripping.
  - In the older listener, a FINISHMOVE without a numeric position raises
    out of the loop and ends it early.
- `tables.dfy` (`Tables`): `changedata` on a table of rows, and the
  `key value` text written by `write_txt_kv`/`writetxt`.
- `runs.dfy` (`Runs`): what both sequencers share.
  - The case row, the faults and how a pass ends.
  - The direction toggle.
  - The names newly marked finished.
- `sequencer_v2.dfy` (`SequencerV2`), `sequencer_v1.dfy` (`SequencerV1`):
  `run_experiments_from_csv` and `StartNtest`.
  - Each is proved against a pure function of the table (`Pass`,
    `PassV1`), whose properties are proved as lemmas.
  - The traffic the listener of row `i` would receive is a parameter,
    `inbox(i)`.
  - A listener whose traffic never completes makes the pass hang at that
    row, modelled as the `Hung` outcome.
- `camera_tool.dfy` (`CameraTool`): the camera PC's panel. It covers:
  - the case-name rewrite of the "change condition" button;
  - command routing and dispatch;
  - the choice of a fresh `V<count>` file name when the latest recording
    is renamed.

Two behaviours of the source are modelled as written:

- The older controller stores `dampingratio` as `stiffnessIL`.
- The controllers start a manual recording with the token `STRATPHOTO`.
  The camera tool only reacts to `STARTPHOTO`, so that command only
  overwrites the name entry (`CameraTool.StratPhotoIgnored`).

## Model

| member | source | states |
|---|---|---|
| Text.SplitRaw | src/control/main_command2.py:85-88 | no payload exactly when the message has no colon; otherwise the message is the colon-free action, a colon and the payload |
| Text.SplitRawJoin | src/control/main_command2.py:85-86 | splitting a colon-free action joined to a payload by a colon gives that action and payload back |
| Text.SplitRawNoColon | src/control/main_command2.py:87-88 | a message without a colon is all action and has no payload |
| Text.SplitFirst | src/control/main_command1V2.py:146 | `split(":", 1)` gives a separator-free head and a tail that rejoin to the message |
| Text.SplitFirstUnique | src/control/main_command1V2.py:146 | the split of head + separator + tail is exactly that head and tail when the head has no separator |
| Text.IndexOf | src/control/main_command1V2.py:146 | the first occurrence of a character, or -1 exactly when it is absent |
| Text.LastIndexOf | src/control/video_V2_command.py:180-181 | `rfind` gives -1 or an index inside the string |
| Text.LastIndexOfSpec | src/control/video_V2_command.py:180-181 | `rfind` finds the character with none after it, and gives -1 exactly when it is absent |
| Text.Upper | src/control/main_command1V2.py:151 | `upper` keeps the length and upper-cases each character |
| Text.StripLeftSpec | src/control/main_command1V2.py:147 | left strip removes exactly the leading blanks and leaves a suffix of the text |
| Text.StripRightSpec | src/control/main_command1V2.py:147 | right strip removes exactly the trailing blanks and leaves a prefix of the text |
| Text.Strip | src/control/main_command1V2.py:147 | `strip` never lengthens the text |
| Text.StripEnds | src/control/main_command1V2.py:147 | a stripped text is empty or starts and ends with a non-blank |
| Text.ParseUnsigned | src/control/main_command1V2.py:161 | an unsigned numeral reads as a non-negative number |
| Text.ParseUnsignedDigits | src/control/main_command1V2.py:161 | a run of digits reads as its decimal value |
| Text.ParseFloatOfNat | src/control/main_command1V2.py:161 | `float` of the text of a whole number gives that number |
| Text.ParseFloatLetter | src/control/main_command1V2.py:160-163 | text starting with a letter is not a decimal numeral, so the modelled `float` fails on it |
| Text.NatToString | src/control/video_V2_command.py:194 | `str` of a whole number is a non-empty run of digits |
| Text.IntToString | src/control/video_V2_command.py:194 | `str` of a negative number is a minus sign before the digits of its magnitude |
| Text.NatToStringRoundTrip | src/control/video_V2_command.py:194 | `int(str(n)) == n` |
| Text.NatToStringInjective | src/control/video_V2_command.py:35-39 | different counts give different texts |
| Protocol.Abs | src/control/main_command1V2.py:300 | `abs` is non-negative and equals the value or its negation |
| Protocol.DirectionCommand | src/control/main_command1V2.py:301 | the direction command is MOVE_NEG or MOVE_POS |
| Sender.FirstSuccess | src/control/main_command1V2.py:49-64 | the first of n attempts that delivers, with none delivering before it; none when no attempt delivers |
| Sender.SendWithRetry | src/control/main_command1V2.py:33-64 | at most retries + 1 attempts; stops at the first delivery; delivered exactly when some attempt delivers; one pause between consecutive attempts |
| Sender.SendOnce | src/control/main_command2.py:32-44 | a single attempt, delivered exactly when it delivers |
| Devices.TowingCarriage.constructor | src/control/main_command1V2.py:250-265 | the carriage starts uninitialised, disabled, idle at 0, with distance 1 and direction 0 |
| Devices.TowingCarriage.ChangeDistance | src/control/main_command1V2.py:267-269 | sends DISTANCE and stores the distance |
| Devices.TowingCarriage.Initial | src/control/main_command1V2.py:271-276 | sends INIT, RESET, SETZERO, marks the carriage initialised and sets its position to 0; the older generation (`main_command2.py` lines 124-128) leaves the position unchanged |
| Devices.TowingCarriage.SetZero | src/control/main_command1V2.py:278-280 | sends SETZERO and sets the position to 0 |
| Devices.TowingCarriage.Enable | src/control/main_command1V2.py:282-285 | sends ENABLE_SERVO and enables only an initialised carriage; otherwise nothing happens |
| Devices.TowingCarriage.Disable | src/control/main_command1V2.py:287-290 | sends DISABLE_SERVO only when enabled; always ends disabled |
| Devices.TowingCarriage.Move | src/control/main_command1V2.py:292-316 | moves exactly when enabled at position 0, sending speed, acceleration, deceleration and the direction command and storing the absolute speed; otherwise raises and changes nothing; the older generation (`main_command2.py` lines 144-158) leaves the stored speed unchanged |
| Devices.TowingCarriage.Stop | src/control/main_command1V2.py:318-322 | sends STOP then DISABLE_SERVO and ends idle and disabled |
| Devices.CameraController.constructor | src/control/main_command1V2.py:325-329 | the camera starts idle with nothing sent |
| Devices.CameraController.Auto | src/control/main_command1V2.py:331-334 | sends CHANGETIME then AUTOPHOTO and marks the camera recording |
| Devices.CameraController.Start | src/control/main_command1V2.py:336-338 | sends STRATPHOTO and marks the camera recording |
| Devices.CameraController.Stop | src/control/main_command1V2.py:340-342 | sends STOPPHOTO and marks the camera idle |
| Devices.CameraController.ChangeTime | src/control/main_command1V2.py:344-345 | sends CHANGETIME and keeps the recording status |
| Devices.ForcedOscillationController.constructor | src/control/main_command1V2.py:348-363 | the actuator starts unnamed, disabled, idle, with zero parameters |
| Devices.ForcedOscillationController.Enable | src/control/main_command1V2.py:365-388 | sends the name, the six parameters and ENABLE_CONTROL, stores all seven as given (f2 as f2) and is enabled |
| Devices.ForcedOscillationController.Disable | src/control/main_command1V2.py:390-393 | sends DISABLE_CONTROL only when enabled; always ends disabled |
| Devices.ForcedOscillationController.Move | src/control/main_command1V2.py:395-400 | moves exactly when enabled, sending MOVE; otherwise raises and changes nothing |
| Devices.SelfExcitedController.constructor | src/control/main_command2.py:191-204 | the self-excited program starts unnamed, disabled, idle, with zero parameters |
| Devices.SelfExcitedController.Enable | src/control/main_command2.py:206-228 | sends the name, the seven parameters, the run time and ENABLE_CONTROL; stores them, with the damping ratio stored as stiffnessIL as written |
| Devices.SelfExcitedController.Disable | src/control/main_command2.py:230-233 | sends DISABLE_CONTROL only when enabled; always ends disabled |
| Devices.SelfExcitedController.Move | src/control/main_command2.py:235-241 | moves exactly when enabled, sending MOVE; otherwise raises and changes nothing |
| ListenerV2.WordAction | src/control/main_command1V2.py:145-149 | a bare keyword is the whole action with no payload |
| ListenerV2.WordPayload | src/control/main_command1V2.py:145-147 | keyword:payload splits into the keyword and the stripped payload |
| ListenerV2.ClassifyBareWord | src/control/main_command1V2.py:145-151 | a bare keyword is classified by its upper-case form with no payload |
| ListenerV2.ClassifyWordPayload | src/control/main_command1V2.py:145-151 | keyword:payload is classified by the upper-cased keyword and the stripped payload |
| ListenerV2.ClassifyFinishPhoto | src/control/main_command1V2.py:153-155 | FINISHPHOTO in any letter case is the camera's acknowledgment |
| ListenerV2.ClassifyFinishControl | src/control/main_command1V2.py:166-168 | FINISHCONTROL in any letter case is the actuator's acknowledgment |
| ListenerV2.ControlAction | src/control/main_command1V2.py:166-168 | the action FINISHCONTROL does not match the earlier FINISHPHOTO and FINISHMOVE tests |
| ListenerV2.ClassifyFinishMoveBare | src/control/main_command1V2.py:157-164 | a bare FINISHMOVE acknowledges the move without a position |
| ListenerV2.ClassifyFinishMoveReport | src/control/main_command1V2.py:157-164 | FINISHMOVE:n reports position n |
| ListenerV2.ClassifyFinishMoveMalformed | src/control/main_command1V2.py:157-164 | a position starting with a letter is not a decimal numeral: it is ignored and the move is still acknowledged |
| ListenerV2.Step | src/control/main_command1V2.py:153-168 | each acknowledgment clears its device's busy flag and sets its event, and nothing else changes; the position changes only by a reported FINISHMOVE position |
| ListenerV2.DrainFrom | src/control/main_command1V2.py:105-124 | the loop stops as soon as all three events are set or the traffic ends, and does nothing once all are set |
| ListenerV2.AcksEndListener | src/control/main_command1V2.py:105-109 | when each missing acknowledgment is among the remaining messages, the loop ends with all three events set |
| ListenerV2.ListenerEndsOnlyOnAcks | src/control/main_command1V2.py:105-109 | the loop ends with all events set only if each missing acknowledgment was among the messages |
| ListenerV2.ListenCompletesIff | src/control/main_command1V2.py:92-125 | the listener returns exactly when its traffic holds all three acknowledgments |
| ListenerV2.DrainKeepsSettled | src/control/main_command1V2.py:105-121 | a set event always goes with its device marked idle |
| ListenerV2.ListenDoneMeansIdle | src/control/main_command1V2.py:92-125 | a listener that returns leaves camera, carriage and actuator idle |
| ListenerV2.PositionKeptWithoutReport | src/control/main_command1V2.py:157-163 | without a reported position the carriage position is unchanged |
| ListenerV2.LaterTrafficIgnored | src/control/main_command1V2.py:105-125 | messages after the loop has ended change nothing |
| ListenerV2.FinishEvents.constructor | src/control/main_command1V2.py:70-72 | the three finish events start unset |
| ListenerV2.ProcessCommand | src/control/main_command1V2.py:136-168 | handling one message updates devices and events exactly as `Step` of its classification |
| ListenerV2.Open | src/control/main_command1V2.py:92-94 | clears the three events and journals the start of the listener |
| ListenerV2.Serve | src/control/main_command1V2.py:105-124 | the accept loop's final state and message count are `DrainFrom`'s, and it is done exactly when all events are set |
| ListenerV2.StartServer | src/control/main_command1V2.py:75-129 | the listener's result is `Listen` of its traffic, and it returns exactly when all three acknowledgments are present; the journal gains only the listener's start |
| ListenerV1.ClassifyV1Photo | src/control/main_command2.py:89-91 | FINISHPHOTO is the camera's acknowledgment |
| ListenerV1.ClassifyV1Control | src/control/main_command2.py:96-98 | FINISHCONTROL is the actuator's acknowledgment |
| ListenerV1.ClassifyV1MoveReport | src/control/main_command2.py:92-95 | FINISHMOVE:n reports position n |
| ListenerV1.ClassifyV1MoveBare | src/control/main_command2.py:92-95 | a bare FINISHMOVE makes `float(None)` raise |
| ListenerV1.ClassifyV1LowerCase | src/control/main_command2.py:84-98 | a message starting in lower case is not recognised |
| ListenerV1.ClassifyV1LeadingBlank | src/control/main_command2.py:84-98 | a message starting with a blank is not recognised |
| ListenerV1.DrainV1 | src/control/main_command2.py:63-81 | the loop ends all-acknowledged exactly when all events are set; it stops for lack of traffic only after the last message |
| ListenerV1.DrainV1ReturnsIff | src/control/main_command2.py:63-81 | the loop returns exactly when each missing acknowledgment is among the messages, or a FINISHMOVE without a position is |
| ListenerV1.ListenV1ReturnsIff | src/control/main_command2.py:54-81 | after clearing the events, the listener returns exactly when all three acknowledgments, or a malformed FINISHMOVE, are in its traffic |
| ListenerV1.AbortedLeavesEventUnset | src/control/main_command2.py:92-95 | a loop ended by the exception leaves the carriage idle but not every event set |
| ListenerV1.MalformedFirstEndsListener | src/control/main_command2.py:54-81 | a malformed FINISHMOVE as the first message ends the listener after one message, with only the carriage marked idle |
| ListenerV1.DrainV1KeepsSettled | src/control/main_command2.py:63-77 | a set event always goes with its device marked idle, also when the loop ends early |
| ListenerV1.ProcessCommandV1 | src/control/main_command2.py:84-98 | raises exactly on a malformed FINISHMOVE, having only marked the carriage idle; otherwise changes the state as `Step` |
| ListenerV1.StartServerV1 | src/control/main_command2.py:54-81 | the listener's result is `ListenV1` of its traffic; the journal gains only the listener's start |
| Tables.Assigned | src/control/main_command1V2.py:235-240 | the row after the assignment has the old keys and the assigned column names |
| Tables.AssignedSpec | src/control/main_command1V2.py:239-240 | each column gets the last value assigned to it, and columns not named keep their values |
| Tables.ChangeData | src/control/main_command1V2.py:235-240 | only the given row changes, by assigning the values to the columns pairwise |
| Tables.ChangeDataIndexed | src/control/main_command2.py:270-272 | as `ChangeData`, but raises exactly when there are fewer values than column names |
| Tables.WriteTxtKv | src/control/main_command1V2.py:226-232 | writes one `key value` line per entry, and the text reads back as the entries when keys have no blank and nothing has a line break |
| Tables.KvRoundTrip | src/control/main_command2.py:243-246 | reading the written `key value` lines gives the entries back when keys have no blank and nothing has a line break |
| Runs.Toggle | src/control/main_command1V2.py:429 | the direction becomes 0 exactly when it was 1, and is otherwise 1 |
| Runs.ToggleReversesMove | src/control/main_command1V2.py:301 | after a flip from direction 0 or 1 the carriage is sent the other move command |
| Runs.ToggledParity | src/control/main_command1V2.py:427-429 | after n rows the direction is the start direction for even n and the other for odd n |
| Runs.NewlyFinished | src/control/main_command1V2.py:484-487 | the names of rows newly marked finished are at most one per row |
| SequencerV2.Runtime | src/control/main_command1V2.py:445 | run time times speed magnitude is the distance, with the speed floored at 1e-12 |
| SequencerV2.RuntimeIgnoresSign | src/control/main_command1V2.py:445 | the run time does not depend on the direction of the speed |
| SequencerV2.RuntimeShrinksWithSpeed | src/control/main_command1V2.py:445 | over a non-negative distance the run time is non-negative and never grows with the speed's magnitude |
| SequencerV2.StartUp | src/control/main_command1V2.py:448-450 | at 0 the carriage is sent INIT, RESET, SETZERO, ENABLE_SERVO and is enabled; elsewhere it is sent nothing; the position is kept |
| SequencerV2.PrepareRun | src/control/main_command1V2.py:447-469 | at 0 the carriage is initialised and enabled; the actuator is enabled with the row's parameters; the camera gets CHANGETIME and AUTOPHOTO; then the listener starts with its events cleared, in that order in the journal |
| SequencerV2.StartRun | src/control/main_command1V2.py:447-473 | the carriage moves exactly when it stood at 0, and then the carriage and actuator are moving, both moves journalled after the listener's start; otherwise the actuator got its parameters but no MOVE |
| SequencerV2.RowListensFirst | src/control/main_command1V2.py:460-473 | in a row's journal every listener start comes before every order to move; a run past its preparations moves both drives, one that raises moves neither |
| SequencerV2.AwaitFinish | src/control/main_command1V2.py:462-476 | the listener returns exactly when the traffic holds all three acknowledgments, leaving all devices idle |
| SequencerV2.RunRow | src/control/main_command1V2.py:447-481 | a run raises exactly when the carriage is away from 0, having sent the carriage nothing and the actuator only its parameters; otherwise it completes exactly when acknowledged, with the full command sequence and the devices at 0 and disabled; the journal gains `RowJournal`, where the listener starts before either drive is told to move |
| SequencerV2.FinishRun | src/control/main_command1V2.py:478-481 | sends SETZERO, DISABLE_SERVO and DISABLE_CONTROL, in that order, and leaves the carriage at 0 and both disabled |
| SequencerV2.AckedRows | src/control/main_command1V2.py:476 | row i's run is acknowledged exactly when its traffic holds all three acknowledgments |
| SequencerV2.PassShape | src/control/main_command1V2.py:427-489 | the pass keeps every row or marks an unfinished one finished, leaves earlier rows alone, and stops only at an unchanged row |
| SequencerV2.PassNames | src/control/main_command1V2.py:484-489 | the names returned are those of the rows marked, in table order |
| SequencerV2.PassQuiet | src/control/main_command1V2.py:432-447 | with all rows finished or the devices busy, the pass changes nothing and returns no names |
| SequencerV2.PassFinishesAll | src/control/main_command1V2.py:427-489 | a pass that starts idle and completes leaves every row finished |
| SequencerV2.PassFailures | src/control/main_command1V2.py:447-476 | only a carriage away from 0 raises, before anything is marked; a hang happens only at a row whose traffic lacks an acknowledgment |
| SequencerV2.VisitRow | src/control/main_command1V2.py:428-487 | one iteration: toggles the direction and skips, runs or fails the row as `Pass` does; a row not run sends nothing, and a row run adds its `RowJournal` |
| SequencerV2.RunExperiments | src/control/main_command1V2.py:406-489 | the table, names and outcome are `Pass`'s; the direction toggled once per row examined; nothing is sent or journalled when no row can run |
| SequencerV2.PassProperties | src/control/main_command1V2.py:406-489 | all the pass's promises in one statement from the first row |
| SequencerV1.RuntimeV1 | src/control/main_command2.py:299 | run time times speed magnitude is the distance; speed 0 divides by zero |
| SequencerV1.RuntimeAgrees | src/control/main_command2.py:299 | for speeds the newer controller does not floor, both compute the same run time |
| SequencerV1.PrepareRunV1 | src/control/main_command2.py:300-308 | at 0 the carriage is initialised and enabled; the self-excited program is enabled with the row and run time; the camera gets CHANGETIME and AUTOPHOTO; then the actuator is started, in that order in the journal |
| SequencerV1.StartRunV1 | src/control/main_command2.py:300-310 | the carriage moves exactly when it stood at 0, journalled after the actuator's MOVE; the actuator is already started either way |
| SequencerV1.PrepareJournalV1Quiet | src/control/main_command2.py:300-308 | a row's preparations never move the carriage nor start the listener, and end with the actuator's MOVE |
| SequencerV1.RowMovesFirstV1 | src/control/main_command2.py:308-311 | in a row's journal the actuator's MOVE comes before the carriage's move, and every listener start after every move |
| SequencerV1.RowJournalV1Moves | src/control/main_command2.py:308-311 | every run moves the actuator; a run starts the listener exactly when it does not raise, and then it has moved the carriage in the row's direction |
| SequencerV1.RowHeardReturns | src/control/main_command2.py:311-313 | a row's listener returns exactly when the traffic holds all three acknowledgments or a malformed FINISHMOVE; with all three, camera and carriage are idle |
| SequencerV1.MalformedFirstLeavesCameraBusy | src/control/main_command2.py:311-313 | a malformed FINISHMOVE first makes the listener return with the camera still recording |
| SequencerV1.AwaitFinishV1 | src/control/main_command2.py:311-313 | whether the listener returns, and whether camera or carriage stay busy, is `RowHeard` of the traffic; the journal gains the listener's start |
| SequencerV1.FinishRunV1 | src/control/main_command2.py:314-317 | sends SETZERO, DISABLE_SERVO and DISABLE_CONTROL, in that order, and leaves the carriage at 0 and both disabled |
| SequencerV1.RunRowV1 | src/control/main_command2.py:300-321 | a run raises exactly when the carriage is away from 0, after starting the actuator; otherwise it completes exactly when its listener returns; the journal gains `RowJournalV1`, where the actuator moves before the carriage and the listener starts only after both |
| SequencerV1.HeardRows | src/control/main_command2.py:311-313 | row i's listener outcome is `RowHeard` of its traffic |
| SequencerV1.PassV1Shape | src/control/main_command2.py:286-325 | the pass keeps every row or marks an unfinished one finished, leaves earlier rows alone, and stops only at an unchanged row |
| SequencerV1.PassV1Names | src/control/main_command2.py:319-321 | the names collected are those of the rows marked, in table order |
| SequencerV1.PassV1Busy | src/control/main_command2.py:300 | while camera or carriage is busy no row runs: nothing is marked and the pass completes or divides by zero |
| SequencerV1.PassV1Finished | src/control/main_command2.py:289 | a pass over finished rows changes nothing |
| SequencerV1.PassV1ZeroSpeed | src/control/main_command2.py:299 | an unfinished row with speed 0 keeps the pass from completing, busy or not |
| SequencerV1.PassV1Failures | src/control/main_command2.py:299-313 | division by zero only at an unfinished speed-0 row; a refused move only with the carriage away from 0 and nothing marked; a hang only where the listener never returns |
| SequencerV1.VisitRowV1 | src/control/main_command2.py:287-321 | one iteration: toggles the direction and skips, runs or fails the row as `PassV1` does; a row not run sends nothing, and a row run adds its `RowJournalV1` |
| SequencerV1.StartNtest | src/control/main_command2.py:282-325 | the table, names and outcome are `PassV1`'s; the direction toggled once per row examined; nothing is sent or journalled when no row can run |
| SequencerV1.PassV1Properties | src/control/main_command2.py:282-325 | all the pass's promises in one statement from the first row |
| CameraTool.Swap | src/control/video_V2_command.py:182-187 | the marker becomes the other of F and Z |
| CameraTool.Marker | src/control/video_V2_command.py:180-187 | the marker position is -1 or inside the name, and the new marker is F or Z |
| CameraTool.MarkerSpec | src/control/video_V2_command.py:180-187 | the marker is the last F or Z of the name, and the new letter is the other one; with neither, position -1 and new letter F |
| CameraTool.RunStart | src/control/video_V2_command.py:188-192 | the scan stops at the first non-digit before the marker: only digits lie between |
| CameraTool.RunStartUnique | src/control/video_V2_command.py:188-192 | that start is the only one with only digits after it and a non-digit (or nothing) before it |
| CameraTool.Renumbered | src/control/video_V2_command.py:194 | `str(int(number) + num0)` is never empty |
| CameraTool.RenumberedValue | src/control/video_V2_command.py:194 | the new count is digits whose value is the old value plus the step |
| CameraTool.RenumberedInverse | src/control/video_V2_command.py:194 | stepping a count without leading zeros back restores it |
| CameraTool.RewriteWithoutCount | src/control/video_V2_command.py:193-198 | a name without digits before its last marker is left unchanged |
| CameraTool.HasCountParts | src/control/video_V2_command.py:188-196 | a name with a count splits into text, count digits, marker and a marker-free rest |
| CameraTool.RewriteParts | src/control/video_V2_command.py:188-196 | text + digits + marker + rest becomes text + new count + other marker + rest |
| CameraTool.RewriteRoundTrip | src/control/video_V2_command.py:177-198 | changing the case by a step and back restores the name, when the count has no leading zeros and stays non-negative |
| CameraTool.PartsRoundTrip | src/control/video_V2_command.py:193-196 | the round trip on a name cut into its parts |
| CameraTool.RewriteSwapsMarker | src/control/video_V2_command.py:180-196 | the rewritten name still has a count, its last marker is the swapped letter, and the next rewrite would swap it back |
| CameraTool.PartsSwapMarker | src/control/video_V2_command.py:180-196 | the marker swap on a name cut into its parts |
| CameraTool.DefaultNameAdvances | src/control/video_V2_command.py:294-304 | a worked example, not a general property: the default name 4DU02BM10UR300Z with the default step 100 becomes 4DU02BM10UR400F |
| CameraTool.Routed | src/control/video_V2_command.py:224-233 | routing a message only fills entries and starts no recording |
| CameraTool.TriggersExclusive | src/control/video_V2_command.py:235-242 | one message triggers at most one action |
| CameraTool.NoColonKeepsEntries | src/control/video_V2_command.py:232-233 | a message without a colon leaves both entries unchanged |
| CameraTool.ReceivedJoin | src/control/video_V2_command.py:224-231 | action:payload fills the time entry for CHANGETIME and the name entry otherwise, then dispatches on the action |
| CameraTool.ChangeTimeKeyword | src/control/video_V2_command.py:235-240 | CHANGETIME triggers nothing |
| CameraTool.AutoPhotoKeyword | src/control/video_V2_command.py:235-236 | AUTOPHOTO starts an automatic recording with the entries' name and time |
| CameraTool.StratPhotoKeyword | src/control/video_V2_command.py:237-238 | STRATPHOTO is not STARTPHOTO and triggers nothing |
| CameraTool.StopPhotoKeyword | src/control/video_V2_command.py:239-240 | STOPPHOTO stops the recording under the entry's name |
| CameraTool.ChangeTimeSetsTime | src/control/video_V2_command.py:223-242 | a CHANGETIME command only sets the time entry |
| CameraTool.AutoPhotoRecords | src/control/video_V2_command.py:223-236 | an AUTOPHOTO command sets the name entry and starts an automatic recording of that case |
| CameraTool.AutoCommandsRecord | src/control/main_command1V2.py:331-334 | the camera controller's `auto` makes the panel record the named case for the given time |
| CameraTool.StratPhotoIgnored | src/control/main_command1V2.py:336-338 | the camera controller's `start` only overwrites the panel's name entry and starts no recording |
| CameraTool.StopPhotoStops | src/control/video_V2_command.py:239-240 | a STOPPHOTO command sets the name entry and stops the recording under that name |
| CameraTool.ScanCount | src/control/video_V2_command.py:188-192 | the backward scan collects exactly the digits between the run start and the marker; non-empty exactly when a digit precedes the marker |
| CameraTool.Panel.constructor | src/control/video_V2_command.py:294-324 | the panel opens with the default case name and recording time and no recording |
| CameraTool.Panel.ChangeCondition | src/control/video_V2_command.py:177-198 | the name entry becomes `Rewrite` of the old name by the step |
| CameraTool.Panel.ProcessCommand | src/control/video_V2_command.py:223-242 | the panel's entries and recordings become `Received` of the old state and the message |
| CameraTool.Latest | src/control/video_V2_command.py:27-32 | the first mp4 with the greatest creation time; none exactly when there is no mp4 |
| CameraTool.SplitExt | src/control/video_V2_command.py:34 | root + extension is the name, and the extension is empty or a dot with no further dot |
| CameraTool.VersionedInjective | src/control/video_V2_command.py:35-39 | different counts give different file names |
| CameraTool.VersionedRecording | src/control/video_V2_command.py:139-141 | camera k's recording of a case is named `<case>-<k>V<count>.mp4` |
| CameraTool.CandidatesCount | src/control/video_V2_command.py:37-40 | the first n versions are n distinct names, none of them a later version |
| CameraTool.CandidatesHold | src/control/video_V2_command.py:37-40 | each version 1..n is among the first n |
| CameraTool.RenameLatestMp4 | src/control/video_V2_command.py:26-41 | with no mp4 nothing changes; otherwise the latest mp4 takes the smallest free version of the name, which is not already in the folder |

## Left out

- Sockets, threads, sleeps and time-outs are not modelled. A send is delivered or not by a parameter, and a listener hears a given sequence of messages.
- The 1024-byte `recv`, UTF-8 decoding and messages longer than one read are not modelled. Each message is one string.
- Acknowledgments sent before the listener binds its port are not modelled. The traffic parameter is what the listener actually hears.
- The journal orders commands and listener starts as the program issues them. When a device acts on them, and in which order messages cross the network, is not modelled.
- The MATLAB-compiled analysis (`create_input0`, `deal_create_coeff`, `gpr_predict`, `judge_next` and their older forms) is external code and not part of this model. So is the optimisation loop of `main`.
- Reading and saving the CSV file with pandas are left out. The table is a sequence of rows, and the `Finished` column is a whole number.
- Floating-point arithmetic is modelled on reals. `float` parses only plain decimal numerals, and `isdigit`, `upper` and `strip` treat only ASCII characters.
- Text.ParseFloatLetter: Python's `float` also accepts `nan`, `inf` and `infinity`, in any letter case, with an optional sign and surrounding blanks. Those spellings start with a letter, yet Python reads them as numbers. The model's decimal-only `float` does not, since a position is a real and cannot hold them.
- ListenerV2.ClassifyFinishMoveMalformed: for the same reason, `FINISHMOVE:inf` or `FINISHMOVE:nan` would set the carriage position in Python. In the model such a payload is not a number, and the position is kept.
- Devices.TowingCarriage.Move: the older `Move` stores Python's built-in function `abs` in `Movespeed` (main_command2.py line 149). The model cannot hold a function in a speed field, so it keeps the previous speed.
- SequencerV2.Runtime: a speed whose magnitude is below 1e-12 is floored exactly as written; floating-point rounding is not modelled.
- The camera tool's GUI is not modelled: the windows, buttons, message boxes and the `pyautogui` clicks that start and stop the recording software. The record thread, its countdown and its own FINISHPHOTO message are not modelled either; a started or stopped recording is a `Trigger` value.
- The camera tool's `send_command`, `start_server` loop, `shutdown`, `delete_latest_mp4`, `delete_all_jpg` and the folder picker are GUI or I/O glue and not part of this model.
- CameraTool.Panel.ChangeCondition: the step is a parameter. `int(num_entry.get())` parsing and its ValueError are not modelled.
- CameraTool.RenameLatestMp4: a folder is a listing plus a creation-time function. Case-insensitive file-name matching and the path joining are not modelled.
- CameraTool.SplitExt: it treats the whole file name as a base name, so directory separators are not modelled. The leading-dot rule is modelled: dots that only lead the name never start an extension.
- SequencerV1.StartNtest: the source builds the list of completed names but does not return it. The model returns it so that its content can be stated.
- SequencerV1.StartNtest: the journal order is stated per row, by `RunRowV1` and `VisitRowV1`, which every run goes through. The journal of a whole pass is not given as a function of the table.
- SequencerV2.RunExperiments: the direction is toggled even for finished rows, as written. The static interval and the pre-enable wait are sleeps and not modelled.
- SequencerV2.RunExperiments: the journal order is stated per row, by `RunRow` and `VisitRow`, which every run goes through. The journal of a whole pass is not given as a function of the table.
- Tables.ChangeData: the row must exist. A pandas `loc` assignment to a missing row label would append a row, and that is not modelled.
