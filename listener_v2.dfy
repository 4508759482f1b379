/**
 * The status listener of the newer controller: `process_command` and the
 * accept loop of `start_server`.
 *
 * The three finish events are a `FinishEvents` object. Inbound traffic is the
 * finite sequence of messages that reach the listening port, in arrival order;
 * the socket, the accept timeout and the thread are not modelled. The value
 * `Snapshot` collects every field the listener may change, and `Step`,
 * `DrainFrom` and `Listen` are the specification the imperative listener is
 * proved against.
 */
module ListenerV2 {

  import opened Text
  import opened Devices

  /**
   * What an inbound message means to `process_command`. A FINISHMOVE carries
   * the position it reports when its payload parses as a number.
   */
  datatype Ack = FinishPhoto | FinishMove(report: Option<real>) | FinishControl | Unrecognized

  /**
   * The split of `process_command`: at the first colon, the payload stripped
   * (the action is not); without a colon the whole stripped message is the
   * action and there is no payload.
   */
  function SplitMessage(message: string): (r: (string, Option<string>))
  {
    if ':' in message then
      var parts := SplitFirst(message, ':');
      (parts.0, Some(Strip(parts.1)))
    else
      (Strip(message), None)
  }

  /** The position a FINISHMOVE payload reports: none when missing or not a number. */
  function Report(payload: Option<string>): Option<real>
  {
    if payload.Some? then ParseFloat(payload.value) else None
  }

  /**
   * The action is matched by prefix after upper-casing, in the order
   * FINISHPHOTO, FINISHMOVE, FINISHCONTROL.
   */
  function Classify(message: string): Ack
  {
    var parts := SplitMessage(message);
    ClassifyAction(Upper(parts.0), parts.1)
  }

  /** The prefix tests on the upper-cased action. */
  function ClassifyAction(actionU: string, payload: Option<string>): Ack
  {
    if "FINISHPHOTO" <= actionU then FinishPhoto
    else if "FINISHMOVE" <= actionU then FinishMove(Report(payload))
    else if "FINISHCONTROL" <= actionU then FinishControl
    else Unrecognized
  }

  /** Letters only. */
  predicate IsWord(w: string)
  {
    |w| > 0 && forall i :: 0 <= i < |w| ==> 'A' <= w[i] <= 'Z' || 'a' <= w[i] <= 'z'
  }

  /** A bare word is its own (unsplit) action. */
  lemma WordAction(w: string)
    requires IsWord(w)
    ensures SplitMessage(w) == (w, None)
  {
    assert StripLeft(w) == w;
    assert StripRight(w) == w;
    assert ':' !in w by {
      assert forall i :: 0 <= i < |w| ==> w[i] != ':';
    }
  }

  /** A word followed by a colon and a payload splits at that colon. */
  lemma WordPayload(w: string, p: string)
    requires IsWord(w)
    ensures SplitMessage(w + ":" + p) == (w, Some(Strip(p)))
  {
    assert ':' !in w by {
      assert forall i :: 0 <= i < |w| ==> w[i] != ':';
    }
    assert w + ":" + p == w + [':'] + p;
    SplitFirstUnique(w, ':', p);
  }

  lemma ClassifyBareWord(w: string)
    requires IsWord(w)
    ensures Classify(w) == ClassifyAction(Upper(w), None)
  {
    WordAction(w);
  }

  lemma ClassifyWordPayload(w: string, p: string)
    requires IsWord(w)
    ensures Classify(w + ":" + p) == ClassifyAction(Upper(w), Some(Strip(p)))
  {
    WordPayload(w, p);
  }

  // The acknowledgments the devices send are recognised in any letter case
  // (`w` is "FINISHPHOTO", "finishphoto", "FinishPhoto", ...).

  lemma ClassifyFinishPhoto(w: string)
    requires IsWord(w) && Upper(w) == "FINISHPHOTO"
    ensures Classify(w) == FinishPhoto
  {
    ClassifyBareWord(w);
  }

  lemma ClassifyFinishControl(w: string)
    requires IsWord(w) && Upper(w) == "FINISHCONTROL"
    ensures Classify(w) == FinishControl
  {
    ClassifyBareWord(w);
    ControlAction(Upper(w));
  }

  lemma ControlAction(u: string)
    requires u == "FINISHCONTROL"
    ensures ClassifyAction(u, None) == FinishControl
  {
    assert u[6] == 'C';
  }

  /** A FINISHMOVE without a payload completes the move and reports no position. */
  lemma ClassifyFinishMoveBare(w: string)
    requires IsWord(w) && Upper(w) == "FINISHMOVE"
    ensures Classify(w) == FinishMove(None)
  {
    ClassifyBareWord(w);
  }

  /** A FINISHMOVE with a numeric payload reports that position. */
  lemma ClassifyFinishMoveReport(w: string, n: nat)
    requires IsWord(w) && Upper(w) == "FINISHMOVE"
    ensures Classify(w + ":" + NatToString(n)) == FinishMove(Some(n as real))
  {
    var digits := NatToString(n);
    ClassifyWordPayload(w, digits);
    StripNoSpace(digits);
    ParseFloatOfNat(n);
  }

  /**
   * A FINISHMOVE whose payload is not a number (such as "FINISHMOVE:abc")
   * still completes the move, but reports no position.
   */
  lemma ClassifyFinishMoveMalformed(w: string, junk: string)
    requires IsWord(w) && Upper(w) == "FINISHMOVE"
    requires |junk| > 0 && ('A' <= junk[0] <= 'Z' || 'a' <= junk[0] <= 'z')
    ensures Classify(w + ":" + junk) == FinishMove(None)
  {
    ClassifyWordPayload(w, junk);
    StripKeepsFirst(junk);
    ParseFloatLetter(Strip(junk));
  }

  // ------------------------------------------------------------ specification

  /** The fields the listener reads and writes, taken together. */
  datatype Snapshot = Snapshot(
    photoStatus: bool,    // camera recording
    moveStatus: bool,     // carriage moving
    position: real,       // carriage position
    oscMoving: bool,      // actuator moving
    moveDone: bool,       // stopMoving_event
    photoDone: bool,      // stopRecoding_event
    controlDone: bool)    // stopControl_event

  predicate AllSet(s: Snapshot)
  {
    s.moveDone && s.photoDone && s.controlDone
  }

  /** A received message: nothing when blank after stripping, else its meaning. */
  function Decode(raw: string): Option<Ack>
  {
    var m := Strip(raw);
    if m == [] then None else Some(Classify(m))
  }

  /** `f` applied to every element of `xs`, in order. */
  function Mapped<A, B>(f: A -> B, xs: seq<A>): (ys: seq<B>)
    ensures |ys| == |xs|
    decreases |xs|
  {
    if xs == [] then [] else Mapped(f, xs[..|xs| - 1]) + [f(xs[|xs| - 1])]
  }

  lemma {:induction false} MappedAt<A, B>(f: A -> B, xs: seq<A>, i: nat)
    requires i < |xs|
    ensures Mapped(f, xs)[i] == f(xs[i])
    decreases |xs|
  {
    var n := |xs| - 1;
    if i < n {
      MappedAt(f, xs[..n], i);
    }
  }

  /** The decoded traffic, message by message. */
  function Decoded(msgs: seq<string>): (events: seq<Option<Ack>>)
    ensures |events| == |msgs|
  {
    Mapped(Decode, msgs)
  }

  /**
   * The effect of `process_command` for one decoded message (`None` for a
   * blank one, which is never passed to it).
   */
  function Step(s: Snapshot, e: Option<Ack>): (r: Snapshot)
    // blank and unrecognised messages change nothing
    ensures e.None? || e.value.Unrecognized? ==> r == s
    // a flag is set exactly by its own acknowledgment, and never cleared
    ensures r.photoDone <==> s.photoDone || e == Some(FinishPhoto)
    ensures r.moveDone <==> s.moveDone || (e.Some? && e.value.FinishMove?)
    ensures r.controlDone <==> s.controlDone || e == Some(FinishControl)
    // each acknowledgment marks its own device idle, and touches no other field
    ensures e == Some(FinishPhoto) ==> !r.photoStatus && r.(photoStatus := s.photoStatus, photoDone := s.photoDone) == s
    ensures e == Some(FinishControl) ==> !r.oscMoving && r.(oscMoving := s.oscMoving, controlDone := s.controlDone) == s
    ensures e.Some? && e.value.FinishMove? ==>
      !r.moveStatus && r.(moveStatus := s.moveStatus, position := s.position, moveDone := s.moveDone) == s
    // only a FINISHMOVE reporting a position changes the recorded position
    ensures r.position != s.position ==> e.Some? && e.value.FinishMove? && e.value.report == Some(r.position)
    ensures e.Some? && e.value.FinishMove? && e.value.report.Some? ==> r.position == e.value.report.value
  {
    match e
    case None => s
    case Some(FinishPhoto) => s.(photoStatus := false, photoDone := true)
    case Some(FinishMove(report)) =>
      s.(moveStatus := false, position := if report.Some? then report.value else s.position, moveDone := true)
    case Some(FinishControl) => s.(oscMoving := false, controlDone := true)
    case Some(Unrecognized) => s
  }

  /**
   * The accept loop from message `i` on, in state `s`: it stops as soon as
   * all three flags are set, or when the traffic runs out (the Python loop
   * would then wait forever). Returns the final state and how many messages
   * were read in all.
   */
  function DrainFrom(s: Snapshot, events: seq<Option<Ack>>, i: nat): (r: (Snapshot, nat))
    requires i <= |events|
    ensures i <= r.1 <= |events|
    ensures AllSet(r.0) || r.1 == |events|
    ensures AllSet(s) ==> r == (s, i)
    decreases |events| - i
  {
    if AllSet(s) || i == |events| then (s, i) else DrainFrom(Step(s, events[i]), events, i + 1)
  }

  function Cleared(s: Snapshot): Snapshot
  {
    s.(moveDone := false, photoDone := false, controlDone := false)
  }

  /** `start_server`: clear the three events, then run the accept loop. */
  function Listen(s: Snapshot, msgs: seq<string>): (Snapshot, nat)
  {
    DrainFrom(Cleared(s), Decoded(msgs), 0)
  }

  // ------------------------------------------------------------ properties

  predicate IsMoveAck(e: Option<Ack>) { e.Some? && e.value.FinishMove? }

  /** Each finish message is among those from `i` on, or its flag is set already. */
  predicate Pending(s: Snapshot, events: seq<Option<Ack>>, i: nat)
    requires i <= |events|
  {
    && (s.photoDone || exists j :: i <= j < |events| && events[j] == Some(FinishPhoto))
    && (s.moveDone || exists j :: i <= j < |events| && IsMoveAck(events[j]))
    && (s.controlDone || exists j :: i <= j < |events| && events[j] == Some(FinishControl))
  }

  /**
   * If FINISHPHOTO, FINISHMOVE and FINISHCONTROL are all among the messages
   * still to come, in any order and among any other traffic, the loop ends
   * with all three flags set.
   */
  lemma {:induction false} AcksEndListener(s: Snapshot, events: seq<Option<Ack>>, i: nat)
    requires i <= |events| && Pending(s, events, i)
    ensures AllSet(DrainFrom(s, events, i).0)
    decreases |events| - i
  {
    if !AllSet(s) {
      var t := Step(s, events[i]);
      assert Pending(t, events, i + 1) by {
        if !t.photoDone {
          var j :| i <= j < |events| && events[j] == Some(FinishPhoto);
          assert j != i;
        }
        if !t.moveDone {
          var j :| i <= j < |events| && IsMoveAck(events[j]);
          assert j != i;
        }
        if !t.controlDone {
          var j :| i <= j < |events| && events[j] == Some(FinishControl);
          assert j != i;
        }
      }
      AcksEndListener(t, events, i + 1);
    }
  }

  /** Conversely, the loop ends only once all three finish messages were read. */
  lemma {:induction false} ListenerEndsOnlyOnAcks(s: Snapshot, events: seq<Option<Ack>>, i: nat)
    requires i <= |events| && AllSet(DrainFrom(s, events, i).0)
    ensures Pending(s, events, i)
    decreases |events| - i
  {
    if !AllSet(s) {
      var t := Step(s, events[i]);
      ListenerEndsOnlyOnAcks(t, events, i + 1);
    }
  }

  /** The three finish messages are all among the events. */
  predicate Answered(events: seq<Option<Ack>>)
  {
    (exists j :: 0 <= j < |events| && events[j] == Some(FinishPhoto)) &&
    (exists j :: 0 <= j < |events| && IsMoveAck(events[j])) &&
    (exists j :: 0 <= j < |events| && events[j] == Some(FinishControl))
  }

  /** The three finish messages are all present in the traffic. */
  predicate AcksPresent(msgs: seq<string>)
  {
    Answered(Decoded(msgs))
  }

  /**
   * `start_server` returns exactly when the traffic holds all three finish
   * messages, whatever the flags were before it cleared them.
   */
  lemma ListenCompletesIff(s: Snapshot, msgs: seq<string>)
    ensures AllSet(Listen(s, msgs).0) <==> AcksPresent(msgs)
  {
    var events := Decoded(msgs);
    if AcksPresent(msgs) {
      AcksEndListener(Cleared(s), events, 0);
    }
    if AllSet(Listen(s, msgs).0) {
      ListenerEndsOnlyOnAcks(Cleared(s), events, 0);
    }
  }

  /** A set flag means its device was marked idle and has stayed so. */
  predicate Settled(s: Snapshot)
  {
    (s.photoDone ==> !s.photoStatus) && (s.moveDone ==> !s.moveStatus) && (s.controlDone ==> !s.oscMoving)
  }

  lemma {:induction false} DrainKeepsSettled(s: Snapshot, events: seq<Option<Ack>>, i: nat)
    requires i <= |events| && Settled(s)
    ensures Settled(DrainFrom(s, events, i).0)
    decreases |events| - i
  {
    if !AllSet(s) && i < |events| {
      DrainKeepsSettled(Step(s, events[i]), events, i + 1);
    }
  }

  /** When the listener returns, camera, carriage and actuator are all idle. */
  lemma ListenDoneMeansIdle(s: Snapshot, msgs: seq<string>)
    requires AllSet(Listen(s, msgs).0)
    ensures var r := Listen(s, msgs).0; !r.photoStatus && !r.moveStatus && !r.oscMoving
  {
    DrainKeepsSettled(Cleared(s), Decoded(msgs), 0);
  }

  /** No FINISHMOVE from `i` on reports a position. */
  predicate NoPositionReport(events: seq<Option<Ack>>, i: nat)
    requires i <= |events|
  {
    forall j :: i <= j < |events| && IsMoveAck(events[j]) ==> events[j].value.report.None?
  }

  /**
   * Without a FINISHMOVE that reports a position the recorded position keeps
   * its value from before, even when the run completes.
   */
  lemma {:induction false} PositionKeptWithoutReport(s: Snapshot, events: seq<Option<Ack>>, i: nat)
    requires i <= |events| && NoPositionReport(events, i)
    ensures DrainFrom(s, events, i).0.position == s.position
    decreases |events| - i
  {
    if !AllSet(s) && i < |events| {
      PositionKeptWithoutReport(Step(s, events[i]), events, i + 1);
    }
  }

  /** Traffic after the last needed finish message is never read. */
  lemma {:induction false} LaterTrafficIgnored(s: Snapshot, events: seq<Option<Ack>>, more: seq<Option<Ack>>, i: nat)
    requires i <= |events| && AllSet(DrainFrom(s, events, i).0)
    ensures DrainFrom(s, events + more, i) == DrainFrom(s, events, i)
    decreases |events| - i
  {
    if !AllSet(s) {
      assert (events + more)[i] == events[i];
      LaterTrafficIgnored(Step(s, events[i]), events, more, i + 1);
    }
  }

  // ------------------------------------------------------------ the listener

  /** The three module-level events of the controller. */
  class FinishEvents {
    /** The journal of the program's devices, which records each start of the listener. */
    const journal: Journal
    var moveDone: bool
    var photoDone: bool
    var controlDone: bool

    constructor (journal: Journal)
      ensures this.journal == journal
      ensures !moveDone && !photoDone && !controlDone
    {
      this.journal := journal;
      moveDone, photoDone, controlDone := false, false, false;
    }
  }

  function Capture(tow: TowingCarriage, cam: CameraController, osc: ForcedOscillationController, ev: FinishEvents): Snapshot
    reads tow, cam, osc, ev
  {
    Snapshot(cam.photoStatus, tow.moveStatus, tow.position, osc.moveStatus, ev.moveDone, ev.photoDone, ev.controlDone)
  }

  /** `process_command`: updates the devices and the events for one message. */
  method ProcessCommand(message: string, tow: TowingCarriage, cam: CameraController,
                        osc: ForcedOscillationController, ev: FinishEvents)
    modifies tow`moveStatus, tow`position, cam`photoStatus, osc`moveStatus, ev
    ensures Capture(tow, cam, osc, ev) == Step(old(Capture(tow, cam, osc, ev)), Some(Classify(message)))
  {
    var parts := SplitMessage(message);
    var actionU := Upper(parts.0);
    ghost var a := ClassifyAction(actionU, parts.1);
    assert Classify(message) == a;
    if "FINISHPHOTO" <= actionU {
      cam.photoStatus := false;
      ev.photoDone := true;
    } else if "FINISHMOVE" <= actionU {
      tow.moveStatus := false;
      if parts.1.Some? {
        var value := ParseFloat(parts.1.value);
        if value.Some? {
          tow.position := value.value;
        }
      }
      ev.moveDone := true;
    } else if "FINISHCONTROL" <= actionU {
      osc.moveStatus := false;
      ev.controlDone := true;
    }
  }

  /** The start of `start_server`: the listener starts and the three events are cleared. */
  method Open(ev: FinishEvents)
    modifies ev, ev.journal
    ensures !ev.moveDone && !ev.photoDone && !ev.controlDone
    ensures ev.journal.events == old(ev.journal.events) + [ListenStart]
  {
    ev.journal.events := ev.journal.events + [ListenStart];
    ev.moveDone, ev.photoDone, ev.controlDone := false, false, false;
  }

  /**
   * The accept loop of `start_server`: while not all three events are set,
   * take the next message, strip it and process it unless empty. `done` is
   * false when the traffic ran out first.
   */
  method Serve(inbox: seq<string>, tow: TowingCarriage, cam: CameraController,
               osc: ForcedOscillationController, ev: FinishEvents) returns (done: bool, consumed: nat)
    modifies tow`moveStatus, tow`position, cam`photoStatus, osc`moveStatus, ev
    ensures (Capture(tow, cam, osc, ev), consumed) == DrainFrom(old(Capture(tow, cam, osc, ev)), Decoded(inbox), 0)
    ensures done <==> AllSet(Capture(tow, cam, osc, ev))
  {
    ghost var events := Decoded(inbox);
    var i := 0;
    while !(ev.moveDone && ev.photoDone && ev.controlDone) && i < |inbox|
      invariant 0 <= i <= |inbox|
      invariant DrainFrom(Capture(tow, cam, osc, ev), events, i) == DrainFrom(old(Capture(tow, cam, osc, ev)), events, 0)
      decreases |inbox| - i
    {
      var msg := Strip(inbox[i]);
      MappedAt(Decode, inbox, i);
      if msg != [] {
        ProcessCommand(msg, tow, cam, osc, ev);
      }
      i := i + 1;
    }
    done := ev.moveDone && ev.photoDone && ev.controlDone;
    consumed := i;
  }

  /** `start_server` as a whole: `Open`, then `Serve`. */
  method StartServer(inbox: seq<string>, tow: TowingCarriage, cam: CameraController,
                     osc: ForcedOscillationController, ev: FinishEvents) returns (done: bool, consumed: nat)
    modifies tow`moveStatus, tow`position, cam`photoStatus, osc`moveStatus, ev, ev.journal
    ensures (Capture(tow, cam, osc, ev), consumed) == Listen(old(Capture(tow, cam, osc, ev)), inbox)
    ensures done <==> AcksPresent(inbox)
    ensures ev.journal.events == old(ev.journal.events) + [ListenStart]
  {
    ghost var before := Capture(tow, cam, osc, ev);
    Open(ev);
    assert Capture(tow, cam, osc, ev) == Cleared(before);
    done, consumed := Serve(inbox, tow, cam, osc, ev);
    ListenCompletesIff(before, inbox);
  }
}
