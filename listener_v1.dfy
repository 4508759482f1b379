/**
 * The status listener of the older controller: `process_command` and the
 * accept loop of `start_server`.
 *
 * It differs from the newer listener in three ways. The action is matched
 * case-sensitively and without stripping. Received text is processed as it
 * arrives, blank or not. A FINISHMOVE whose payload is missing or not a
 * number raises inside `process_command` after the carriage was marked idle,
 * and the exception handler around the accept loop then ends the listener
 * without the other finish messages. Messages it recognises normally change
 * the state exactly as in the newer listener (`ListenerV2.Step`).
 */
module ListenerV1 {

  import opened Text
  import opened Devices
  import opened ListenerV2

  /**
   * The case-sensitive prefix tests, in the order FINISHPHOTO, FINISHMOVE,
   * FINISHCONTROL. `FinishMove(None)` is a FINISHMOVE on which `float` raises.
   */
  function ClassifyV1(message: string): Ack
  {
    var parts := SplitRaw(message);
    if "FINISHPHOTO" <= parts.0 then FinishPhoto
    else if "FINISHMOVE" <= parts.0 then FinishMove(Report(parts.1))
    else if "FINISHCONTROL" <= parts.0 then FinishControl
    else Unrecognized
  }

  /** A FINISHMOVE on which `float(name)` raises. */
  predicate Malformed(a: Ack)
  {
    a.FinishMove? && a.report.None?
  }

  // ------------------------------------------------------------ classification

  /** The acknowledgments are recognised when spelt in upper case. */
  lemma ClassifyV1Photo()
    ensures ClassifyV1("FINISHPHOTO") == FinishPhoto
  {
    SplitRawNoColon("FINISHPHOTO");
  }

  lemma ClassifyV1Control()
    ensures ClassifyV1("FINISHCONTROL") == FinishControl
  {
    var m := "FINISHCONTROL";
    SplitRawNoColon(m);
    assert m[6] == 'C';
  }

  /** A FINISHMOVE with a numeric payload reports that position. */
  lemma ClassifyV1MoveReport(n: nat)
    ensures ClassifyV1("FINISHMOVE:" + NatToString(n)) == FinishMove(Some(n as real))
  {
    var digits := NatToString(n);
    assert "FINISHMOVE:" + digits == "FINISHMOVE" + [':'] + digits;
    assert ':' !in "FINISHMOVE";
    SplitFirstUnique("FINISHMOVE", ':', digits);
    ParseFloatOfNat(n);
  }

  /** A bare FINISHMOVE, without a position, is one on which `float` raises. */
  lemma ClassifyV1MoveBare()
    ensures Malformed(ClassifyV1("FINISHMOVE"))
  {
    SplitRawNoColon("FINISHMOVE");
  }

  /**
   * Unlike the newer listener, the older one ignores an action that starts
   * with a lower-case letter: "finishphoto" is not an acknowledgment here.
   */
  lemma ClassifyV1LowerCase(m: string)
    requires |m| > 0 && 'a' <= m[0] <= 'z'
    ensures ClassifyV1(m) == Unrecognized
  {
    var action := SplitRaw(m).0;
    if ':' in m {
      var k := IndexOf(m, ':');
      assert k > 0;
      assert action == m[..k] && action[0] == m[0];
    }
    assert |action| > 0 && action[0] == m[0];
  }

  /** Unlike the newer listener, the older one does not strip the action. */
  lemma ClassifyV1LeadingBlank(m: string)
    requires |m| > 0 && m[0] == ' '
    ensures ClassifyV1(m) == Unrecognized
  {
    var action := SplitRaw(m).0;
    if ':' in m {
      var k := IndexOf(m, ':');
      assert k > 0;
      assert action == m[..k] && action[0] == m[0];
    }
    assert |action| > 0 && action[0] == m[0];
  }

  // ------------------------------------------------------------ specification

  /**
   * How the accept loop ends: all three events set, the loop left by an
   * exception from `process_command`, or the traffic ran out (the Python loop
   * would then wait forever).
   */
  datatype ListenEnd = AllAcked | Aborted | Starved

  /** The classified traffic, message by message. */
  function DecodedV1(msgs: seq<string>): (acks: seq<Ack>)
    ensures |acks| == |msgs|
  {
    Mapped(ClassifyV1, msgs)
  }

  /**
   * The accept loop from message `i` on: the final state, how many messages
   * were read, and how the loop ended.
   */
  function DrainV1(s: Snapshot, acks: seq<Ack>, i: nat): (r: (Snapshot, nat, ListenEnd))
    requires i <= |acks|
    ensures i <= r.1 <= |acks|
    ensures r.2 == AllAcked <==> AllSet(r.0)
    ensures r.2 == Starved ==> r.1 == |acks|
    decreases |acks| - i
  {
    if AllSet(s) then (s, i, AllAcked)
    else if i == |acks| then (s, i, Starved)
    else if Malformed(acks[i]) then (s.(moveStatus := false), i + 1, Aborted)
    else DrainV1(Step(s, Some(acks[i])), acks, i + 1)
  }

  /** `start_server`: clear the three events, then run the accept loop. */
  function ListenV1(s: Snapshot, msgs: seq<string>): (Snapshot, nat, ListenEnd)
  {
    DrainV1(Cleared(s), DecodedV1(msgs), 0)
  }

  // ------------------------------------------------------------ properties

  /** Each finish message is among those from `i` on, or its flag is set already. */
  predicate Awaited(s: Snapshot, acks: seq<Ack>, i: nat)
    requires i <= |acks|
  {
    && (s.photoDone || exists j :: i <= j < |acks| && acks[j] == FinishPhoto)
    && (s.moveDone || exists j :: i <= j < |acks| && acks[j].FinishMove?)
    && (s.controlDone || exists j :: i <= j < |acks| && acks[j] == FinishControl)
  }

  /** A FINISHMOVE on which `float` raises is among the messages from `i` on. */
  predicate MalformedAhead(acks: seq<Ack>, i: nat)
    requires i <= |acks|
  {
    exists j :: i <= j < |acks| && Malformed(acks[j])
  }

  /**
   * The loop returns (rather than waiting forever) exactly when the three
   * finish messages are all still to come or already flagged, or a FINISHMOVE
   * without a numeric position is among the messages.
   */
  lemma {:induction false} DrainV1ReturnsIff(s: Snapshot, acks: seq<Ack>, i: nat)
    requires i <= |acks|
    ensures DrainV1(s, acks, i).2 != Starved <==> Awaited(s, acks, i) || MalformedAhead(acks, i)
    decreases |acks| - i
  {
    if !AllSet(s) && i < |acks| && !Malformed(acks[i]) {
      var t := Step(s, Some(acks[i]));
      DrainV1ReturnsIff(t, acks, i + 1);
      if Awaited(s, acks, i) {
        assert Awaited(t, acks, i + 1) by {
          if !t.photoDone {
            var j :| i <= j < |acks| && acks[j] == FinishPhoto;
            assert j != i;
          }
          if !t.moveDone {
            var j :| i <= j < |acks| && acks[j].FinishMove?;
            assert j != i;
          }
          if !t.controlDone {
            var j :| i <= j < |acks| && acks[j] == FinishControl;
            assert j != i;
          }
        }
      }
      if MalformedAhead(acks, i) {
        var j :| i <= j < |acks| && Malformed(acks[j]);
        assert j != i;
      }
      if Awaited(t, acks, i + 1) {
        assert Awaited(s, acks, i) by {
          if !s.photoDone && acks[i] != FinishPhoto {
            var j :| i + 1 <= j < |acks| && acks[j] == FinishPhoto;
          }
          if !s.moveDone && !acks[i].FinishMove? {
            var j :| i + 1 <= j < |acks| && acks[j].FinishMove?;
          }
          if !s.controlDone && acks[i] != FinishControl {
            var j :| i + 1 <= j < |acks| && acks[j] == FinishControl;
          }
        }
      }
    } else if !AllSet(s) && i < |acks| {
      assert MalformedAhead(acks, i);
    }
  }

  /**
   * `start_server` returns exactly when the traffic holds FINISHPHOTO, some
   * FINISHMOVE and FINISHCONTROL, or holds a FINISHMOVE without a numeric
   * position.
   */
  lemma ListenV1ReturnsIff(s: Snapshot, msgs: seq<string>)
    ensures ListenV1(s, msgs).2 != Starved <==>
      Awaited(Cleared(s), DecodedV1(msgs), 0) || MalformedAhead(DecodedV1(msgs), 0)
  {
    DrainV1ReturnsIff(Cleared(s), DecodedV1(msgs), 0);
  }

  /**
   * A loop ended by the exception leaves the carriage marked idle but not
   * every event set: the FINISHMOVE that raised did not set the move event.
   */
  lemma {:induction false} AbortedLeavesEventUnset(s: Snapshot, acks: seq<Ack>, i: nat)
    requires i <= |acks|
    requires DrainV1(s, acks, i).2 == Aborted
    ensures !DrainV1(s, acks, i).0.moveStatus
    ensures !AllSet(DrainV1(s, acks, i).0)
    decreases |acks| - i
  {
    if !AllSet(s) && i < |acks| && !Malformed(acks[i]) {
      AbortedLeavesEventUnset(Step(s, Some(acks[i])), acks, i + 1);
    }
  }

  /**
   * A FINISHMOVE without a position as the first message after the moves
   * ends the listener at once: the run is treated as finished although the
   * camera and the actuator have not reported.
   */
  lemma MalformedFirstEndsListener(s: Snapshot, msgs: seq<string>)
    requires |msgs| > 0 && Malformed(ClassifyV1(msgs[0]))
    ensures var r := ListenV1(s, msgs);
      r.2 == Aborted && r.1 == 1 && r.0 == Cleared(s).(moveStatus := false)
  {
    MappedAt(ClassifyV1, msgs, 0);
  }

  /** A set event means its device was marked idle, also when the loop ends early. */
  lemma {:induction false} DrainV1KeepsSettled(s: Snapshot, acks: seq<Ack>, i: nat)
    requires i <= |acks| && Settled(s)
    ensures Settled(DrainV1(s, acks, i).0)
    decreases |acks| - i
  {
    if !AllSet(s) && i < |acks| && !Malformed(acks[i]) {
      DrainV1KeepsSettled(Step(s, Some(acks[i])), acks, i + 1);
    }
  }

  // ------------------------------------------------------------ the listener

  function CaptureV1(tow: TowingCarriage, cam: CameraController, osc: SelfExcitedController,
                     ev: FinishEvents): Snapshot
    reads tow, cam, osc, ev
  {
    Snapshot(cam.photoStatus, tow.moveStatus, tow.position, osc.moveStatus, ev.moveDone, ev.photoDone, ev.controlDone)
  }

  /**
   * `process_command`: updates the devices and the events for one message;
   * `raised` when it is a FINISHMOVE on which `float` raises, which then has
   * only marked the carriage idle.
   */
  method ProcessCommandV1(message: string, tow: TowingCarriage, cam: CameraController,
                          osc: SelfExcitedController, ev: FinishEvents)
    returns (raised: bool)
    modifies tow`moveStatus, tow`position, cam`photoStatus, osc`moveStatus, ev
    ensures raised <==> Malformed(ClassifyV1(message))
    ensures raised ==> CaptureV1(tow, cam, osc, ev) == old(CaptureV1(tow, cam, osc, ev)).(moveStatus := false)
    ensures !raised ==>
      CaptureV1(tow, cam, osc, ev) == Step(old(CaptureV1(tow, cam, osc, ev)), Some(ClassifyV1(message)))
  {
    raised := false;
    var parts := SplitRaw(message);
    if "FINISHPHOTO" <= parts.0 {
      cam.photoStatus := false;
      ev.photoDone := true;
    } else if "FINISHMOVE" <= parts.0 {
      tow.moveStatus := false;
      var value := Report(parts.1);
      if value.None? {
        raised := true;
        return;
      }
      tow.position := value.value;
      ev.moveDone := true;
    } else if "FINISHCONTROL" <= parts.0 {
      osc.moveStatus := false;
      ev.controlDone := true;
    }
  }

  /**
   * `start_server`: clear the three events, then take messages until all
   * three are set; an exception from `process_command` ends it early.
   */
  method StartServerV1(inbox: seq<string>, tow: TowingCarriage, cam: CameraController,
                       osc: SelfExcitedController, ev: FinishEvents)
    returns (end: ListenEnd, consumed: nat)
    modifies tow`moveStatus, tow`position, cam`photoStatus, osc`moveStatus, ev, ev.journal
    ensures (CaptureV1(tow, cam, osc, ev), consumed, end) == ListenV1(old(CaptureV1(tow, cam, osc, ev)), inbox)
    ensures ev.journal.events == old(ev.journal.events) + [ListenStart]
  {
    ghost var acks := DecodedV1(inbox);
    ghost var spec := ListenV1(CaptureV1(tow, cam, osc, ev), inbox);
    Open(ev);
    var i := 0;
    while !(ev.moveDone && ev.photoDone && ev.controlDone) && i < |inbox|
      invariant 0 <= i <= |inbox|
      invariant DrainV1(CaptureV1(tow, cam, osc, ev), acks, i) == spec
      invariant ev.journal.events == old(ev.journal.events) + [ListenStart]
      decreases |inbox| - i
    {
      MappedAt(ClassifyV1, inbox, i);
      var raised := ProcessCommandV1(inbox[i], tow, cam, osc, ev);
      i := i + 1;
      if raised {
        return Aborted, i;
      }
    }
    end := if ev.moveDone && ev.photoDone && ev.controlDone then AllAcked else Starved;
    consumed := i;
  }
}
