/**
 * The camera PC's tool (`video_V2_command.py`): the panel's condition-name
 * and recording-time entries, the commands it receives from the controller,
 * the condition-name rewrite of its "change condition" button, and the
 * choice of a fresh file name when a recording is renamed after the case.
 *
 * A folder is modelled by its directory listing (`listing`, in the order the
 * system lists it) and the creation time of each file (`ctime`); the GUI,
 * the mouse clicks that start and stop the recording software, the record
 * thread and its countdown are not modelled: a started recording is a
 * `Trigger` value in the panel's log.
 */
module CameraTool {

  import opened Text
  import opened Protocol

  // ------------------------------------------------------ condition-name rewrite

  /** The other marker letter. */
  function Swap(c: char): (d: char)
    requires c == 'F' || c == 'Z'
    ensures (d == 'F' || d == 'Z') && d != c
  {
    if c == 'F' then 'Z' else 'F'
  }

  /**
   * `rfind("F")` against `rfind("Z")`: the position of the last marker
   * letter, whichever of the two comes later, and the letter that replaces
   * it. Without any marker the position is -1 and the letter `F`.
   */
  function Marker(name: string): (m: (int, char))
    ensures -1 <= m.0 < |name|
    ensures m.1 == 'F' || m.1 == 'Z'
  {
    var f := LastIndexOf(name, 'F');
    var z := LastIndexOf(name, 'Z');
    if f > z then (f, 'Z') else (z, 'F')
  }

  /**
   * The marker is the last `F` or `Z` of the name, and the letter that
   * replaces it is the other one; without either letter it is at -1 and the
   * replacement is `F`.
   */
  lemma MarkerSpec(name: string)
    ensures var m := Marker(name);
      && (m.0 == -1 <==> 'F' !in name && 'Z' !in name)
      && (m.0 == -1 ==> m.1 == 'F')
      && (m.0 >= 0 ==> (name[m.0] == 'F' || name[m.0] == 'Z') && m.1 == Swap(name[m.0]))
      && (forall j :: m.0 < j < |name| ==> name[j] != 'F' && name[j] != 'Z')
  {
    LastIndexOfSpec(name, 'F');
    LastIndexOfSpec(name, 'Z');
  }

  /** Where the maximal run of digits that ends just before `index` starts. */
  function RunStart(name: string, index: nat): (s: nat)
    requires index <= |name|
    ensures s <= index && AllDigits(name[s..index])
    ensures s == 0 || !IsDigit(name[s - 1])
    decreases index
  {
    if index == 0 || !IsDigit(name[index - 1]) then index
    else
      var s := RunStart(name, index - 1);
      assert name[s..index] == name[s..index - 1] + [name[index - 1]];
      s
  }

  /** The run start is the only start of a digit run that cannot be extended to the left. */
  lemma RunStartUnique(name: string, index: nat, s: nat)
    requires s <= index <= |name| && AllDigits(name[s..index])
    requires s == 0 || !IsDigit(name[s - 1])
    ensures RunStart(name, index) == s
  {
  }

  /** The name carries a count: a digit right before its last marker. */
  predicate HasCount(name: string)
  {
    var k := Marker(name).0;
    k > 0 && IsDigit(name[k - 1])
  }

  /** Python's `str(int(number) + num0)` for a run of digits `number`. */
  function Renumbered(digits: string, delta: int): (r: string)
    requires AllDigits(digits)
    ensures |r| > 0
  {
    IntToString(DigitsValue(digits) + delta)
  }

  /**
   * The "change condition" rewrite: the run of digits right before the last
   * marker becomes its value plus `delta` (Python's `str(int(number) + num0)`)
   * and the marker is swapped; a name without such digits is kept.
   */
  function Rewrite(name: string, delta: int): (r: string)
  {
    var marker := Marker(name);
    if marker.0 <= 0 then name
    else
      var s := RunStart(name, marker.0);
      if s == marker.0 then name
      else name[..s] + Renumbered(name[s..marker.0], delta) + [marker.1] + name[marker.0 + 1..]
  }

  /**
   * A name cut into the text before the count, the count's digits, the
   * marker and the marker-free rest.
   */
  predicate Parts(prefix: string, digits: string, marker: char, rest: string)
  {
    && (prefix == [] || !IsDigit(prefix[|prefix| - 1]))
    && |digits| > 0 && AllDigits(digits)
    && (marker == 'F' || marker == 'Z')
    && 'F' !in rest && 'Z' !in rest
  }

  /** A name without a count is left as it is, whatever the delta. */
  lemma {:induction false} RewriteWithoutCount(name: string, delta: int)
    requires !HasCount(name)
    ensures Rewrite(name, delta) == name
  {
    var k := Marker(name).0;
    if k > 0 {
      assert RunStart(name, k) == k;
    }
  }

  /** Every name with a count is cut into `Parts` at its run and its last marker. */
  lemma HasCountParts(name: string)
    requires HasCount(name)
    ensures var k := Marker(name).0; var s := RunStart(name, k);
      && s < k
      && Parts(name[..s], name[s..k], name[k], name[k + 1..])
      && name == name[..s] + name[s..k] + [name[k]] + name[k + 1..]
  {
    var k := Marker(name).0;
    var s := RunStart(name, k);
    MarkerSpec(name);
    MarkerFreeRest(name, k);
    assert name == name[..s] + name[s..k] + [name[k]] + name[k + 1..];
  }

  /** Past the last marker there is no marker letter. */
  lemma MarkerFreeRest(name: string, k: int)
    requires -1 <= k < |name|
    requires forall j :: k < j < |name| ==> name[j] != 'F' && name[j] != 'Z'
    ensures 'F' !in name[k + 1..] && 'Z' !in name[k + 1..]
  {
    var rest := name[k + 1..];
    assert forall j :: 0 <= j < |rest| ==> rest[j] == name[k + 1 + j];
  }

  /** The last marker of a name cut into `Parts` is the one after the count. */
  lemma MarkerOfParts(prefix: string, digits: string, marker: char, rest: string)
    requires Parts(prefix, digits, marker, rest)
    ensures Marker(prefix + digits + [marker] + rest) == (|prefix| + |digits|, Swap(marker))
  {
    var name := prefix + digits + [marker] + rest;
    var k := |prefix| + |digits|;
    MarkerSpec(name);
    assert name[k] == marker;
    assert forall j :: k < j < |name| ==> name[j] == rest[j - k - 1];
  }

  /** The count of a name cut into `Parts` is exactly its digits. */
  lemma RunOfParts(prefix: string, digits: string, marker: char, rest: string)
    requires Parts(prefix, digits, marker, rest)
    ensures var name := prefix + digits + [marker] + rest; var k := |prefix| + |digits|;
      k <= |name| && RunStart(name, k) == |prefix| && name[|prefix|..k] == digits
  {
    var name := prefix + digits + [marker] + rest;
    var k := |prefix| + |digits|;
    assert name[|prefix|..k] == digits;
    if |prefix| > 0 {
      assert name[|prefix| - 1] == prefix[|prefix| - 1];
    }
    RunStartUnique(name, k, |prefix|);
  }

  /** The rewrite of a name whose last marker is at `k` and whose count starts at `s`. */
  lemma RewriteAt(name: string, k: nat, s: nat, delta: int)
    requires Marker(name).0 == k && s < k && RunStart(name, k) == s
    ensures Rewrite(name, delta) ==
      name[..s] + Renumbered(name[s..k], delta) + [Marker(name).1] + name[k + 1..]
  {
  }

  /**
   * What the rewrite does to a name with a count: the text before the count
   * and after the marker is kept, the count becomes its value plus `delta`,
   * and the marker is swapped. Such a name always has a count.
   */
  lemma RewriteParts(prefix: string, digits: string, marker: char, rest: string, delta: int)
    requires Parts(prefix, digits, marker, rest)
    ensures HasCount(prefix + digits + [marker] + rest)
    ensures Rewrite(prefix + digits + [marker] + rest, delta) ==
      prefix + Renumbered(digits, delta) + [Swap(marker)] + rest
  {
    var name := prefix + digits + [marker] + rest;
    var k := |prefix| + |digits|;
    MarkerOfParts(prefix, digits, marker, rest);
    RunOfParts(prefix, digits, marker, rest);
    assert name[k - 1] == digits[|digits| - 1];
    RewriteAt(name, k, |prefix|, delta);
    assert name[..|prefix|] == prefix;
    assert name[k + 1..] == rest;
  }

  /** The entries' contents when the panel opens, and the step of the count entry. */
  const DefaultName: string := "4DU02BM10UR300Z"
  const DefaultTime: string := "75"
  const DefaultStep: int := 100

  /** With the default step, the default case name moves on to the next case. */
  lemma DefaultNameAdvances()
    ensures Rewrite(DefaultName, DefaultStep) == "4DU02BM10UR400F"
  {
    DefaultNameParts();
    DefaultCount();
    NextDefaultName();
  }

  /** The next case's name, assembled from its parts. */
  lemma NextDefaultName()
    ensures "4DU02BM10UR" + "400" + ['F'] + "" == "4DU02BM10UR400F"
  {
  }

  /** The default name is a count of 300 before the marker `Z`, with nothing after it. */
  lemma DefaultNameParts()
    ensures Rewrite(DefaultName, DefaultStep) == "4DU02BM10UR" + Renumbered("300", DefaultStep) + ['F'] + ""
  {
    assert DefaultName == "4DU02BM10UR" + "300" + ['Z'] + "";
    RewriteParts("4DU02BM10UR", "300", 'Z', "", DefaultStep);
  }

  /** The default count moved by the default step is written "400". */
  lemma DefaultCount()
    ensures Renumbered("300", DefaultStep) == "400"
  {
    ThreeHundred();
    NatToStringRoundTrip(300);
    assert NatToString(4) == "4";
    assert NatToString(40) == "40";
  }

  /** `str(300)`. */
  lemma ThreeHundred()
    ensures NatToString(300) == "300"
  {
    assert NatToString(3) == "3";
    assert NatToString(30) == "30";
  }

  /**
   * Rewriting by `delta` and then by `-delta` restores a name whose count is
   * written without leading zeros, as long as the count stays non-negative.
   */
  lemma RewriteRoundTrip(name: string, delta: int)
    requires HasCount(name)
    requires var k := Marker(name).0; var s := RunStart(name, k);
      Canonical(name[s..k]) && DigitsValue(name[s..k]) + delta >= 0
    ensures Rewrite(Rewrite(name, delta), -delta) == name
  {
    HasCountParts(name);
    var k := Marker(name).0;
    var s := RunStart(name, k);
    RenumberedInverse(name[s..k], delta);
    PartsRoundTrip(name[..s], name[s..k], name[k], name[k + 1..], delta);
  }

  /** A count written as Python writes numbers: no leading zeros. */
  predicate Canonical(digits: string)
  {
    AllDigits(digits) && digits == NatToString(DigitsValue(digits))
  }

  /** Moving a canonical count by `delta` and back gives it again, if it stays non-negative. */
  lemma RenumberedInverse(digits: string, delta: int)
    requires Canonical(digits) && DigitsValue(digits) + delta >= 0
    ensures Canonical(Renumbered(digits, delta))
    ensures Renumbered(Renumbered(digits, delta), -delta) == digits
  {
    var v := DigitsValue(digits);
    NatToStringRoundTrip(v + delta);
    assert DigitsValue(NatToString(v + delta)) - delta == v;
  }

  /** The round trip on a name given by its parts. */
  lemma PartsRoundTrip(prefix: string, digits: string, marker: char, rest: string, delta: int)
    requires Parts(prefix, digits, marker, rest)
    requires |Renumbered(digits, delta)| > 0 && AllDigits(Renumbered(digits, delta))
    requires Renumbered(Renumbered(digits, delta), -delta) == digits
    ensures var name := prefix + digits + [marker] + rest;
      Rewrite(Rewrite(name, delta), -delta) == name
  {
    var moved := Renumbered(digits, delta);
    var name := prefix + digits + [marker] + rest;
    var renamed := prefix + moved + [Swap(marker)] + rest;
    RewriteParts(prefix, digits, marker, rest, delta);
    assert Rewrite(name, delta) == renamed;
    RewriteParts(prefix, moved, Swap(marker), rest, -delta);
    assert Swap(Swap(marker)) == marker;
  }

  /**
   * The rewritten count reads back as the old count plus `delta`, when that
   * is not negative.
   */
  lemma RenumberedValue(digits: string, delta: int)
    requires AllDigits(digits) && DigitsValue(digits) + delta >= 0
    ensures AllDigits(Renumbered(digits, delta))
    ensures DigitsValue(Renumbered(digits, delta)) == DigitsValue(digits) + delta
  {
    NatToStringRoundTrip(DigitsValue(digits) + delta);
  }

  /**
   * After a rewrite the name still has a count, and its marker is the
   * swapped letter, so the next rewrite swaps it back.
   */
  lemma RewriteSwapsMarker(name: string, delta: int)
    requires HasCount(name)
    requires var k := Marker(name).0; DigitsValue(name[RunStart(name, k)..k]) + delta >= 0
    ensures var r := Rewrite(name, delta);
      HasCount(r) && r[Marker(r).0] == Marker(name).1 && Marker(r).1 == name[Marker(name).0]
  {
    HasCountParts(name);
    MarkerSpec(name);
    var k := Marker(name).0;
    var s := RunStart(name, k);
    RenumberedValue(name[s..k], delta);
    PartsSwapMarker(name[..s], name[s..k], name[k], name[k + 1..], delta);
  }

  /** The marker swap on a name given by its parts. */
  lemma PartsSwapMarker(prefix: string, digits: string, marker: char, rest: string, delta: int)
    requires Parts(prefix, digits, marker, rest)
    requires AllDigits(Renumbered(digits, delta))
    ensures var r := Rewrite(prefix + digits + [marker] + rest, delta);
      HasCount(r) && r[Marker(r).0] == Swap(marker) && Marker(r).1 == marker
  {
    var moved := Renumbered(digits, delta);
    RewriteParts(prefix, digits, marker, rest, delta);
    RewriteParts(prefix, moved, Swap(marker), rest, -delta);
    MarkerOfParts(prefix, moved, Swap(marker), rest);
    var r := prefix + moved + [Swap(marker)] + rest;
    assert r[|prefix| + |moved|] == Swap(marker);
    assert Swap(Swap(marker)) == marker;
  }

  // ------------------------------------------------------------ the panel

  /**
   * A recording the panel starts or stops: automatic recording of the case
   * in the name entry for the seconds in the time entry, a manual start, or
   * a stop that renames the recordings after the case in the name entry.
   */
  datatype Trigger = AutoRecord(name: string, seconds: string) | StartRecord | StopRecord(name: string)

  /** The panel's entries and the recordings triggered so far. */
  datatype PanelState = PanelState(nameEntry: string, timeEntry: string, triggered: seq<Trigger>)

  /**
   * The routing of a message: the text after the first colon goes to the
   * time entry when the action starts with CHANGETIME, to the name entry
   * otherwise; a message without a colon writes no entry.
   */
  function Routed(p: PanelState, message: string): (q: PanelState)
    ensures q.triggered == p.triggered
  {
    var (action, payload) := SplitRaw(message);
    match payload
    case None => p
    case Some(text) =>
      if "CHANGETIME" <= action then p.(timeEntry := text) else p.(nameEntry := text)
  }

  /**
   * The dispatch: three independent prefix tests on the action, each
   * triggering with the entries as the routing left them.
   */
  function Dispatched(action: string, nameEntry: string, timeEntry: string): seq<Trigger>
  {
    (if "AUTOPHOTO" <= action then [AutoRecord(nameEntry, timeEntry)] else []) +
    (if "STARTPHOTO" <= action then [StartRecord] else []) +
    (if "STOPPHOTO" <= action then [StopRecord(nameEntry)] else [])
  }

  /** The panel after handling one message: routing, then dispatch. */
  function Received(p: PanelState, message: string): PanelState
  {
    var q := Routed(p, message);
    q.(triggered := q.triggered + Dispatched(SplitRaw(message).0, q.nameEntry, q.timeEntry))
  }

  /** No action starts with two of the three keywords: a message triggers at most one recording. */
  lemma TriggersExclusive(action: string, nameEntry: string, timeEntry: string)
    ensures |Dispatched(action, nameEntry, timeEntry)| <= 1
  {
    if "AUTOPHOTO" <= action {
      assert action[0] == 'A';
    } else if "STARTPHOTO" <= action {
      assert action[2] == 'A';
    }
  }

  /** A message without a colon leaves both entries as they were. */
  lemma NoColonKeepsEntries(p: PanelState, message: string)
    requires ':' !in message
    ensures Received(p, message).nameEntry == p.nameEntry
    ensures Received(p, message).timeEntry == p.timeEntry
  {
  }

  /** A message `action:payload` whose action has no colon. */
  lemma ReceivedJoin(p: PanelState, action: string, payload: string)
    requires ':' !in action
    ensures var q := if "CHANGETIME" <= action then p.(timeEntry := payload) else p.(nameEntry := payload);
      Received(p, action + ":" + payload) == q.(triggered := q.triggered + Dispatched(action, q.nameEntry, q.timeEntry))
  {
    SplitRawJoin(action, payload);
  }

  /** The prefix tests on CHANGETIME: it routes to the time entry and triggers nothing. */
  lemma ChangeTimeKeyword(nameEntry: string, timeEntry: string)
    ensures Dispatched("CHANGETIME", nameEntry, timeEntry) == []
  {
    assert "CHANGETIME"[0] != "AUTOPHOTO"[0] && "CHANGETIME"[0] != "STARTPHOTO"[0];
    assert "CHANGETIME"[0] != "STOPPHOTO"[0];
  }

  /** The prefix tests on AUTOPHOTO: it routes to the name entry and starts an automatic recording. */
  lemma AutoPhotoKeyword(nameEntry: string, timeEntry: string)
    ensures !("CHANGETIME" <= "AUTOPHOTO")
    ensures Dispatched("AUTOPHOTO", nameEntry, timeEntry) == [AutoRecord(nameEntry, timeEntry)]
  {
    assert "CHANGETIME"[0] != "AUTOPHOTO"[0];
    assert "AUTOPHOTO"[0] != "STARTPHOTO"[0] && "AUTOPHOTO"[0] != "STOPPHOTO"[0];
  }

  /** The prefix tests on STRATPHOTO: it routes to the name entry and triggers nothing. */
  lemma StratPhotoKeyword(nameEntry: string, timeEntry: string)
    ensures !("CHANGETIME" <= "STRATPHOTO")
    ensures Dispatched("STRATPHOTO", nameEntry, timeEntry) == []
  {
    assert "CHANGETIME"[0] != "STRATPHOTO"[0] && "STRATPHOTO"[0] != "AUTOPHOTO"[0];
    assert "STRATPHOTO"[3] != "STARTPHOTO"[3] && "STRATPHOTO"[2] != "STOPPHOTO"[2];
  }

  /** The prefix tests on STOPPHOTO: it routes to the name entry and stops the recording. */
  lemma StopPhotoKeyword(nameEntry: string, timeEntry: string)
    ensures !("CHANGETIME" <= "STOPPHOTO")
    ensures Dispatched("STOPPHOTO", nameEntry, timeEntry) == [StopRecord(nameEntry)]
  {
    assert "CHANGETIME"[0] != "STOPPHOTO"[0] && "STOPPHOTO"[0] != "AUTOPHOTO"[0];
    assert "STOPPHOTO"[2] != "STARTPHOTO"[2];
  }

  /** CHANGETIME sets the time entry and triggers nothing. */
  lemma ChangeTimeSetsTime(p: PanelState, seconds: real, num: real -> string)
    ensures Received(p, Wire(Command.ChangeTime(seconds), num)) == p.(timeEntry := num(seconds))
  {
    assert Wire(Command.ChangeTime(seconds), num) == "CHANGETIME" + ":" + num(seconds);
    ReceivedJoin(p, "CHANGETIME", num(seconds));
    ChangeTimeKeyword(p.nameEntry, num(seconds));
  }

  /** AUTOPHOTO sets the name entry and starts an automatic recording of that case. */
  lemma AutoPhotoRecords(p: PanelState, name: string, num: real -> string)
    ensures Received(p, Wire(AutoPhoto(name), num)) ==
      PanelState(name, p.timeEntry, p.triggered + [AutoRecord(name, p.timeEntry)])
  {
    assert Wire(AutoPhoto(name), num) == "AUTOPHOTO" + ":" + name;
    ReceivedJoin(p, "AUTOPHOTO", name);
    AutoPhotoKeyword(name, p.timeEntry);
  }

  /**
   * The camera controller's `auto` (CHANGETIME, then AUTOPHOTO) starts an
   * automatic recording of the named case for the given time.
   */
  lemma AutoCommandsRecord(p: PanelState, seconds: real, name: string, num: real -> string)
    ensures Received(Received(p, Wire(Command.ChangeTime(seconds), num)), Wire(AutoPhoto(name), num)) ==
      PanelState(name, num(seconds), p.triggered + [AutoRecord(name, num(seconds))])
  {
    ChangeTimeSetsTime(p, seconds, num);
    AutoPhotoRecords(p.(timeEntry := num(seconds)), name, num);
  }

  /**
   * The token the controllers send to start a recording, STRATPHOTO, starts
   * none: it only overwrites the name entry.
   */
  lemma StratPhotoIgnored(p: PanelState, name: string, num: real -> string)
    ensures Received(p, Wire(StratPhoto(name), num)) == p.(nameEntry := name)
  {
    assert Wire(StratPhoto(name), num) == "STRATPHOTO" + ":" + name;
    ReceivedJoin(p, "STRATPHOTO", name);
    StratPhotoKeyword(name, p.timeEntry);
  }

  /** STOPPHOTO sets the name entry and stops the recording under that name. */
  lemma StopPhotoStops(p: PanelState, name: string, num: real -> string)
    ensures Received(p, Wire(StopPhoto(name), num)) ==
      PanelState(name, p.timeEntry, p.triggered + [StopRecord(name)])
  {
    assert Wire(StopPhoto(name), num) == "STOPPHOTO" + ":" + name;
    ReceivedJoin(p, "STOPPHOTO", name);
    StopPhotoKeyword(name, p.timeEntry);
  }

  /**
   * The scan of the "change condition" button: from just before the marker
   * at `index`, collect the digits going left. The digits found are exactly
   * the count run before the marker, and `i` ends just before them.
   */
  method ScanCount(name0: string, index: int) returns (number: string, i: int)
    requires -1 <= index < |name0|
    ensures index <= 0 ==> number == []
    ensures index > 0 ==> 0 <= i + 1 == RunStart(name0, index) && number == name0[i + 1..index]
    ensures number != [] <==> index > 0 && IsDigit(name0[index - 1])
  {
    number := "";
    i := index - 1;
    while i >= 0 && IsDigit(name0[i])
      invariant index >= 0 ==> -1 <= i < index && number == name0[i + 1..index] && AllDigits(number)
      invariant index < 0 ==> i == index - 1 && number == ""
      decreases i + 2
    {
      number := [name0[i]] + number;
      i := i - 1;
    }
    if index > 0 {
      RunStartUnique(name0, index, i + 1);
    }
  }

  /** The tool's window: its two entries and the recordings it has triggered. */
  class Panel {
    var nameEntry: string
    var timeEntry: string
    var triggered: seq<Trigger>

    function State(): PanelState
      reads this
    {
      PanelState(nameEntry, timeEntry, triggered)
    }

    /** The panel opens with the default case name and recording time filled in. */
    constructor ()
      ensures State() == PanelState(DefaultName, DefaultTime, [])
    {
      nameEntry, timeEntry, triggered := DefaultName, DefaultTime, [];
    }

    /**
     * The "change condition" button: scan back from the last marker over the
     * digits before it, and when there are any, write the name with the count
     * moved by `num0` and the marker swapped.
     */
    method ChangeCondition(num0: int)
      modifies this`nameEntry
      ensures nameEntry == Rewrite(old(nameEntry), num0)
    {
      var name0 := nameEntry;
      var marker := Marker(name0);
      var index, newChar := marker.0, marker.1;
      var number, i := ScanCount(name0, index);
      if number != "" {
        RewriteAt(name0, index, i + 1, num0);
        nameEntry := name0[..i + 1] + Renumbered(number, num0) + [newChar] + name0[index + 1..];
      } else {
        RewriteWithoutCount(name0, num0);
      }
    }

    /** `process_command`: route the payload to an entry, then dispatch on the action. */
    method ProcessCommand(message: string)
      modifies this
      ensures State() == Received(old(State()), message)
    {
      var action: string;
      if ':' in message {
        var parts := SplitFirst(message, ':');
        action := parts.0;
        if "CHANGETIME" <= action {
          timeEntry := parts.1;
        } else {
          nameEntry := parts.1;
        }
      } else {
        action := message;
      }
      var fired: seq<Trigger> := [];
      if "AUTOPHOTO" <= action {
        fired := fired + [AutoRecord(nameEntry, timeEntry)];
      }
      if "STARTPHOTO" <= action {
        fired := fired + [StartRecord];
      }
      if "STOPPHOTO" <= action {
        fired := fired + [StopRecord(nameEntry)];
      }
      triggered := triggered + fired;
    }
  }

  // ---------------------------------------------------- renaming a recording

  /** A name `glob("*.mp4")` matches: ends with `.mp4` and is not hidden. */
  predicate IsMp4(file: string)
  {
    |file| >= 4 && file[|file| - 4..] == ".mp4" && file[0] != '.'
  }

  /**
   * `max(mp4_files, key=os.path.getctime)` over the listing from position
   * `i`: the position of the mp4 file created last, the first one among
   * equally recent files; `None` when there is no mp4 file.
   */
  function Latest(listing: seq<string>, ctime: string -> int, i: nat): (k: Option<nat>)
    requires i <= |listing|
    ensures k.None? <==> forall j :: i <= j < |listing| ==> !IsMp4(listing[j])
    ensures k.Some? ==> i <= k.value < |listing| && IsMp4(listing[k.value])
    ensures k.Some? ==> forall j :: i <= j < |listing| && IsMp4(listing[j]) ==> ctime(listing[j]) <= ctime(listing[k.value])
    ensures k.Some? ==> forall j :: i <= j < k.value && IsMp4(listing[j]) ==> ctime(listing[j]) < ctime(listing[k.value])
    decreases |listing| - i
  {
    if i == |listing| then None
    else
      var later := Latest(listing, ctime, i + 1);
      if !IsMp4(listing[i]) then later
      else if later.None? || ctime(listing[later.value]) <= ctime(listing[i]) then Some(i)
      else later
  }

  /**
   * `os.path.splitext` of a base name: the extension starts at the last dot,
   * unless everything before that dot is dots.
   */
  function SplitExt(name: string): (r: (string, string))
    ensures r.0 + r.1 == name
    ensures r.1 == [] || (r.1[0] == '.' && '.' !in r.1[1..])
  {
    var k := LastIndexOf(name, '.');
    LastIndexOfSpec(name, '.');
    if k > 0 && exists j :: 0 <= j < k && name[j] != '.' then (name[..k], name[k..]) else (name, [])
  }

  /** `name0 + f"V{count}" + extension`: the candidate name with version `count`. */
  function Versioned(newName: string, count: nat): string
  {
    SplitExt(newName).0 + "V" + NatToString(count) + SplitExt(newName).1
  }

  /** Distinct versions give distinct names. */
  lemma VersionedInjective(newName: string, a: nat, b: nat)
    requires Versioned(newName, a) == Versioned(newName, b)
    ensures a == b
  {
    var root := SplitExt(newName).0;
    var x, y := NatToString(a), NatToString(b);
    assert |x| == |y|;
    assert x == Versioned(newName, a)[|root| + 1..|root| + 1 + |x|];
    assert y == Versioned(newName, b)[|root| + 1..|root| + 1 + |y|];
    NatToStringInjective(a, b);
  }

  /**
   * The recordings are renamed `<case>-<camera>.mp4`; version `count` of that
   * name is `<case>-<camera>V<count>.mp4`.
   */
  lemma VersionedRecording(name: string, camera: nat, count: nat)
    ensures Versioned(name + "-" + NatToString(camera) + ".mp4", count) ==
      name + "-" + NatToString(camera) + "V" + NatToString(count) + ".mp4"
  {
    var stem := name + "-" + NatToString(camera);
    var file := stem + ".mp4";
    var k := LastIndexOf(file, '.');
    LastIndexOfSpec(file, '.');
    assert file[|stem|] == '.';
    assert forall j :: |stem| < j < |file| ==> file[j] != '.';
    assert k == |stem|;
    assert file[k - 1] != '.';
    assert file[..k] == stem && file[k..] == ".mp4";
  }

  /** The first `n` versions of a name. */
  ghost function Candidates(newName: string, n: nat): set<string>
  {
    if n == 0 then {} else Candidates(newName, n - 1) + {Versioned(newName, n)}
  }

  /** The first `n` versions are `n` distinct names. */
  lemma {:induction false} CandidatesCount(newName: string, n: nat)
    ensures |Candidates(newName, n)| == n
    ensures forall m :: m > n ==> Versioned(newName, m) !in Candidates(newName, n)
  {
    if n > 0 {
      CandidatesCount(newName, n - 1);
      forall m | m > n
        ensures Versioned(newName, m) != Versioned(newName, n)
      {
        if Versioned(newName, m) == Versioned(newName, n) {
          VersionedInjective(newName, m, n);
        }
      }
    }
  }

  /** Versions 1 to `n` are among the first `n`. */
  lemma {:induction false} CandidatesHold(newName: string, n: nat, c: nat)
    requires 1 <= c <= n
    ensures Versioned(newName, c) in Candidates(newName, n)
  {
    if c < n {
      CandidatesHold(newName, n - 1, c);
    }
  }

  /** A subset is no larger than the set. */
  lemma SubsetSize<T>(a: set<T>, b: set<T>)
    requires a <= b
    ensures |a| <= |b|
  {
    assert b == a + (b - a);
  }

  /** A completed rename: the listing position of the file, its new name and the version used. */
  datatype Renaming = Renaming(index: nat, target: string, count: nat)

  /**
   * `rename_latest_mp4`: rename the latest mp4 file of the folder to the
   * first version `V1`, `V2`, ... of `newName` that is not already taken.
   * With no mp4 file nothing is renamed.
   */
  method RenameLatestMp4(listing: seq<string>, ctime: string -> int, newName: string)
    returns (after: seq<string>, renamed: Option<Renaming>)
    ensures renamed.None? <==> forall j :: 0 <= j < |listing| ==> !IsMp4(listing[j])
    ensures renamed.None? ==> after == listing
    ensures renamed.Some? ==>
      var rn := renamed.value;
      && Latest(listing, ctime, 0) == Some(rn.index)
      && rn.count >= 1 && rn.target == Versioned(newName, rn.count)
      && rn.target !in listing
      && (forall c :: 1 <= c < rn.count ==> Versioned(newName, c) in listing)
      && after == listing[rn.index := rn.target]
  {
    var latest := Latest(listing, ctime, 0);
    if latest.None? {
      return listing, None;
    }
    var parts := SplitExt(newName);
    var root, ext := parts.0, parts.1;
    var count := 1;
    var target := root + "V" + NatToString(count) + ext;
    ghost var names := set f | f in listing;
    while target in listing
      invariant count >= 1 && target == Versioned(newName, count)
      invariant Candidates(newName, count - 1) <= names
      decreases |names| - count
    {
      assert Candidates(newName, count) <= names;
      CandidatesCount(newName, count);
      SubsetSize(Candidates(newName, count), names);
      count := count + 1;
      target := root + "V" + NatToString(count) + ext;
    }
    forall c | 1 <= c < count
      ensures Versioned(newName, c) in listing
    {
      CandidatesHold(newName, count - 1, c);
    }
    after := listing[latest.value := target];
    renamed := Some(Renaming(latest.value, target, count));
  }
}
