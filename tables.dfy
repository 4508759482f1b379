/**
 * The two small persistence helpers of the controllers: `changedata`, which
 * writes values into named columns of one row of the condition table, and
 * `write_txt_kv` / `writetxt`, which write a parameter dictionary as
 * `key value` lines for the optimiser to read.
 *
 * The condition table is a local DataFrame that nothing else aliases, so it is
 * a value here: a sequence of rows, each a map from column name to cell.
 */
module Tables {

  import opened Text

  /**
   * Row `m` after `m[names[i]] := values[i]` for `i = 0, 1, ...` over the
   * pairs that both lists provide (Python's `zip` stops at the shorter one).
   * A column named twice ends with its last value.
   */
  function Assigned<V>(m: map<string, V>, names: seq<string>, values: seq<V>): (r: map<string, V>)
    ensures forall k :: k in r <==> k in m || exists j :: 0 <= j < |names| && j < |values| && names[j] == k
    decreases |names|
  {
    if names == [] || values == [] then m
    else Assigned(m[names[0] := values[0]], names[1..], values[1..])
  }

  /**
   * Every named column ends with the value of its last assignment, and every
   * column that is not named keeps its value.
   */
  lemma {:induction false} AssignedSpec<V>(m: map<string, V>, names: seq<string>, values: seq<V>)
    ensures var r := Assigned(m, names, values);
      forall j :: 0 <= j < |names| && j < |values| &&
                  (forall j' :: j < j' < |names| && j' < |values| ==> names[j'] != names[j])
                  ==> names[j] in r && r[names[j]] == values[j]
    ensures var r := Assigned(m, names, values);
      forall k :: k in m && (forall j :: 0 <= j < |names| && j < |values| ==> names[j] != k)
                  ==> k in r && r[k] == m[k]
    decreases |names|
  {
    if names != [] && values != [] {
      AssignedSpec(m[names[0] := values[0]], names[1..], values[1..]);
      var r := Assigned(m, names, values);
      forall j | 0 <= j < |names| && j < |values| &&
                 (forall j' :: j < j' < |names| && j' < |values| ==> names[j'] != names[j])
        ensures names[j] in r && r[names[j]] == values[j]
      {
        if j > 0 {
          assert names[1..][j - 1] == names[j] && values[1..][j - 1] == values[j];
          forall j' | j - 1 < j' < |names[1..]| && j' < |values[1..]|
            ensures names[1..][j'] != names[1..][j - 1]
          {
            assert names[1..][j'] == names[j' + 1];
          }
        }
      }
      forall k | k in m && (forall j :: 0 <= j < |names| && j < |values| ==> names[j] != k)
        ensures k in r && r[k] == m[k]
      {
        forall j | 0 <= j < |names[1..]| && j < |values[1..]| ensures names[1..][j] != k {
          assert names[1..][j] == names[j + 1];
        }
      }
    }
  }

  /**
   * `changedata` of the newer controller: the zipped assignments on row
   * `rowIdx`; every other row is untouched.
   */
  method ChangeData<V>(table: seq<map<string, V>>, rowIdx: nat, colNames: seq<string>, colValues: seq<V>)
    returns (t: seq<map<string, V>>)
    requires rowIdx < |table|
    ensures |t| == |table|
    ensures forall j :: 0 <= j < |t| && j != rowIdx ==> t[j] == table[j]
    ensures t[rowIdx] == Assigned(table[rowIdx], colNames, colValues)
  {
    t := table;
    var i := 0;
    while i < |colNames| && i < |colValues|
      invariant 0 <= i <= |colNames| && i <= |colValues|
      invariant |t| == |table|
      invariant forall j :: 0 <= j < |t| && j != rowIdx ==> t[j] == table[j]
      invariant Assigned(t[rowIdx], colNames[i..], colValues[i..]) == Assigned(table[rowIdx], colNames, colValues)
    {
      assert colNames[i..][1..] == colNames[i + 1..] && colValues[i..][1..] == colValues[i + 1..];
      t := t[rowIdx := t[rowIdx][colNames[i] := colValues[i]]];
      i := i + 1;
    }
  }

  /**
   * `changedata` of the older controller: it indexes the value list by the
   * position of each column name, so a value list shorter than the name list
   * assigns the pairs it has and then raises `IndexError` (`raised`).
   */
  method ChangeDataIndexed<V>(table: seq<map<string, V>>, rowIdx: nat, colNames: seq<string>, colValues: seq<V>)
    returns (t: seq<map<string, V>>, raised: bool)
    requires rowIdx < |table|
    ensures raised <==> |colValues| < |colNames|
    ensures |t| == |table|
    ensures forall j :: 0 <= j < |t| && j != rowIdx ==> t[j] == table[j]
    ensures t[rowIdx] == Assigned(table[rowIdx], colNames, colValues)
  {
    t, raised := table, false;
    var i := 0;
    while i < |colNames|
      invariant 0 <= i <= |colNames| && i <= |colValues|
      invariant |t| == |table|
      invariant forall j :: 0 <= j < |t| && j != rowIdx ==> t[j] == table[j]
      invariant Assigned(t[rowIdx], colNames[i..], colValues[i..]) == Assigned(table[rowIdx], colNames, colValues)
    {
      if i >= |colValues| {
        raised := true;
        return;
      }
      assert colNames[i..][1..] == colNames[i + 1..] && colValues[i..][1..] == colValues[i + 1..];
      t := t[rowIdx := t[rowIdx][colNames[i] := colValues[i]]];
      i := i + 1;
    }
  }

  // ------------------------------------------------------------ key-value file

  /** One line of the parameter file: `key value` and a newline. */
  function KvLine(entry: (string, string)): string
  {
    entry.0 + " " + entry.1 + "\n"
  }

  /** The whole parameter file, one line per entry in dictionary order. */
  function KvText(entries: seq<(string, string)>): string
  {
    if entries == [] then "" else KvLine(entries[0]) + KvText(entries[1..])
  }

  /**
   * `write_txt_kv` / `writetxt`: writes the entries one line at a time; the
   * file's final contents are returned.
   */
  method WriteTxtKv(entries: seq<(string, string)>) returns (text: string)
    ensures text == KvText(entries)
    ensures ReadableKv(entries) ==> ReadKv(text) == entries
  {
    text := "";
    var i := 0;
    while i < |entries|
      invariant 0 <= i <= |entries|
      invariant text + KvText(entries[i..]) == KvText(entries)
    {
      assert KvText(entries[i..]) == KvLine(entries[i]) + KvText(entries[i + 1..]);
      text := text + KvLine(entries[i]);
      i := i + 1;
    }
    assert entries[i..] == [];
    if ReadableKv(entries) {
      KvRoundTrip(entries);
    }
  }

  /** Keys without blanks or line breaks, values without line breaks. */
  predicate ReadableKv(entries: seq<(string, string)>)
  {
    forall i :: 0 <= i < |entries| ==> ' ' !in entries[i].0 && '\n' !in entries[i].0 && '\n' !in entries[i].1
  }

  /** A reader of the parameter file: a line splits at its first blank. */
  function ReadLine(line: string): (string, string)
  {
    if ' ' in line then SplitFirst(line, ' ') else (line, "")
  }

  function ReadKv(text: string): seq<(string, string)>
    decreases |text|
  {
    if text == [] then []
    else if '\n' !in text then [ReadLine(text)]
    else
      var parts := SplitFirst(text, '\n');
      [ReadLine(parts.0)] + ReadKv(parts.1)
  }

  /** Every entry the writer puts in the file is read back, in order. */
  lemma {:induction false} KvRoundTrip(entries: seq<(string, string)>)
    requires ReadableKv(entries)
    ensures ReadKv(KvText(entries)) == entries
  {
    if entries != [] {
      var (k, v) := entries[0];
      var line := k + " " + v;
      assert KvText(entries) == line + "\n" + KvText(entries[1..]);
      assert '\n' !in line by {
        assert forall i :: 0 <= i < |line| ==> line[i] == (if i < |k| then k[i] else if i == |k| then ' ' else v[i - |k| - 1]);
      }
      SplitFirstUnique(line, '\n', KvText(entries[1..]));
      SplitFirstUnique(k, ' ', v);
      assert ReadableKv(entries[1..]) by {
        forall i | 0 <= i < |entries[1..]|
          ensures ' ' !in entries[1..][i].0 && '\n' !in entries[1..][i].0 && '\n' !in entries[1..][i].1
        {
          assert entries[1..][i] == entries[i + 1];
        }
      }
      KvRoundTrip(entries[1..]);
    }
  }
}
