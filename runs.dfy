/**
 * Bookkeeping shared by both run sequencers: the condition-table row, the
 * carriage's alternating direction, the names a pass reports as done, and
 * how a pass ends.
 */
module Runs {

  import Protocol

  /**
   * One row of the condition table: the case name, the towing speed, the
   * actuator parameters of the generation (`P`) and the `Finished` column.
   */
  datatype Row<P> = Row(name: string, speed: real, params: P, finished: int)

  /** The exceptions that escape a pass: a refused move (`RuntimeError` /
   *  `KeyError`) or a division by a zero speed (`ZeroDivisionError`). */
  datatype Fault = CannotMove | ZeroDivision

  /**
   * How a pass over the table ends: it reaches the end of the table, an
   * exception escapes at row `row`, or the listener of row `row` never sees
   * all three finish messages (the Python loop then waits forever).
   */
  datatype PassOutcome = Completed | Raised(row: nat, fault: Fault) | Hung(row: nat)

  /** How the run of one row ends (the pass then stops unless it completed). */
  datatype RowResult = RowCompleted | RowRaised(fault: Fault) | RowHung

  /** The pass outcome when row `i` ends with `r`. */
  function PassEnd(i: nat, r: RowResult): PassOutcome
  {
    match r
    case RowCompleted => Completed
    case RowRaised(f) => Raised(i, f)
    case RowHung => Hung(i)
  }

  /** Number of rows the pass looked at (and toggled the direction for). */
  function Examined(outcome: PassOutcome, rows: nat): nat
  {
    match outcome
    case Completed => rows
    case Raised(k, _) => k + 1
    case Hung(k) => k + 1
  }

  /** `0 if d == 1 else 1`: the direction flip done before every row. */
  function Toggle(d: int): (e: int)
    ensures e == 0 || e == 1
    ensures e == 0 <==> d == 1
  {
    if d == 1 then 0 else 1
  }

  /** The direction after `n` flips. */
  function Toggled(d: int, n: nat): int
  {
    if n == 0 then d else Toggle(Toggled(d, n - 1))
  }

  /**
   * Flips alternate: from a proper direction (0 or 1), an even number of flips
   * restores it and an odd number gives the other one. Two rows with one
   * skipped row between them therefore run in the same direction.
   */
  lemma {:induction false} ToggledParity(d: int, n: nat)
    requires d == 0 || d == 1
    ensures Toggled(d, n) == if n % 2 == 0 then d else 1 - d
  {
    if n > 0 {
      ToggledParity(d, n - 1);
    }
  }

  /**
   * From a proper direction, each flip reverses the carriage's travel: the
   * move command after a flip is the other one.
   */
  lemma ToggleReversesMove(d: int)
    requires d == 0 || d == 1
    ensures Protocol.DirectionCommand(Toggle(d)) != Protocol.DirectionCommand(d)
  {
  }

  /** Row `j` is as before, or was unfinished and is now marked `Finished = 1`. */
  predicate KeptOrMarked<P(==)>(before: Row<P>, after: Row<P>)
  {
    after == before || (before.finished == 0 && after == before.(finished := 1))
  }

  /** Every row of the table is marked finished. */
  predicate AllFinished<P>(table: seq<Row<P>>)
  {
    forall j :: 0 <= j < |table| ==> table[j].finished != 0
  }

  /**
   * The names of the rows a pass marked done, in table order: rows whose
   * `Finished` was 0 before and is non-zero after.
   */
  function NewlyFinished<P>(before: seq<Row<P>>, after: seq<Row<P>>): (names: seq<string>)
    requires |before| == |after|
    ensures |names| <= |before|
    decreases |before|
  {
    if before == [] then []
    else
      (if before[0].finished == 0 && after[0].finished != 0 then [after[0].name] else []) +
        NewlyFinished(before[1..], after[1..])
  }

  /** Unfolding at row `i`: row `i` comes first, then the rows after it. */
  lemma NewlyFinishedAt<P>(before: seq<Row<P>>, after: seq<Row<P>>, i: nat)
    requires |before| == |after| && i < |before|
    ensures NewlyFinished(before[i..], after[i..]) ==
      (if before[i].finished == 0 && after[i].finished != 0 then [after[i].name] else []) +
        NewlyFinished(before[i + 1..], after[i + 1..])
  {
    assert before[i..][1..] == before[i + 1..] && after[i..][1..] == after[i + 1..];
  }

  /** Rows whose `Finished` value is unchanged contribute nothing. */
  lemma {:induction false} NewlyFinishedNone<P>(before: seq<Row<P>>, after: seq<Row<P>>)
    requires |before| == |after|
    requires forall j :: 0 <= j < |before| ==> after[j].finished == before[j].finished
    ensures NewlyFinished(before, after) == []
    decreases |before|
  {
    if before != [] {
      NewlyFinishedNone(before[1..], after[1..]);
    }
  }
}
