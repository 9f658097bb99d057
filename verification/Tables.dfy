/** The rows of the append-only tables that belong to one job, in insertion order. */
module Tables {
  import opened Domain

  function ExecutionsOf(rows: seq<Execution>, j: JobId): seq<Execution> {
    if rows == [] then []
    else
      var last := rows[|rows| - 1];
      ExecutionsOf(rows[..|rows| - 1], j) + (if last.job == j then [last] else [])
  }

  function DlqOf(rows: seq<DlqEntry>, j: JobId): seq<DlqEntry> {
    if rows == [] then []
    else
      var last := rows[|rows| - 1];
      DlqOf(rows[..|rows| - 1], j) + (if last.job == j then [last] else [])
  }

  function CountEvents(rows: seq<Event>, e: Event): nat {
    if rows == [] then 0
    else CountEvents(rows[..|rows| - 1], e) + (if rows[|rows| - 1] == e then 1 else 0)
  }

  function CountOutcome(rows: seq<Execution>, success: bool): nat {
    if rows == [] then 0
    else CountOutcome(rows[..|rows| - 1], success) + (if rows[|rows| - 1].success == success then 1 else 0)
  }

  lemma {:induction false} AppendExecution(rows: seq<Execution>, e: Execution)
    ensures forall j :: ExecutionsOf(rows + [e], j) == ExecutionsOf(rows, j) + (if e.job == j then [e] else [])
  {
    assert (rows + [e])[..|rows|] == rows;
  }

  lemma {:induction false} AppendDlq(rows: seq<DlqEntry>, e: DlqEntry)
    ensures forall j :: DlqOf(rows + [e], j) == DlqOf(rows, j) + (if e.job == j then [e] else [])
  {
    assert (rows + [e])[..|rows|] == rows;
  }

  lemma {:induction false} AppendEvent(rows: seq<Event>, e: Event)
    ensures forall f :: CountEvents(rows + [e], f) == CountEvents(rows, f) + (if e == f then 1 else 0)
  {
    assert (rows + [e])[..|rows|] == rows;
  }

  lemma {:induction false} AppendOutcome(rows: seq<Execution>, e: Execution)
    ensures forall b :: CountOutcome(rows + [e], b) == CountOutcome(rows, b) + (if e.success == b then 1 else 0)
  {
    assert (rows + [e])[..|rows|] == rows;
  }

  /** Where the entry at index e of the table lands among the entries of its job. */
  function DlqRank(rows: seq<DlqEntry>, e: nat): nat
    requires e < |rows|
  {
    |DlqOf(rows[..e], rows[e].job)|
  }

  lemma {:induction false} DlqRankAt(rows: seq<DlqEntry>, e: nat)
    requires e < |rows|
    ensures DlqRank(rows, e) < |DlqOf(rows, rows[e].job)|
    ensures DlqOf(rows, rows[e].job)[DlqRank(rows, e)] == rows[e]
  {
    var n := |rows| - 1;
    if e < n {
      DlqRankAt(rows[..n], e);
      assert rows[..n][..e] == rows[..e];
    }
  }

  /** Updating one entry in place updates exactly its position among its job's entries. */
  lemma {:induction false} UpdateDlq(rows: seq<DlqEntry>, e: nat, x: DlqEntry)
    requires e < |rows| && x.job == rows[e].job
    ensures DlqRank(rows, e) < |DlqOf(rows, x.job)|
    ensures DlqOf(rows[e := x], x.job) == DlqOf(rows, x.job)[DlqRank(rows, e) := x]
    ensures forall j :: j != x.job ==> DlqOf(rows[e := x], j) == DlqOf(rows, j)
  {
    DlqRankAt(rows, e);
    var n := |rows| - 1;
    var new_ := rows[e := x];
    if e < n {
      UpdateDlq(rows[..n], e, x);
      assert new_[..n] == rows[..n][e := x];
      assert rows[..n][..e] == rows[..e];
      DlqRankAt(rows[..n], e);
    } else {
      assert new_[..n] == rows[..n];
    }
  }
}
