/** Delegation tracking in one pass over names in canonical order.

    Two scans keep a single variable with the delegation point they are
    currently below.  The lemmas here show that this is exact: because
    subtrees are contiguous, the variable answers whether a name lies
    below any delegation point of the whole zone.
  */
module ZoneCuts {
  import opened Names
  import opened Wrappers

  /** What a scan looks at: a name, and whether a delegation is seen there. */
  datatype Row = Row(name: Name, cut: bool)

  ghost predicate Sorted(rows: seq<Row>) {
    forall i, j :: 0 <= i < j < |rows| ==> rows[i].name == rows[j].name || NameLess(rows[i].name, rows[j].name)
  }

  /** Some delegation point lies strictly above `n`. */
  ghost predicate BelowCut(rows: seq<Row>, n: Name) {
    exists j :: 0 <= j < |rows| && rows[j].cut && rows[j].name != n && EndsWith(n, rows[j].name)
  }

  /** Row `j` is a delegation point that is not itself below one, and every
      row after it and before row `i` is at or below it. */
  ghost predicate OpenCut(rows: seq<Row>, j: nat, i: nat)
    requires j < i <= |rows|
  {
    && rows[j].cut
    && !BelowCut(rows, rows[j].name)
    && forall k :: j < k < i ==> EndsWith(rows[k].name, rows[j].name)
  }

  /** `delegation` is what a scan must hold before row `i`. */
  ghost predicate Tracks(rows: seq<Row>, delegation: Option<Name>, i: nat)
    requires i <= |rows|
  {
    && (delegation.Some? ==> exists j :: 0 <= j < i && OpenCut(rows, j, i) && rows[j].name == delegation.value)
    && (forall j :: 0 <= j < i && OpenCut(rows, j, i) ==> delegation == Some(rows[j].name))
  }

  /** A name strictly above that of row `i` comes before it. */
  lemma {:induction false} AboveIsBefore(rows: seq<Row>, j: nat, i: nat)
    requires Sorted(rows) && i < |rows| && j < |rows|
    requires rows[j].name != rows[i].name && EndsWith(rows[i].name, rows[j].name)
    ensures j < i
  {
    AncestorFirst(rows[j].name, rows[i].name);
    NameOrder();
  }

  /** A name below a delegation point is below a topmost one, which is still open. */
  lemma {:induction false} TopmostCut(rows: seq<Row>, j: nat, i: nat) returns (top: nat)
    requires Sorted(rows) && i < |rows| && j < i
    requires rows[j].cut && rows[j].name != rows[i].name && EndsWith(rows[i].name, rows[j].name)
    ensures top < i && OpenCut(rows, top, i)
    ensures EndsWith(rows[i].name, rows[top].name) && rows[top].name != rows[i].name
    decreases j
  {
    if BelowCut(rows, rows[j].name) {
      var k: nat :| k < |rows| && rows[k].cut && rows[k].name != rows[j].name && EndsWith(rows[j].name, rows[k].name);
      AboveIsBefore(rows, k, j);
      top := TopmostCut(rows, k, i);
    } else {
      top := j;
      forall k | j < k < i ensures EndsWith(rows[k].name, rows[j].name) {
        SubtreeContiguous(rows[j].name, rows[j].name, rows[k].name, rows[i].name);
      }
    }
  }

  /** The test a scan makes answers exactly whether the name is below a delegation point. */
  lemma {:induction false} TrackedTest(rows: seq<Row>, delegation: Option<Name>, i: nat)
    requires Sorted(rows) && i < |rows| && Tracks(rows, delegation, i)
    ensures delegation.Some? && EndsWith(rows[i].name, delegation.value) && rows[i].name != delegation.value
            <==> BelowCut(rows, rows[i].name)
  {
    var n := rows[i].name;
    if BelowCut(rows, n) {
      var j: nat :| j < |rows| && rows[j].cut && rows[j].name != n && EndsWith(n, rows[j].name);
      AboveIsBefore(rows, j, i);
      var top := TopmostCut(rows, j, i);
    }
  }

  lemma OpenCutNext(rows: seq<Row>, j: nat, i: nat)
    requires j < i < |rows|
    ensures OpenCut(rows, j, i + 1) <==> OpenCut(rows, j, i) && EndsWith(rows[i].name, rows[j].name)
  {
  }

  /** Tracking survives a row: kept at or below the cut, otherwise restarted. */
  lemma {:induction false} TrackNext(rows: seq<Row>, delegation: Option<Name>, i: nat)
    requires Sorted(rows) && i < |rows| && Tracks(rows, delegation, i)
    ensures if delegation.Some? && EndsWith(rows[i].name, delegation.value)
            then Tracks(rows, delegation, i + 1)
            else Tracks(rows, if rows[i].cut then Some(rows[i].name) else None, i + 1)
  {
    var next, n := i + 1, rows[i].name;
    TrackedTest(rows, delegation, i);
    if delegation.Some? && EndsWith(n, delegation.value) {
      var j: nat :| j < i && OpenCut(rows, j, i) && rows[j].name == delegation.value;
      OpenCutNext(rows, j, i);
      forall k: nat | k < i && OpenCut(rows, k, next) ensures delegation == Some(rows[k].name) {
        OpenCutNext(rows, k, i);
      }
    } else {
      forall k: nat | k < i ensures !OpenCut(rows, k, next) {
        OpenCutNext(rows, k, i);
      }
      if rows[i].cut {
        assert OpenCut(rows, i, next);
      }
    }
  }

  /** The variable a scan carries: the delegation point seen last, until a
      name is not at or below it. */
  function DelegationBefore(rows: seq<Row>, i: nat): Option<Name>
    requires i <= |rows|
  {
    if i == 0 then None
    else
      var d := DelegationBefore(rows, i - 1);
      if d.Some? && EndsWith(rows[i - 1].name, d.value) then d
      else if rows[i - 1].cut then Some(rows[i - 1].name)
      else None
  }

  lemma {:induction false} DelegationTracks(rows: seq<Row>, i: nat)
    requires Sorted(rows) && i <= |rows|
    ensures Tracks(rows, DelegationBefore(rows, i), i)
  {
    if i > 0 {
      DelegationTracks(rows, i - 1);
      TrackNext(rows, DelegationBefore(rows, i - 1), i - 1);
    }
  }

  /** The one variable suffices: row `i` is strictly below it exactly if it is
      strictly below any delegation point of the zone. */
  lemma {:induction false} DelegationExact(rows: seq<Row>, i: nat)
    requires Sorted(rows) && i < |rows|
    ensures var d := DelegationBefore(rows, i);
            d.Some? && EndsWith(rows[i].name, d.value) && rows[i].name != d.value <==> BelowCut(rows, rows[i].name)
  {
    DelegationTracks(rows, i);
    TrackedTest(rows, DelegationBefore(rows, i), i);
  }

  /** The variable names an earlier row. */
  lemma {:induction false} DelegationSeen(rows: seq<Row>, i: nat)
    requires i <= |rows|
    ensures var d := DelegationBefore(rows, i);
            d.Some? ==> exists j :: 0 <= j < i && rows[j].name == d.value
  {
    if i > 0 {
      DelegationSeen(rows, i - 1);
    }
  }
}
