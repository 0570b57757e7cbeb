/**
 * The Eloquent query builder over `api_logs` as the summary services use it. A builder is
 * an object: `where` and `distinct` change it in place and return it, `clone` copies it,
 * and `count` / `pluck` read the rows that satisfy every clause added so far. Because the
 * same object keeps its clauses, a helper that clones once and then calls `where` several
 * times counts each time under all the clauses added before.
 */
module Query {
  import opened Wrappers
  import opened ApiLog
  import opened Grouping

  /** The columns the services call `distinct` on. */
  datatype Column = IpAddressColumn | UserIdColumn

  /** Every clause holds of `row`. */
  predicate AllHold(fs: seq<Filter>, row: ApiLogRecord)
  {
    forall i :: 0 <= i < |fs| ==> Holds(fs[i], row)
  }

  /** The rows, in table order, that satisfy every clause. */
  function Selected(rows: seq<ApiLogRecord>, fs: seq<Filter>): (r: seq<ApiLogRecord>)
    ensures |r| <= |rows|
    ensures forall row :: row in r <==> row in rows && AllHold(fs, row)
  {
    if rows == [] then []
    else
      var last := rows[|rows| - 1];
      Selected(rows[..|rows| - 1], fs) + (if AllHold(fs, last) then [last] else [])
  }

  /** The value of `column` in `row`; SQL's `count(distinct …)` ignores NULLs. */
  function ValueOf(row: ApiLogRecord, column: Column): Option<string>
  {
    match column
    case IpAddressColumn => Some(row.ipAddress)
    case UserIdColumn => row.userId
  }

  /** The non-null values `column` takes on `rows`. */
  function ValuesIn(rows: seq<ApiLogRecord>, column: Column): set<string>
  {
    set row | row in rows && ValueOf(row, column).Some? :: ValueOf(row, column).value
  }

  lemma SelectedStep(rows: seq<ApiLogRecord>, fs: seq<Filter>, i: nat)
    requires i < |rows|
    ensures Selected(rows[..i + 1], fs) == Selected(rows[..i], fs) + (if AllHold(fs, rows[i]) then [rows[i]] else [])
  {
    assert rows[..i + 1][..i] == rows[..i];
  }

  lemma ValuesInStep(rows: seq<ApiLogRecord>, row: ApiLogRecord, column: Column)
    ensures ValuesIn(rows + [row], column)
            == ValuesIn(rows, column) + (if ValueOf(row, column).Some? then {ValueOf(row, column).value} else {})
  {
    var all := rows + [row];
    forall v | v in ValuesIn(all, column)
      ensures v in ValuesIn(rows, column) || (ValueOf(row, column).Some? && v == ValueOf(row, column).value)
    {
      var r :| r in all && ValueOf(r, column).Some? && ValueOf(r, column).value == v;
      if r != row {
        assert r in rows;
      }
    }
    forall v | v in ValuesIn(rows, column) ensures v in ValuesIn(all, column) {
      var r :| r in rows && ValueOf(r, column).Some? && ValueOf(r, column).value == v;
      assert r in all;
    }
    if ValueOf(row, column).Some? {
      assert row in all;
    }
  }

  /**
   * `count()`: `count(*)` over the selected rows, or, once `distinct(column)` was called,
   * `count(distinct column)`.
   */
  function CountOf(rows: seq<ApiLogRecord>, fs: seq<Filter>, distinctOn: Option<Column>): nat
  {
    match distinctOn
    case None => |Selected(rows, fs)|
    case Some(column) => |ValuesIn(Selected(rows, fs), column)|
  }

  function IpsOf(rows: seq<ApiLogRecord>): (ips: seq<string>)
    ensures |ips| == |rows|
    ensures forall i :: 0 <= i < |rows| ==> ips[i] == rows[i].ipAddress
  {
    seq(|rows|, i requires 0 <= i < |rows| => rows[i].ipAddress)
  }

  function ResponseTimesOf(rows: seq<ApiLogRecord>): (ts: seq<nat>)
    ensures |ts| == |rows|
    ensures forall i :: 0 <= i < |rows| ==> ts[i] == rows[i].responseTime
  {
    seq(|rows|, i requires 0 <= i < |rows| => rows[i].responseTime)
  }

  class Builder {
    /** The table the query reads; no operation of the model writes it. */
    const rows: seq<ApiLogRecord>
    var filters: seq<Filter>
    var distinctOn: Option<Column>

    /** `ApiLog::where(...)`, or `ApiLog::query()` when `filters` is empty. */
    constructor(rows: seq<ApiLogRecord>, filters: seq<Filter>)
      ensures this.rows == rows && this.filters == filters && distinctOn == None
    {
      this.rows := rows;
      this.filters := filters;
      distinctOn := None;
    }

    /** `clone $query`: a new builder with the same clauses. */
    method Clone() returns (b: Builder)
      ensures fresh(b)
      ensures b.rows == rows && b.filters == filters && b.distinctOn == distinctOn
    {
      b := new Builder(rows, filters);
      b.distinctOn := distinctOn;
    }

    /** `$query->where(...)`: the clause is added to this very builder. */
    method Where(f: Filter)
      modifies this
      ensures filters == old(filters) + [f]
      ensures distinctOn == old(distinctOn)
    {
      filters := filters + [f];
    }

    /** `$query->distinct($column)`, which replaces any earlier distinct column. */
    method Distinct(column: Column)
      modifies this
      ensures distinctOn == Some(column)
      ensures filters == old(filters)
    {
      distinctOn := Some(column);
    }

    /** `$query->count()`, one row at a time. */
    method Count() returns (n: nat)
      ensures n == CountOf(rows, filters, distinctOn)
    {
      var rs, fs, column := rows, filters, distinctOn;
      var seen: set<string> := {};
      var plain := 0;
      ghost var selected: seq<ApiLogRecord> := [];
      var i := 0;
      while i < |rs|
        invariant 0 <= i <= |rs|
        invariant selected == Selected(rs[..i], fs)
        invariant plain == |selected|
        invariant column.Some? ==> seen == ValuesIn(selected, column.value)
      {
        SelectedStep(rs, fs, i);
        var row := rs[i];
        if AllHold(fs, row) {
          if column.Some? {
            ValuesInStep(selected, row, column.value);
            var v := ValueOf(row, column.value);
            if v.Some? {
              seen := seen + {v.value};
            }
          }
          selected := selected + [row];
          plain := plain + 1;
        }
        i := i + 1;
      }
      assert rs[..|rs|] == rs;
      n := if column.Some? then |seen| else plain;
    }

    /** The rows `get()` / `pluck()` read. */
    function Selection(): (r: seq<ApiLogRecord>)
      reads this
      ensures forall row :: row in r <==> row in rows && AllHold(filters, row)
    {
      Selected(rows, filters)
    }

    /** `->distinct('ip_address')->pluck('ip_address')`: `select distinct ip_address`. */
    function DistinctIps(): (ips: seq<string>)
      reads this
      ensures forall ip :: ip in ips <==> exists row :: row in Selection() && row.ipAddress == ip
      ensures forall i, j :: 0 <= i < j < |ips| ==> ips[i] != ips[j]
    {
      var all := IpsOf(Selection());
      assert forall ip :: ip in all <==> exists row :: row in Selection() && row.ipAddress == ip by {
        forall ip | ip in all ensures exists row :: row in Selection() && row.ipAddress == ip {
          var k :| 0 <= k < |all| && all[k] == ip;
          assert Selection()[k] in Selection();
        }
      }
      Deduplicated(all)
    }
  }

  // ---------------------------------------------------------------------------
  // Narrowing

  lemma AllHoldPrefix(fs: seq<Filter>, more: seq<Filter>, row: ApiLogRecord)
    requires AllHold(fs + more, row)
    ensures AllHold(fs, row)
  {
    forall i | 0 <= i < |fs| ensures Holds(fs[i], row) {
      assert (fs + more)[i] == fs[i];
    }
  }

  lemma AllHoldSnoc(fs: seq<Filter>, f: Filter, row: ApiLogRecord)
    requires AllHold(fs, row) && Holds(f, row)
    ensures AllHold(fs + [f], row)
  {
    forall i | 0 <= i < |fs| + 1 ensures Holds((fs + [f])[i], row) {
      if i < |fs| {
        assert (fs + [f])[i] == fs[i];
      }
    }
  }

  lemma {:induction false} SelectedShrinks(rows: seq<ApiLogRecord>, fs: seq<Filter>, more: seq<Filter>)
    ensures |Selected(rows, fs + more)| <= |Selected(rows, fs)|
  {
    if rows != [] {
      var last := rows[|rows| - 1];
      SelectedShrinks(rows[..|rows| - 1], fs, more);
      if AllHold(fs + more, last) {
        AllHoldPrefix(fs, more, last);
      }
    }
  }

  lemma SubsetCardinality(a: set<string>, b: set<string>)
    requires a <= b
    ensures |a| <= |b|
  {
    assert b == a + (b - a);
  }

  /**
   * Adding clauses to a builder never raises what it counts, with or without `distinct`:
   * every later count in a helper that keeps narrowing one clone is at most every earlier one.
   */
  lemma Narrowing(rows: seq<ApiLogRecord>, fs: seq<Filter>, more: seq<Filter>, distinctOn: Option<Column>)
    ensures CountOf(rows, fs + more, distinctOn) <= CountOf(rows, fs, distinctOn)
  {
    match distinctOn
    case None =>
      SelectedShrinks(rows, fs, more);
    case Some(column) =>
      var narrow := Selected(rows, fs + more);
      var wide := Selected(rows, fs);
      forall row | row in narrow ensures row in wide {
        AllHoldPrefix(fs, more, row);
      }
      SubsetCardinality(ValuesIn(narrow, column), ValuesIn(wide, column));
  }

  lemma {:induction false} NothingSelected(rows: seq<ApiLogRecord>, fs: seq<Filter>)
    requires forall row :: !AllHold(fs, row)
    ensures Selected(rows, fs) == []
  {
    if rows != [] {
      NothingSelected(rows[..|rows| - 1], fs);
    }
  }

  /** Two equality clauses on different IPs leave no row at all. */
  lemma ConflictingIps(rows: seq<ApiLogRecord>, fs: seq<Filter>, a: string, b: string, distinctOn: Option<Column>)
    requires a != b && IpIs(a) in fs && IpIs(b) in fs
    ensures Selected(rows, fs) == []
    ensures CountOf(rows, fs, distinctOn) == 0
  {
    var i :| 0 <= i < |fs| && fs[i] == IpIs(a);
    var j :| 0 <= j < |fs| && fs[j] == IpIs(b);
    forall row ensures !AllHold(fs, row) {
      assert !Holds(fs[i], row) || !Holds(fs[j], row);
    }
    NothingSelected(rows, fs);
    assert ValuesIn([], IpAddressColumn) == {} && ValuesIn([], UserIdColumn) == {};
  }

  /** Two different status equalities leave no row at all. */
  lemma ConflictingStatuses(rows: seq<ApiLogRecord>, fs: seq<Filter>, a: int, b: int, distinctOn: Option<Column>)
    requires a != b && StatusIs(a) in fs && StatusIs(b) in fs
    ensures Selected(rows, fs) == []
    ensures CountOf(rows, fs, distinctOn) == 0
  {
    var i :| 0 <= i < |fs| && fs[i] == StatusIs(a);
    var j :| 0 <= j < |fs| && fs[j] == StatusIs(b);
    forall row ensures !AllHold(fs, row) {
      assert !Holds(fs[i], row) || !Holds(fs[j], row);
    }
    NothingSelected(rows, fs);
    assert ValuesIn([], IpAddressColumn) == {} && ValuesIn([], UserIdColumn) == {};
  }
}
