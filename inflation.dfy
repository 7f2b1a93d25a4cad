/**
 The inflation extractor: keep the CPI rows of the food division at the
 snapshot date, in source order, and project each to its normalised state
 and its parsed year-over-year inflation.
 */
module Inflation {
  import opened Values
  import opened StateNames

  /** Division 01 is Food & Non-Alcoholic Beverages. */
  const FOOD_DIVISION: string := "01"
  /** The latest month in the CPI data. */
  const SNAPSHOT_DATE: string := "2025-08-01"

  datatype InflationRecord = InflationRecord(state: string, yoyInflation: Number)

  /** The filter's test: both cells compared by exact string equality. */
  predicate IsFoodSnapshot(row: Row) {
    Field(row, "division") == FOOD_DIVISION && Field(row, "date") == SNAPSHOT_DATE
  }

  /** A row matches only when it has both columns with exactly those values. */
  lemma FoodSnapshotCells(row: Row)
    ensures IsFoodSnapshot(row) <==>
              "division" in row && row["division"] == FOOD_DIVISION && "date" in row && row["date"] == SNAPSHOT_DATE
  {
  }

  /** The projection applied to each kept row; `parse` is JavaScript's unary `+`. */
  function ToRecord(row: Row, parse: string -> Number): (record: InflationRecord)
    ensures Field(row, "state") in STATE_NORMALIZE ==> record.state in CANONICAL_NAMES
    ensures Field(row, "state") !in STATE_NORMALIZE ==> record.state == Field(row, "state")
  {
    InflationRecord(NormalizeState(Field(row, "state")), parse(Field(row, "inflation_yoy")))
  }

  /** `rows.filter(IsFoodSnapshot)`. */
  function FilterFoodSnapshot(rows: seq<Row>): (kept: seq<Row>)
    ensures |kept| <= |rows|
    ensures forall i :: 0 <= i < |kept| ==> IsFoodSnapshot(kept[i]) && kept[i] in rows
  {
    if rows == [] then []
    else (if IsFoodSnapshot(rows[0]) then [rows[0]] else []) + FilterFoodSnapshot(rows[1..])
  }

  /**
   `rows.filter(IsFoodSnapshot).map(ToRecord)`. The extractor emits one
   record per matching row, in source order: the i-th record is the
   projection of the i-th matching row. Rows that fail either test
   contribute nothing, and duplicates are kept.
   */
  function ExtractInflation(rows: seq<Row>, parse: string -> Number): (records: seq<InflationRecord>)
    ensures |records| == |KeptIndices(rows)|
    ensures forall i :: 0 <= i < |KeptIndices(rows)| ==> records[i] == ToRecord(rows[KeptIndices(rows)[i]], parse)
  {
    FilterByIndices(rows);
    Project(FilterFoodSnapshot(rows), parse)
  }

  /** `kept.map(ToRecord)`. */
  function Project(kept: seq<Row>, parse: string -> Number): seq<InflationRecord> {
    seq(|kept|, i requires 0 <= i < |kept| => ToRecord(kept[i], parse))
  }

  /**
   An independent description of what the filter keeps: the positions of the
   matching rows, in increasing order, and no other positions.
   */
  function KeptIndices(rows: seq<Row>): (idx: seq<nat>)
    ensures forall i :: 0 <= i < |idx| ==> idx[i] < |rows|
    ensures forall i, j :: 0 <= i < j < |idx| ==> idx[i] < idx[j]
    ensures forall j :: 0 <= j < |rows| ==> (IsFoodSnapshot(rows[j]) <==> j in idx)
  {
    if rows == [] then []
    else
      var rest := KeptIndices(rows[..|rows| - 1]);
      assert forall j :: 0 <= j < |rows| - 1 ==> rows[..|rows| - 1][j] == rows[j];
      if IsFoodSnapshot(rows[|rows| - 1]) then rest + [|rows| - 1] else rest
  }

  lemma {:induction false} FilterAppend(a: seq<Row>, b: seq<Row>)
    ensures FilterFoodSnapshot(a + b) == FilterFoodSnapshot(a) + FilterFoodSnapshot(b)
  {
    if a == [] {
      assert a + b == b;
    } else {
      assert (a + b)[1..] == a[1..] + b;
      FilterAppend(a[1..], b);
    }
  }

  /** Filtering one more row appends it exactly when it matches. */
  lemma FilterSnoc(p: seq<Row>, x: Row)
    ensures FilterFoodSnapshot(p + [x]) ==
              FilterFoodSnapshot(p) + (if IsFoodSnapshot(x) then [x] else [])
  {
    FilterAppend(p, [x]);
    assert [x][1..] == [];
  }

  /** The filter keeps exactly the rows at `KeptIndices`, in that order. */
  lemma {:induction false} FilterByIndices(rows: seq<Row>)
    ensures |FilterFoodSnapshot(rows)| == |KeptIndices(rows)|
    ensures forall i :: 0 <= i < |KeptIndices(rows)| ==>
              FilterFoodSnapshot(rows)[i] == rows[KeptIndices(rows)[i]]
  {
    if rows != [] {
      var p, x := rows[..|rows| - 1], rows[|rows| - 1];
      FilterByIndices(p);
      FilterSnoc(p, x);
      assert p + [x] == rows;
      var kept, pIdx, idx := FilterFoodSnapshot(p), KeptIndices(p), KeptIndices(rows);
      forall i | 0 <= i < |idx|
        ensures FilterFoodSnapshot(rows)[i] == rows[idx[i]]
      {
        if i < |pIdx| {
          assert FilterFoodSnapshot(rows)[i] == kept[i];
          assert rows[idx[i]] == p[pIdx[i]];
        }
      }
    }
  }

  /**
   A record's state is the normalised state of a matching row, and its
   inflation is the parse of that same row's `inflation_yoy`.
   */
  lemma ExtractedFromMatchingRow(rows: seq<Row>, parse: string -> Number, i: nat)
    requires i < |ExtractInflation(rows, parse)|
    ensures exists j :: 0 <= j < |rows| && IsFoodSnapshot(rows[j]) &&
              ExtractInflation(rows, parse)[i].state == NormalizeState(Field(rows[j], "state")) &&
              ExtractInflation(rows, parse)[i].yoyInflation == parse(Field(rows[j], "inflation_yoy"))
  {
    var j := KeptIndices(rows)[i];
    assert IsFoodSnapshot(rows[j]);
  }

  /** The extractor works row by row: it distributes over concatenation. */
  lemma ExtractAppend(a: seq<Row>, b: seq<Row>, parse: string -> Number)
    ensures ExtractInflation(a + b, parse) == ExtractInflation(a, parse) + ExtractInflation(b, parse)
  {
    FilterAppend(a, b);
    ProjectAppend(FilterFoodSnapshot(a), FilterFoodSnapshot(b), parse);
  }

  /** The projection works row by row. */
  lemma ProjectAppend(ka: seq<Row>, kb: seq<Row>, parse: string -> Number)
    ensures Project(ka + kb, parse) == Project(ka, parse) + Project(kb, parse)
  {
    var r, ra, rb := Project(ka + kb, parse), Project(ka, parse), Project(kb, parse);
    forall i | 0 <= i < |r|
      ensures r[i] == (ra + rb)[i]
    {
      if i >= |ka| {
        assert (ka + kb)[i] == kb[i - |ka|];
      }
    }
  }

  /** One row yields one record when it matches and none otherwise. */
  lemma ExtractSingle(row: Row, parse: string -> Number)
    ensures ExtractInflation([row], parse) ==
              if IsFoodSnapshot(row) then [ToRecord(row, parse)] else []
  {
    assert [row][1..] == [];
  }
}
