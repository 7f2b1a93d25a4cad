/**
 The income aggregator: one scan over the household-income rows that files
 the median income of every 2022 row with a non-empty income under its
 normalised state, a later row overwriting an earlier one.
 */
module Income {
  import opened Values
  import opened StateNames

  /** The income survey year the map shows. */
  const TARGET_YEAR: int := 2022

  /**
   The state a row is filed under: a canonical name when the row's state
   is in the table, the cell itself otherwise.
   */
  function StateOf(row: Row): (state: string)
    ensures Field(row, "state") in STATE_NORMALIZE ==> state in CANONICAL_NAMES
    ensures Field(row, "state") !in STATE_NORMALIZE ==> state == Field(row, "state")
  {
    NormalizeState(Field(row, "state"))
  }

  /** The income a row files: `+d.income_median`. */
  function IncomeOf(row: Row, parse: string -> Number): Number {
    parse(Field(row, "income_median"))
  }

  /**
   The test a row must pass to be filed: its date falls in the target year
   (`yearOf` stands for `new Date(date).getFullYear()`) and its income cell
   is truthy, that is, not empty. A row without an `income_median` column
   never counts.
   */
  predicate Counts(row: Row, yearOf: string -> int)
    ensures Counts(row, yearOf) ==> "income_median" in row && row["income_median"] != ""
  {
    yearOf(Field(row, "date")) == TARGET_YEAR && TruthyString(Field(row, "income_median"))
  }

  /** Row `row` is filed under `state`. */
  predicate FiledUnder(row: Row, yearOf: string -> int, state: string) {
    Counts(row, yearOf) && StateOf(row) == state
  }

  /** The position of the last row filed under `state`, if there is one. */
  function LastFiled(rows: seq<Row>, yearOf: string -> int, state: string): (r: Option<nat>)
    ensures r.Some? ==> r.value < |rows| && FiledUnder(rows[r.value], yearOf, state)
    ensures r.Some? ==> forall j :: r.value < j < |rows| ==> !FiledUnder(rows[j], yearOf, state)
    ensures r.None? ==> forall j :: 0 <= j < |rows| ==> !FiledUnder(rows[j], yearOf, state)
  {
    if rows == [] then None
    else if FiledUnder(rows[|rows| - 1], yearOf, state) then Some(|rows| - 1)
    else
      var r := LastFiled(rows[..|rows| - 1], yearOf, state);
      assert forall j :: 0 <= j < |rows| - 1 ==> rows[..|rows| - 1][j] == rows[j];
      r
  }

  /**
   The body of the `forEach` callback: when the row counts, its state's
   entry is set to its income; nothing else is touched.
   */
  function Store(latestIncome: map<string, Number>, row: Row, parse: string -> Number, yearOf: string -> int)
    : (updated: map<string, Number>)
    ensures !Counts(row, yearOf) ==> updated == latestIncome
    ensures Counts(row, yearOf) ==> updated.Keys == latestIncome.Keys + {StateOf(row)}
    ensures Counts(row, yearOf) ==> updated[StateOf(row)] == IncomeOf(row, parse)
    ensures forall s :: s in latestIncome && s != StateOf(row) ==> updated[s] == latestIncome[s]
  {
    if Counts(row, yearOf) then latestIncome[StateOf(row) := IncomeOf(row, parse)] else latestIncome
  }

  /** The dictionary after the callback has run on every row, in order. */
  function IncomeByState(rows: seq<Row>, parse: string -> Number, yearOf: string -> int): map<string, Number> {
    if rows == [] then map[]
    else Store(IncomeByState(rows[..|rows| - 1], parse, yearOf), rows[|rows| - 1], parse, yearOf)
  }

  /**
   `incomeData.forEach(...)`: the scan that fills `latestIncome`, one row
   at a time, starting from the empty dictionary.
   */
  method AggregateIncome(rows: seq<Row>, parse: string -> Number, yearOf: string -> int)
    returns (latestIncome: map<string, Number>)
    ensures latestIncome == IncomeByState(rows, parse, yearOf)
    ensures forall s :: s in latestIncome <==> LastFiled(rows, yearOf, s).Some?
    ensures forall s :: s in latestIncome ==> latestIncome[s] == IncomeOf(rows[LastFiled(rows, yearOf, s).value], parse)
  {
    latestIncome := map[];
    var i := 0;
    while i < |rows|
      invariant 0 <= i <= |rows|
      invariant latestIncome == IncomeByState(rows[..i], parse, yearOf)
    {
      var row := rows[i];
      var year := yearOf(Field(row, "date"));
      var state := NormalizeState(Field(row, "state"));
      if year == TARGET_YEAR && TruthyString(Field(row, "income_median")) {
        latestIncome := latestIncome[state := parse(Field(row, "income_median"))];
      }
      assert rows[..i + 1][..i] == rows[..i];
      i := i + 1;
    }
    assert rows[..i] == rows;
    forall s | true
      ensures s in latestIncome <==> LastFiled(rows, yearOf, s).Some?
      ensures s in latestIncome ==> latestIncome[s] == IncomeOf(rows[LastFiled(rows, yearOf, s).value], parse)
    {
      LastWriteWins(rows, parse, yearOf, s);
    }
  }

  /**
   Last write wins: a state is a key exactly when some row is filed under
   it, and its entry is the income of the last such row in source order.
   */
  lemma {:induction false} LastWriteWins(rows: seq<Row>, parse: string -> Number, yearOf: string -> int, state: string)
    ensures state in IncomeByState(rows, parse, yearOf) <==> LastFiled(rows, yearOf, state).Some?
    ensures state in IncomeByState(rows, parse, yearOf) ==>
              IncomeByState(rows, parse, yearOf)[state] == IncomeOf(rows[LastFiled(rows, yearOf, state).value], parse)
  {
    if rows != [] {
      var p, x := rows[..|rows| - 1], rows[|rows| - 1];
      LastWriteWins(p, parse, yearOf, state);
      var last := LastFiled(p, yearOf, state);
      if last.Some? {
        assert rows[last.value] == p[last.value];
      }
    }
  }

  /** A state is a key exactly when some row is filed under it. */
  lemma IncomeKeys(rows: seq<Row>, parse: string -> Number, yearOf: string -> int, state: string)
    ensures state in IncomeByState(rows, parse, yearOf) <==>
              exists j :: 0 <= j < |rows| && FiledUnder(rows[j], yearOf, state)
  {
    LastWriteWins(rows, parse, yearOf, state);
    var last := LastFiled(rows, yearOf, state);
    if last.Some? {
      assert FiledUnder(rows[last.value], yearOf, state);
    }
  }

  /**
   The entry of the state row `j` is filed under holds row `j`'s income
   when no later row is filed under that state.
   */
  lemma LastRowWins(rows: seq<Row>, parse: string -> Number, yearOf: string -> int, j: nat)
    requires j < |rows| && Counts(rows[j], yearOf)
    requires forall k :: j < k < |rows| ==> !FiledUnder(rows[k], yearOf, StateOf(rows[j]))
    ensures StateOf(rows[j]) in IncomeByState(rows, parse, yearOf)
    ensures IncomeByState(rows, parse, yearOf)[StateOf(rows[j])] == IncomeOf(rows[j], parse)
  {
    var s := StateOf(rows[j]);
    LastWriteWins(rows, parse, yearOf, s);
    var last := LastFiled(rows, yearOf, s);
    assert FiledUnder(rows[j], yearOf, s);
    assert last.value == j;
  }

  /**
   Two rows filed under the same state: the dictionary holds the later
   row's income, whatever the earlier one said.
   */
  lemma LaterRowOverwrites(first: Row, second: Row, parse: string -> Number, yearOf: string -> int)
    requires Counts(first, yearOf) && Counts(second, yearOf) && StateOf(first) == StateOf(second)
    ensures IncomeByState([first, second], parse, yearOf).Keys == {StateOf(second)}
    ensures IncomeByState([first, second], parse, yearOf)[StateOf(second)] == IncomeOf(second, parse)
  {
    var rows := [first, second];
    LastRowWins(rows, parse, yearOf, 1);
    forall s | s in IncomeByState(rows, parse, yearOf)
      ensures s == StateOf(second)
    {
      IncomeKeys(rows, parse, yearOf, s);
    }
  }

  /** Scanning one more row applies the callback once more. */
  lemma IncomeSnoc(rows: seq<Row>, row: Row, parse: string -> Number, yearOf: string -> int)
    ensures IncomeByState(rows + [row], parse, yearOf) == Store(IncomeByState(rows, parse, yearOf), row, parse, yearOf)
  {
    assert (rows + [row])[..|rows|] == rows;
  }

  /**
   A row that does not count can be removed from anywhere in the input
   without changing the dictionary.
   */
  lemma {:induction false} SkippedRowIrrelevant(pre: seq<Row>, row: Row, post: seq<Row>,
                                                 parse: string -> Number, yearOf: string -> int)
    requires !Counts(row, yearOf)
    ensures IncomeByState(pre + [row] + post, parse, yearOf) == IncomeByState(pre + post, parse, yearOf)
  {
    if post == [] {
      IncomeSnoc(pre, row, parse, yearOf);
      assert pre + [row] + post == pre + [row];
      assert pre + post == pre;
    } else {
      var q, y := post[..|post| - 1], post[|post| - 1];
      SkippedRowIrrelevant(pre, row, q, parse, yearOf);
      IncomeSnoc(pre + [row] + q, y, parse, yearOf);
      IncomeSnoc(pre + q, y, parse, yearOf);
      assert post == q + [y];
      assert pre + [row] + post == (pre + [row] + q) + [y];
      assert pre + post == (pre + q) + [y];
    }
  }
}
