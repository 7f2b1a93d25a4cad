/**
 The whole data preparation of `loadData`, from the two parsed CSV files to
 the joined table handed to the chart: extract the food inflation, scan
 the incomes, join.
 */
module Pipeline {
  import opened Values
  import opened StateNames
  import opened Inflation
  import opened Income
  import opened Join

  /**
   The joined table as a function of the two inputs: one record per CPI row
   of the food division at the snapshot date, in source order, carrying
   that row's normalised state and parsed inflation, and the income looked
   up for that state in the last-write-wins dictionary.
   */
  function ProcessData(cpiData: seq<Row>, incomeData: seq<Row>, parse: string -> Number, yearOf: string -> int)
    : (joined: seq<JoinedRecord>)
    ensures |joined| == |KeptIndices(cpiData)|
    ensures forall i :: 0 <= i < |joined| ==>
              && joined[i].state == NormalizeState(Field(cpiData[KeptIndices(cpiData)[i]], "state"))
              && joined[i].yoyInflation == parse(Field(cpiData[KeptIndices(cpiData)[i]], "inflation_yoy"))
              && joined[i].medianIncome == LookupIncome(IncomeByState(incomeData, parse, yearOf), joined[i].state)
  {
    JoinIncome(ExtractInflation(cpiData, parse), IncomeByState(incomeData, parse, yearOf))
  }

  /**
   The body of `loadData` between loading and logging, with the two loaded
   row sequences as inputs: the same steps as `ProcessData`, with the
   income scan done by the loop of `AggregateIncome`.
   */
  method LoadData(cpiData: seq<Row>, incomeData: seq<Row>, parse: string -> Number, yearOf: string -> int)
    returns (joinedData: seq<JoinedRecord>)
    ensures joinedData == ProcessData(cpiData, incomeData, parse, yearOf)
  {
    var foodInflation := ExtractInflation(cpiData, parse);
    var latestIncome := AggregateIncome(incomeData, parse, yearOf);
    joinedData := JoinIncome(foodInflation, latestIncome);
  }

  /** A record whose state no 2022 income row is filed under gets `null`. */
  lemma UnmatchedStateGetsNull(cpiData: seq<Row>, incomeData: seq<Row>, parse: string -> Number,
                               yearOf: string -> int, i: nat)
    requires i < |KeptIndices(cpiData)|
    requires forall j :: 0 <= j < |incomeData| ==> !FiledUnder(incomeData[j], yearOf, StateOf(cpiData[KeptIndices(cpiData)[i]]))
    ensures i < |ProcessData(cpiData, incomeData, parse, yearOf)|
    ensures ProcessData(cpiData, incomeData, parse, yearOf)[i].medianIncome == None
  {
    IncomeKeys(incomeData, parse, yearOf, StateOf(cpiData[KeptIndices(cpiData)[i]]));
  }

  /**
   A record whose state has a last filed income row gets that row's income,
   unless the parsed income is zero or NaN.
   */
  lemma MatchedStateGetsLastIncome(cpiData: seq<Row>, incomeData: seq<Row>, parse: string -> Number,
                                   yearOf: string -> int, i: nat, j: nat)
    requires i < |KeptIndices(cpiData)| && j < |incomeData|
    requires FiledUnder(incomeData[j], yearOf, StateOf(cpiData[KeptIndices(cpiData)[i]]))
    requires forall k :: j < k < |incomeData| ==> !FiledUnder(incomeData[k], yearOf, StateOf(cpiData[KeptIndices(cpiData)[i]]))
    ensures i < |ProcessData(cpiData, incomeData, parse, yearOf)|
    ensures ProcessData(cpiData, incomeData, parse, yearOf)[i].medianIncome ==
              if TruthyNumber(IncomeOf(incomeData[j], parse)) then Some(IncomeOf(incomeData[j], parse)) else None
  {
    LastRowWins(incomeData, parse, yearOf, j);
  }

  /** The rows of the worked example. */
  const KL_CPI_ROW: Row := map["division" := "01", "date" := "2025-08-01", "state" := "WP Kuala Lumpur", "inflation_yoy" := "2.5"]
  const JOHOR_CPI_ROW: Row := map["division" := "02", "date" := "2025-08-01", "state" := "Johor", "inflation_yoy" := "9.9"]
  const SABAH_CPI_ROW: Row := map["division" := "01", "date" := "2025-08-01", "state" := "Sabah", "inflation_yoy" := "1.2"]
  const KL_INCOME_ROW: Row := map["date" := "2022-06-01", "state" := "Kuala Lumpur", "income_median" := "6000"]

  lemma KualaLumpurRowKept(parse: string -> Number)
    requires parse("2.5") == Finite(2.5)
    ensures ExtractInflation([KL_CPI_ROW], parse) == [InflationRecord("Kuala Lumpur", Finite(2.5))]
  {
    assert IsFoodSnapshot(KL_CPI_ROW) by {
      assert Field(KL_CPI_ROW, "division") == "01" && Field(KL_CPI_ROW, "date") == "2025-08-01";
    }
    assert ToRecord(KL_CPI_ROW, parse) == InflationRecord("Kuala Lumpur", Finite(2.5)) by {
      assert Field(KL_CPI_ROW, "state") == "WP Kuala Lumpur";
      assert Field(KL_CPI_ROW, "inflation_yoy") == "2.5";
      VariantSpellings();
    }
    ExtractSingle(KL_CPI_ROW, parse);
  }

  lemma JohorRowDropped(parse: string -> Number)
    ensures ExtractInflation([JOHOR_CPI_ROW], parse) == []
  {
    assert !IsFoodSnapshot(JOHOR_CPI_ROW) by {
      assert Field(JOHOR_CPI_ROW, "division") == "02";
    }
    ExtractSingle(JOHOR_CPI_ROW, parse);
  }

  lemma KualaLumpurInflation(parse: string -> Number)
    requires parse("2.5") == Finite(2.5)
    ensures ExtractInflation([KL_CPI_ROW, JOHOR_CPI_ROW], parse) == [InflationRecord("Kuala Lumpur", Finite(2.5))]
  {
    KualaLumpurRowKept(parse);
    JohorRowDropped(parse);
    ExtractAppend([KL_CPI_ROW], [JOHOR_CPI_ROW], parse);
    assert [KL_CPI_ROW] + [JOHOR_CPI_ROW] == [KL_CPI_ROW, JOHOR_CPI_ROW];
  }

  lemma KualaLumpurIncome(parse: string -> Number, yearOf: string -> int)
    requires parse("6000") == Finite(6000.0)
    requires yearOf("2022-06-01") == 2022
    ensures IncomeByState([KL_INCOME_ROW], parse, yearOf) == map["Kuala Lumpur" := Finite(6000.0)]
  {
    assert [KL_INCOME_ROW][..0] == [];
    assert Field(KL_INCOME_ROW, "state") == "Kuala Lumpur";
    assert Field(KL_INCOME_ROW, "date") == "2022-06-01";
    assert Field(KL_INCOME_ROW, "income_median") == "6000";
  }

  /**
   The worked example: of two CPI rows only the division "01" one is kept,
   "WP Kuala Lumpur" is normalised to "Kuala Lumpur", and the 2022 income
   row for "Kuala Lumpur" is attached to it.
   */
  lemma KualaLumpurExample(parse: string -> Number, yearOf: string -> int)
    requires parse("2.5") == Finite(2.5) && parse("6000") == Finite(6000.0)
    requires yearOf("2022-06-01") == 2022
    ensures ProcessData([KL_CPI_ROW, JOHOR_CPI_ROW], [KL_INCOME_ROW], parse, yearOf)
            == [JoinedRecord("Kuala Lumpur", Finite(2.5), Some(Finite(6000.0)))]
  {
    KualaLumpurInflation(parse);
    KualaLumpurIncome(parse, yearOf);
  }

  /** The missing-income example: a state without a 2022 income row keeps its inflation and gets `null`. */
  lemma SabahWithoutIncomeExample(parse: string -> Number, yearOf: string -> int, incomeData: seq<Row>)
    requires forall j :: 0 <= j < |incomeData| ==> !FiledUnder(incomeData[j], yearOf, "Sabah")
    ensures ProcessData([SABAH_CPI_ROW], incomeData, parse, yearOf) == [JoinedRecord("Sabah", parse("1.2"), None)]
  {
    SabahRowKept(parse);
    IncomeKeys(incomeData, parse, yearOf, "Sabah");
  }

  lemma SabahRowKept(parse: string -> Number)
    ensures ExtractInflation([SABAH_CPI_ROW], parse) == [InflationRecord("Sabah", parse("1.2"))]
  {
    assert IsFoodSnapshot(SABAH_CPI_ROW) by {
      assert Field(SABAH_CPI_ROW, "division") == "01" && Field(SABAH_CPI_ROW, "date") == "2025-08-01";
    }
    assert ToRecord(SABAH_CPI_ROW, parse) == InflationRecord("Sabah", parse("1.2")) by {
      assert Field(SABAH_CPI_ROW, "state") == "Sabah";
      assert Field(SABAH_CPI_ROW, "inflation_yoy") == "1.2";
      IdentityEntries("Sabah");
    }
    ExtractSingle(SABAH_CPI_ROW, parse);
  }
}
