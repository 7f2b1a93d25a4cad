/**
 The left join: every inflation record, in order, with the median income
 of its state attached, or `null` when the dictionary has no truthy value
 for that state.
 */
module Join {
  import opened Values
  import opened Inflation

  /** `medianIncome == None` stands for JavaScript's `null`. */
  datatype JoinedRecord = JoinedRecord(state: string, yoyInflation: Number, medianIncome: Option<Number>)

  /**
   `latestIncome[state] || null`: a missing key and a falsy value (zero or
   NaN) both give `null`; any other value is attached as it is.
   */
  function LookupIncome(latestIncome: map<string, Number>, state: string): (income: Option<Number>)
    ensures income.None? <==> state !in latestIncome || latestIncome[state] == Finite(0.0) || latestIncome[state] == NaN
    ensures income.Some? ==> state in latestIncome && income.value == latestIncome[state]
  {
    if state in latestIncome && TruthyNumber(latestIncome[state]) then Some(latestIncome[state]) else None
  }

  /**
   The record built for one inflation record: its state and inflation are
   copied, and only the income comes from the dictionary.
   */
  function JoinOne(record: InflationRecord, latestIncome: map<string, Number>): (joined: JoinedRecord)
    ensures Strip(joined) == record
    ensures joined.medianIncome.Some? ==> record.state in latestIncome && joined.medianIncome.value == latestIncome[record.state]
  {
    JoinedRecord(record.state, record.yoyInflation, LookupIncome(latestIncome, record.state))
  }

  /** `foodInflation.map(d => ({...}))`. */
  function JoinIncome(records: seq<InflationRecord>, latestIncome: map<string, Number>): (joined: seq<JoinedRecord>)
    ensures |joined| == |records|
    ensures forall i :: 0 <= i < |records| ==>
              joined[i].state == records[i].state && joined[i].yoyInflation == records[i].yoyInflation
  {
    seq(|records|, i requires 0 <= i < |records| => JoinOne(records[i], latestIncome))
  }

  /** Dropping the attached income gives back the inflation record. */
  function Strip(record: JoinedRecord): InflationRecord {
    InflationRecord(record.state, record.yoyInflation)
  }

  /**
   The join keeps the left side: whatever the dictionary holds, stripping
   the incomes off the output gives back the input, record for record.
   */
  lemma JoinKeepsLeftSide(records: seq<InflationRecord>, latestIncome: map<string, Number>)
    ensures var joined := JoinIncome(records, latestIncome);
            |joined| == |records| && forall i :: 0 <= i < |joined| ==> Strip(joined[i]) == records[i]
  {
  }

  /**
   A record gets an income exactly when its state is a key whose value is
   truthy, and then it gets that value.
   */
  lemma JoinedIncome(records: seq<InflationRecord>, latestIncome: map<string, Number>, i: nat)
    requires i < |records|
    ensures var r := JoinIncome(records, latestIncome)[i];
            && (r.medianIncome.Some? <==> records[i].state in latestIncome && TruthyNumber(latestIncome[records[i].state]))
            && (r.medianIncome.Some? ==> r.medianIncome.value == latestIncome[records[i].state])
  {
  }

  /** An empty dictionary gives every record a `null` income. */
  lemma JoinEmptyIncome(records: seq<InflationRecord>)
    ensures forall i :: 0 <= i < |records| ==> JoinIncome(records, map[])[i].medianIncome == None
  {
  }

  /** A stored zero or NaN is not attached: the record gets `null`. */
  lemma JoinFalsyIncome(records: seq<InflationRecord>, latestIncome: map<string, Number>, i: nat)
    requires i < |records| && records[i].state in latestIncome
    requires latestIncome[records[i].state] == Finite(0.0) || latestIncome[records[i].state] == NaN
    ensures JoinIncome(records, latestIncome)[i].medianIncome == None
  {
  }

  /** The join works record by record: it distributes over concatenation. */
  lemma JoinAppend(a: seq<InflationRecord>, b: seq<InflationRecord>, latestIncome: map<string, Number>)
    ensures JoinIncome(a + b, latestIncome) == JoinIncome(a, latestIncome) + JoinIncome(b, latestIncome)
  {
    var r, ra, rb := JoinIncome(a + b, latestIncome), JoinIncome(a, latestIncome), JoinIncome(b, latestIncome);
    forall i | 0 <= i < |r|
      ensures r[i] == (ra + rb)[i]
    {
      if i >= |a| {
        assert (a + b)[i] == b[i - |a|];
      }
    }
  }
}
