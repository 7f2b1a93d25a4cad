/**
 State-name normalisation: a fixed table maps the spellings used by the
 statistics datasets to the names used by the map geometry; a name the
 table does not know is used as it is.
 */
module StateNames {

  /** The lookup table, entry for entry as the program declares it. */
  const STATE_NORMALIZE: map<string, string> := map[
    "W.P. Kuala Lumpur" := "Kuala Lumpur",
    "WP Kuala Lumpur" := "Kuala Lumpur",
    "W.P. Labuan" := "Labuan",
    "WP Labuan" := "Labuan",
    "W.P. Putrajaya" := "Putrajaya",
    "WP Putrajaya" := "Putrajaya",
    "Pulau Pinang" := "Penang",
    "Johor" := "Johor",
    "Kedah" := "Kedah",
    "Kelantan" := "Kelantan",
    "Melaka" := "Melaka",
    "Negeri Sembilan" := "Negeri Sembilan",
    "Pahang" := "Pahang",
    "Perak" := "Perak",
    "Perlis" := "Perlis",
    "Sabah" := "Sabah",
    "Sarawak" := "Sarawak",
    "Selangor" := "Selangor",
    "Terengganu" := "Terengganu"
  ]

  /** The seven variant spellings: the keys that do not map to themselves. */
  const VARIANT_NAMES: set<string> := {
    "W.P. Kuala Lumpur", "WP Kuala Lumpur", "W.P. Labuan", "WP Labuan",
    "W.P. Putrajaya", "WP Putrajaya", "Pulau Pinang"
  }

  /** The names the table maps to themselves. */
  const IDENTITY_NAMES: set<string> := {
    "Johor", "Kedah", "Kelantan", "Melaka", "Negeri Sembilan", "Pahang",
    "Perak", "Perlis", "Sabah", "Sarawak", "Selangor", "Terengganu"
  }

  /** The 16 canonical state names: the table's values. */
  const CANONICAL_NAMES: set<string> :=
    IDENTITY_NAMES + {"Kuala Lumpur", "Labuan", "Putrajaya", "Penang"}

  /**
   `STATE_NORMALIZE[state] || state`: the table's entry when there is one and
   it is truthy, otherwise the input. No entry is empty, so the result is the
   table's entry whenever the name is a key.
   */
  function NormalizeState(state: string): (r: string)
    ensures state in STATE_NORMALIZE ==> r == STATE_NORMALIZE[state] && r in CANONICAL_NAMES
    ensures state !in STATE_NORMALIZE ==> r == state
  {
    if state in STATE_NORMALIZE && STATE_NORMALIZE[state] != "" then STATE_NORMALIZE[state] else state
  }

  /** Each of the seven variant spellings becomes its canonical name. */
  lemma VariantSpellings()
    ensures NormalizeState("W.P. Kuala Lumpur") == "Kuala Lumpur"
    ensures NormalizeState("WP Kuala Lumpur") == "Kuala Lumpur"
    ensures NormalizeState("W.P. Labuan") == "Labuan"
    ensures NormalizeState("WP Labuan") == "Labuan"
    ensures NormalizeState("W.P. Putrajaya") == "Putrajaya"
    ensures NormalizeState("WP Putrajaya") == "Putrajaya"
    ensures NormalizeState("Pulau Pinang") == "Penang"
  {
    assert STATE_NORMALIZE["W.P. Kuala Lumpur"] == "Kuala Lumpur";
    assert STATE_NORMALIZE["WP Kuala Lumpur"] == "Kuala Lumpur";
    assert STATE_NORMALIZE["W.P. Labuan"] == "Labuan";
    assert STATE_NORMALIZE["WP Labuan"] == "Labuan";
    assert STATE_NORMALIZE["W.P. Putrajaya"] == "Putrajaya";
    assert STATE_NORMALIZE["WP Putrajaya"] == "Putrajaya";
    assert STATE_NORMALIZE["Pulau Pinang"] == "Penang";
  }

  /**
   The table's keys are the seven variants and the twelve identity names,
   and its values are the canonical names.
   */
  lemma TableShape(k: string, v: string)
    ensures k in STATE_NORMALIZE <==> k in VARIANT_NAMES || k in IDENTITY_NAMES
    ensures k in VARIANT_NAMES ==> STATE_NORMALIZE[k] != k
    ensures v in CANONICAL_NAMES <==> exists key :: key in STATE_NORMALIZE && STATE_NORMALIZE[key] == v
  {
    if v in IDENTITY_NAMES {
      assert STATE_NORMALIZE[v] == v;
    } else if v == "Kuala Lumpur" {
      assert STATE_NORMALIZE["WP Kuala Lumpur"] == v;
    } else if v == "Labuan" {
      assert STATE_NORMALIZE["WP Labuan"] == v;
    } else if v == "Putrajaya" {
      assert STATE_NORMALIZE["WP Putrajaya"] == v;
    } else if v == "Penang" {
      assert STATE_NORMALIZE["Pulau Pinang"] == v;
    }
  }

  /** A name that is an identity entry is returned unchanged. */
  lemma IdentityEntries(state: string)
    requires state in IDENTITY_NAMES
    ensures state in STATE_NORMALIZE && NormalizeState(state) == state
  {
  }

  /**
   Every value of the table is either a key that maps to itself or a name
   that is not a key at all, so normalising twice changes nothing.
   */
  lemma TableValuesAreFixed(state: string)
    requires state in STATE_NORMALIZE
    ensures var v := STATE_NORMALIZE[state];
            (v in STATE_NORMALIZE && STATE_NORMALIZE[v] == v) || v !in STATE_NORMALIZE
  {
  }

  lemma NormalizeIdempotent(state: string)
    ensures NormalizeState(NormalizeState(state)) == NormalizeState(state)
  {
    if state in STATE_NORMALIZE {
      TableValuesAreFixed(state);
    }
  }

  /**
   The result is a canonical name exactly when the input was a key of the
   table or already a canonical name.
   */
  lemma NormalizeToCanonical(state: string)
    ensures NormalizeState(state) in CANONICAL_NAMES <==> state in STATE_NORMALIZE || state in CANONICAL_NAMES
  {
  }
}
