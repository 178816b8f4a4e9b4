/**
 * The fail-fast validation pipeline of app.py. check_valid_columns pops
 * observation_id out of the caller's payload, rejects the first unrecognised
 * key and then the first missing mandatory key; check_categorical_values checks
 * the categorical domains in map order and then matches the zip code against
 * `\b(\d{3}|OOS)\b`; check_input runs the two in turn and stops at the first error.
 * Flask's `jsonify` responses are the Response datatype.
 */
module App {
  import opened Python
  import opened Search

  const OBSERVATION_ID := "observation_id"
  const PATIENT_DISPOSITION := "Patient Disposition"
  const ZIP_CODE := "Zip Code - 3 digits"

  /** Mandatory columns, in the order they are checked. */
  const MANDATORY_COLUMNS: seq<string> := [
    "Health Service Area", "Hospital County", "Facility Id", "Age Group", "Zip Code - 3 digits",
    "Gender", "Race", "Ethnicity", "Type of Admission", "Patient Disposition",
    "CCS Diagnosis Code", "CCS Procedure Code", "APR DRG Code", "APR MDC Code",
    "APR Severity of Illness Code", "APR Severity of Illness Description", "APR Risk of Mortality",
    "APR Medical Surgical Description", "Payment Typology 1", "Emergency Department Indicator",
    "Abortion Edit Indicator"
  ]

  /** Recognised columns as written: "Patient Disposition" is not among them. */
  const VALID_COLUMNS: seq<string> := [
    "Health Service Area", "Hospital County", "Operating Certificate Number", "Facility Id",
    "Facility Name", "Age Group", "Zip Code - 3 digits", "Gender", "Race", "Ethnicity",
    "Type of Admission", "CCS Diagnosis Code", "CCS Diagnosis Description", "CCS Procedure Code",
    "CCS Procedure Description", "APR DRG Code", "APR DRG Description", "APR MDC Code",
    "APR MDC Description", "APR Severity of Illness Code", "APR Severity of Illness Description",
    "APR Risk of Mortality", "APR Medical Surgical Description", "Payment Typology 1",
    "Payment Typology 2", "Payment Typology 3", "Attending Provider License Number",
    "Operating Provider License Number", "Other Provider License Number", "Birth Weight",
    "Abortion Edit Indicator", "Emergency Department Indicator"
  ]

  /** Recognised columns with the mandatory "Patient Disposition" added. */
  const CORRECTED_VALID_COLUMNS: seq<string> := VALID_COLUMNS + [PATIENT_DISPOSITION]

  /** The category map, in its insertion (iteration) order. */
  const CATEGORIES: seq<Category> := [
    ("Health Service Area", Strs(["Western NY", "Finger Lakes", "Southern Tier", "Central NY",
                                  "Capital/Adiron", "Hudson Valley", "New York City", "Long Island"])),
    ("Age Group", Strs(["0 to 17", "18 to 29", "30 to 49", "50 to 69", "70 or Older"])),
    ("Gender", Strs(["F", "M"])),
    ("Race", Strs(["White", "Other Race", "Black/African American", "Multi-racial"])),
    ("Ethnicity", Strs(["Not Span/Hispanic", "Unknown", "Spanish/Hispanic", "Multi-ethnic"])),
    ("Type of Admission", Strs(["Emergency", "Elective", "Urgent", "Newborn", "Not Available", "Trauma"])),
    ("APR Severity of Illness Description", Strs(["Moderate", "Minor", "Major", "Extreme"])),
    ("APR Risk of Mortality", Strs(["Minor", "Moderate", "Major", "Extreme"])),
    ("APR Medical Surgical Description", Strs(["Medical", "Surgical", "Not Applicable"])),
    ("Payment Typology 1", Strs(["Medicaid", "Medicare", "Blue Cross/Blue Shield",
                                 "Private Health Insurance", "Self-Pay", "Managed Care, Unspecified",
                                 "Federal/State/Local/VA", "Miscellaneous/Other",
                                 "Department of Corrections", "Unknown"])),
    ("Abortion Edit Indicator", Strs(["Y", "N"])),
    ("Emergency Department Indicator", Strs(["Y", "N"]))
  ]

  datatype AppError =
    | NoId
    | UnknownFeature(feature: string)
    | MissingFeature(feature: string)
    | InvalidValue(category: string, value: Value, allowed: seq<Value>)
    | ZipFormat

  /** Exceptions the pipeline does not catch. */
  datatype Fault = KeyError(key: string) | TypeError

  /**
   * `{'observation_id': id, 'observation': obs}`, `{'observation_id': id-or-null, 'error': msg}`,
   * or an exception escaping to the caller.
   */
  datatype Response =
    | Accepted(id: Value, observation: map<string, Value>)
    | Rejected(idOrNull: Option<Value>, error: AppError)
    | Raised(fault: Fault)

  /** The error text of a rejection (the invalid-value text renders the value with `str()` and is left out). */
  function Message(e: AppError): (m: string)
    requires !e.InvalidValue?
    ensures |m| > 7 && m[..7] == "Error: "
    ensures e.UnknownFeature? || e.MissingFeature? ==> |m| > 7 + |e.feature| && m[7..7 + |e.feature|] == e.feature
  {
    "Error: " +
      match e
      case NoId => "observation has no ID."
      case UnknownFeature(f) => f + " is not a valid feature."
      case MissingFeature(f) => f + " is missing."
      case ZipFormat => "Zip Code does not obey to standard format."
  }

  /** Different rejections have different texts: a caller can tell from the text which error it got. */
  lemma MessageIdentifiesError(a: AppError, b: AppError)
    requires !a.InvalidValue? && !b.InvalidValue?
    ensures Message(a) == Message(b) ==> a == b
  {
    var ma, mb := Message(a), Message(b);
    if ma == mb {
      // the last word tells the kinds apart: "...feature.", "...missing.", "...ID.", "...format."
      assert a.UnknownFeature? ==> ma[|ma| - 2] == 'e';
      assert a.MissingFeature? ==> ma[|ma| - 2] == 'g';
      assert b.UnknownFeature? ==> mb[|mb| - 2] == 'e';
      assert b.MissingFeature? ==> mb[|mb| - 2] == 'g';
      if a.UnknownFeature? || a.MissingFeature? {
        assert |a.feature| == |b.feature|;
        assert a.feature == ma[7..7 + |a.feature|] == mb[7..7 + |b.feature|] == b.feature;
      }
    }
  }

  /** A dict's iteration order and its entries hold the same keys. */
  predicate SameKeys(keys: seq<string>, values: map<string, Value>) {
    (forall k :: k in keys ==> k in values) && (forall k :: k in values ==> k in keys)
  }

  /**
   * check_valid_columns on a payload whose keys iterate in the order `keys`, with `valid`
   * as the recognised-column list. On every path past the pop the observation is the
   * payload without observation_id.
   */
  function ColumnCheck(keys: seq<string>, values: map<string, Value>, valid: seq<string>): (r: Response)
    requires SameKeys(keys, values)
    ensures !r.Raised?
    ensures r.Rejected? ==> r.error.NoId? || r.error.UnknownFeature? || r.error.MissingFeature?
    ensures r == Rejected(None, NoId) <==> OBSERVATION_ID !in values
    ensures r.Rejected? && r.error.NoId? <==> OBSERVATION_ID !in values
    ensures r.Accepted? <==>
      OBSERVATION_ID in values &&
      (forall k :: k in values && k != OBSERVATION_ID ==> k in valid) &&
      (forall c :: c in MANDATORY_COLUMNS ==> c in values)
    ensures r.Accepted? ==> r.id == values[OBSERVATION_ID] && r.observation == values - {OBSERVATION_ID}
    ensures r.Rejected? && r.error.UnknownFeature? ==>
      OBSERVATION_ID in values && r.idOrNull == Some(values[OBSERVATION_ID]) &&
      exists i :: IsFirstOutside(Without(keys, OBSERVATION_ID), SetOf(valid), i) &&
                  Without(keys, OBSERVATION_ID)[i] == r.error.feature
    ensures r.Rejected? && r.error.MissingFeature? ==>
      OBSERVATION_ID in values && r.idOrNull == Some(values[OBSERVATION_ID]) &&
      (forall k :: k in values && k != OBSERVATION_ID ==> k in valid) &&
      exists i :: IsFirstOutside(MANDATORY_COLUMNS, values.Keys - {OBSERVATION_ID}, i) &&
                  MANDATORY_COLUMNS[i] == r.error.feature
  {
    if OBSERVATION_ID !in values then Rejected(None, NoId)
    else
      var id := values[OBSERVATION_ID];
      var observation := values - {OBSERVATION_ID};
      var order := Without(keys, OBSERVATION_ID);
      var u := FirstOutside(order, SetOf(valid));
      if u < |order| then Rejected(Some(id), UnknownFeature(order[u]))
      else
        var m := FirstOutside(MANDATORY_COLUMNS, observation.Keys);
        if m < |MANDATORY_COLUMNS| then Rejected(Some(id), MissingFeature(MANDATORY_COLUMNS[m]))
        else Accepted(id, observation)
  }

  /** Where the scan over the keys stops at an unrecognised key, that key is reported. */
  lemma ColumnCheckStopsAt(keys: seq<string>, values: map<string, Value>, valid: seq<string>, i: nat)
    requires SameKeys(keys, values) && OBSERVATION_ID in values
    requires i < |Without(keys, OBSERVATION_ID)| && Without(keys, OBSERVATION_ID)[i] !in valid
    requires forall j :: 0 <= j < i ==> Without(keys, OBSERVATION_ID)[j] in valid
    ensures ColumnCheck(keys, values, valid) ==
      Rejected(Some(values[OBSERVATION_ID]), UnknownFeature(Without(keys, OBSERVATION_ID)[i]))
  {
    FirstOutsideAt(Without(keys, OBSERVATION_ID), SetOf(valid), i);
  }

  /**
   * Once every key is recognised, the scan over the mandatory list stopping at m reports
   * MANDATORY_COLUMNS[m], or accepts when m is the end of the list.
   */
  lemma ColumnCheckMissesAt(keys: seq<string>, values: map<string, Value>, valid: seq<string>, m: nat)
    requires SameKeys(keys, values) && OBSERVATION_ID in values
    requires forall j :: 0 <= j < |Without(keys, OBSERVATION_ID)| ==> Without(keys, OBSERVATION_ID)[j] in valid
    requires m <= |MANDATORY_COLUMNS| && forall j :: 0 <= j < m ==> MANDATORY_COLUMNS[j] in values - {OBSERVATION_ID}
    requires m < |MANDATORY_COLUMNS| ==> MANDATORY_COLUMNS[m] !in values - {OBSERVATION_ID}
    ensures ColumnCheck(keys, values, valid) ==
      if m < |MANDATORY_COLUMNS| then Rejected(Some(values[OBSERVATION_ID]), MissingFeature(MANDATORY_COLUMNS[m]))
      else Accepted(values[OBSERVATION_ID], values - {OBSERVATION_ID})
  {
    var order := Without(keys, OBSERVATION_ID);
    assert forall j :: 0 <= j < |order| ==> order[j] in SetOf(valid);
    FirstOutsideAt(order, SetOf(valid), |order|);
    FirstOutsideAt(MANDATORY_COLUMNS, (values - {OBSERVATION_ID}).Keys, m);
  }

  /**
   * As written, the column check accepts nothing: "Patient Disposition" is mandatory but not
   * recognised, so it is rejected as unrecognised when present and as missing when absent.
   */
  lemma AsWrittenColumnCheckNeverAccepts(keys: seq<string>, values: map<string, Value>)
    requires SameKeys(keys, values)
    ensures !ColumnCheck(keys, values, VALID_COLUMNS).Accepted?
    ensures OBSERVATION_ID in values && PATIENT_DISPOSITION in values ==>
      var r := ColumnCheck(keys, values, VALID_COLUMNS);
      r.Rejected? && r.idOrNull == Some(values[OBSERVATION_ID]) && r.error.UnknownFeature?
    ensures OBSERVATION_ID in values && PATIENT_DISPOSITION !in values ==>
      var r := ColumnCheck(keys, values, VALID_COLUMNS);
      r.Rejected? && r.idOrNull == Some(values[OBSERVATION_ID]) &&
      (r.error.UnknownFeature? || r.error.MissingFeature?)
  {
    assert PATIENT_DISPOSITION == MANDATORY_COLUMNS[9];
    assert PATIENT_DISPOSITION !in VALID_COLUMNS;
  }

  /** Corrected, the column check accepts a payload holding exactly the id and the mandatory columns. */
  lemma CorrectedColumnCheckAcceptsMandatoryPayload(keys: seq<string>, values: map<string, Value>)
    requires SameKeys(keys, values)
    requires forall k :: k in values <==> k == OBSERVATION_ID || k in MANDATORY_COLUMNS
    ensures ColumnCheck(keys, values, CORRECTED_VALID_COLUMNS) ==
      Accepted(values[OBSERVATION_ID], values - {OBSERVATION_ID})
  {
    forall k | k in values && k != OBSERVATION_ID
      ensures k in CORRECTED_VALID_COLUMNS
    {
      var i :| 0 <= i < |MANDATORY_COLUMNS| && MANDATORY_COLUMNS[i] == k;
      assert i != 9 ==> MANDATORY_COLUMNS[i] in VALID_COLUMNS;
    }
  }

  /** `re.match(r"\b(\d{3}|OOS)\b", s)` succeeds: anchored at the start only. */
  function ZipPatternMatches(s: string): (r: bool)
    ensures r <==> |s| >= 3 && (IsDigits(s[..3]) || s[..3] == "OOS") && (|s| == 3 || !IsWordChar(s[3]))
    ensures |s| == 3 ==> (r <==> IsDigits(s) || s == "OOS")
    ensures |s| > 3 && IsDigit(s[3]) ==> !r
  {
    |s| >= 3 && WordBoundary(s, 0) && (IsDigits(s[..3]) || s[..3] == "OOS") && WordBoundary(s, 3)
  }

  /**
   * check_categorical_values on `{'observation_id': id, 'observation': obs}`: the first category,
   * in map order, whose value is not allowed is reported; a category absent from obs raises
   * KeyError; then the zip code must be a string matching the pattern.
   */
  function CategoricalCheck(id: Value, obs: map<string, Value>): (r: Response)
    ensures r.Accepted? <==>
      (forall i :: 0 <= i < |CATEGORIES| ==> Admits(CATEGORIES[i], obs)) &&
      ZIP_CODE in obs && obs[ZIP_CODE].Str? && ZipPatternMatches(obs[ZIP_CODE].s)
    ensures r.Accepted? ==> r == Accepted(id, obs)
    ensures r.Rejected? ==> r.idOrNull == Some(id) && (r.error.InvalidValue? || r.error.ZipFormat?)
    ensures r.Rejected? && r.error.InvalidValue? ==>
      r.error.category in obs && r.error.value == obs[r.error.category] &&
      !Contains(r.error.allowed, r.error.value) &&
      exists i :: IsFirstRejected(CATEGORIES, obs, i) && CATEGORIES[i] == (r.error.category, r.error.allowed)
    ensures r.Rejected? && r.error.ZipFormat? ==>
      (forall i :: 0 <= i < |CATEGORIES| ==> Admits(CATEGORIES[i], obs)) &&
      ZIP_CODE in obs && obs[ZIP_CODE].Str? && !ZipPatternMatches(obs[ZIP_CODE].s)
    ensures r.Raised? && r.fault.KeyError? ==>
      r.fault.key !in obs &&
      ((exists i :: IsFirstRejected(CATEGORIES, obs, i) && CATEGORIES[i].0 == r.fault.key) ||
       (r.fault.key == ZIP_CODE && forall i :: 0 <= i < |CATEGORIES| ==> Admits(CATEGORIES[i], obs)))
    ensures r.Raised? && r.fault.TypeError? ==>
      (forall i :: 0 <= i < |CATEGORIES| ==> Admits(CATEGORIES[i], obs)) &&
      ZIP_CODE in obs && !obs[ZIP_CODE].Str?
  {
    var i := FirstRejected(CATEGORIES, obs);
    if i < |CATEGORIES| then
      assert IsFirstRejected(CATEGORIES, obs, i);
      var (category, allowed) := CATEGORIES[i];
      if category !in obs then Raised(KeyError(category))
      else Rejected(Some(id), InvalidValue(category, obs[category], allowed))
    else if ZIP_CODE !in obs then Raised(KeyError(ZIP_CODE))
    else match obs[ZIP_CODE]
      case Str(s) => if ZipPatternMatches(s) then Accepted(id, obs) else Rejected(Some(id), ZipFormat)
      case _ => Raised(TypeError)
  }

  /**
   * Every category and the zip code are mandatory columns, so once the mandatory columns are
   * present the lookups of the categorical check cannot raise KeyError.
   */
  lemma CategoricalLookupsCannotMiss(id: Value, obs: map<string, Value>)
    requires forall c :: c in MANDATORY_COLUMNS ==> c in obs
    ensures CategoricalCheck(id, obs).Raised? ==> CategoricalCheck(id, obs).fault == TypeError
  {
    assert ZIP_CODE == MANDATORY_COLUMNS[4];
    forall i | 0 <= i < |CATEGORIES|
      ensures CATEGORIES[i].0 in obs
    {
      assert CATEGORIES[i].0 in MANDATORY_COLUMNS;
    }
  }

  /**
   * check_input with the corrected column list: the column step, then, only if it accepted,
   * the categorical step on its result.
   */
  function InputCheck(keys: seq<string>, values: map<string, Value>): (r: Response)
    requires SameKeys(keys, values)
    ensures !ColumnCheck(keys, values, CORRECTED_VALID_COLUMNS).Accepted? ==>
      r == ColumnCheck(keys, values, CORRECTED_VALID_COLUMNS)
    ensures r.Accepted? <==>
      var obs := values - {OBSERVATION_ID};
      OBSERVATION_ID in values &&
      (forall k :: k in obs ==> k in CORRECTED_VALID_COLUMNS) &&
      (forall c :: c in MANDATORY_COLUMNS ==> c in obs) &&
      (forall i :: 0 <= i < |CATEGORIES| ==> Admits(CATEGORIES[i], obs)) &&
      obs[ZIP_CODE].Str? && ZipPatternMatches(obs[ZIP_CODE].s)
    ensures ColumnCheck(keys, values, CORRECTED_VALID_COLUMNS).Accepted? ==>
      r == CategoricalCheck(values[OBSERVATION_ID], values - {OBSERVATION_ID})
    ensures r.Accepted? ==> r.id == values[OBSERVATION_ID] && r.observation == values - {OBSERVATION_ID}
    ensures r.Raised? ==> r.fault == TypeError
  {
    var columns := ColumnCheck(keys, values, CORRECTED_VALID_COLUMNS);
    if !columns.Accepted? then columns
    else
      CategoricalLookupsCannotMiss(columns.id, columns.observation);
      CategoricalCheck(columns.id, columns.observation)
  }

  /** A parsed JSON payload: a dict whose keys iterate in insertion order. */
  class Payload {
    var keys: seq<string>
    var values: map<string, Value>

    ghost predicate Valid()
      reads this
    {
      Distinct(keys) && SameKeys(keys, values)
    }

    constructor (keys: seq<string>, values: map<string, Value>)
      requires Distinct(keys) && SameKeys(keys, values)
      ensures Valid() && this.keys == keys && this.values == values
    {
      this.keys := keys;
      this.values := values;
    }

    /** `dict.pop(k)`; None stands for the KeyError raised when k is absent. */
    method Pop(k: string) returns (v: Option<Value>)
      requires Valid()
      modifies this
      ensures Valid()
      ensures v == if k in old(values) then Some(old(values)[k]) else None
      ensures values == old(values) - {k} && keys == Without(old(keys), k)
    {
      v := if k in values then Some(values[k]) else None;
      keys := Without(keys, k);
      values := values - {k};
    }

    /**
     * check_valid_columns: removes observation_id from this payload in place (and changes
     * nothing else), then scans the keys and the mandatory list, returning at the first failure.
     */
    method CheckValidColumns(valid: seq<string>) returns (response: Response)
      requires Valid()
      modifies this
      ensures Valid()
      ensures keys == Without(old(keys), OBSERVATION_ID) && values == old(values) - {OBSERVATION_ID}
      ensures response == ColumnCheck(old(keys), old(values), valid)
    {
      ghost var keys0, values0 := keys, values;
      var id := Pop(OBSERVATION_ID);
      if id.None? {
        return Rejected(None, NoId);
      }
      var i := 0;
      while i < |keys|
        invariant 0 <= i <= |keys|
        invariant forall j :: 0 <= j < i ==> keys[j] in valid
      {
        if keys[i] !in valid {
          ColumnCheckStopsAt(keys0, values0, valid, i);
          return Rejected(Some(id.value), UnknownFeature(keys[i]));
        }
        i := i + 1;
      }
      var m := 0;
      while m < |MANDATORY_COLUMNS|
        invariant 0 <= m <= |MANDATORY_COLUMNS|
        invariant forall j :: 0 <= j < m ==> MANDATORY_COLUMNS[j] in values
      {
        if MANDATORY_COLUMNS[m] !in values {
          ColumnCheckMissesAt(keys0, values0, valid, m);
          return Rejected(Some(id.value), MissingFeature(MANDATORY_COLUMNS[m]));
        }
        m := m + 1;
      }
      ColumnCheckMissesAt(keys0, values0, valid, |MANDATORY_COLUMNS|);
      return Accepted(id.value, values);
    }

    /** check_input: the column step, which pops the id, then the categorical step. */
    method CheckInput() returns (response: Response)
      requires Valid()
      modifies this
      ensures Valid()
      ensures keys == Without(old(keys), OBSERVATION_ID) && values == old(values) - {OBSERVATION_ID}
      ensures response == InputCheck(old(keys), old(values))
    {
      response := CheckValidColumns(CORRECTED_VALID_COLUMNS);
      if !response.Accepted? {
        return;
      }
      response := CategoricalCheck(response.id, response.observation);
    }
  }
}
