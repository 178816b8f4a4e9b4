/**
 * The field checkers of the draft validator dev/app_camila.py. Each takes the
 * request or the observation and returns Python's `(bool, message)` pair, here
 * an Outcome: Pass for `(True, "")`, Fail(e) for `(False, message)`. One
 * checker can raise instead of returning; that is the third variant. All of
 * them are functions of their argument: none changes the observation.
 */
module Checkers {
  import opened Python
  import opened Search

  datatype CheckError =
    | RequestFieldMissing(field: string)
    | MissingColumns(missing: set<string>)
    | UnrecognizedColumns(extra: set<string>)
    | InvalidValue(field: string, value: Value, allowed: seq<Value>)
    | CategoricalMissing(field: string)
    | FieldMissing(field: string)
    | NotAnInteger(field: string)
    | Negative(field: string)
    | Invalid(field: string)
    | ZipFormat
    | LicenseFormat

  /** `(True, "")`, `(False, message)`, or the TypeError of `str < 0`. */
  datatype Outcome = Pass | Fail(error: CheckError) | RaisesTypeError

  const FACILITY_ID := "Facility Id"
  const ZIP_CODE := "Zip Code - 3 digits"
  const CCS_DIAGNOSIS_CODE := "CCS Diagnosis Code"
  const CCS_PROCEDURE_CODE := "CCS Procedure Code"
  const APR_DRG_CODE := "APR DRG Code"
  const APR_MDC_CODE := "APR MDC Code"
  const APR_SEVERITY_CODE := "APR Severity of Illness Code"
  const BIRTH_WEIGHT := "Birth Weight"
  const ATTENDING_LICENSE := "Attending Provider License Number"

  /** The exact column set an observation must have, observation_id included. */
  const COLUMNS: set<string> := {
    "observation_id", "Health Service Area", "Hospital County", "Operating Certificate Number",
    "Facility Id", "Facility Name", "Age Group", "Zip Code - 3 digits", "Gender", "Race",
    "Ethnicity", "Type of Admission", "CCS Diagnosis Code", "CCS Diagnosis Description",
    "CCS Procedure Code", "CCS Procedure Description", "APR DRG Code", "APR DRG Description",
    "APR MDC Code", "APR MDC Description", "APR Severity of Illness Code",
    "APR Severity of Illness Description", "APR Risk of Mortality",
    "APR Medical Surgical Description", "Payment Typology 1", "Payment Typology 2",
    "Payment Typology 3", "Attending Provider License Number",
    "Operating Provider License Number", "Other Provider License Number", "Birth Weight",
    "Abortion Edit Indicator", "Emergency Department Indicator"
  }

  const SEVERITY_CODES: seq<Value> := [Int(1), Int(2), Int(3), Int(4)]

  /** The category map, in its insertion (iteration) order. */
  const CATEGORIES: seq<Category> := [
    ("Health Service Area", Strs(["Western NY", "Finger Lakes", "Southern Tier", "Central NY",
                                  "Capital/Adiron", "Hudson Valley", "New York City", "Long Island"])),
    ("Age Group", Strs(["0 to 17", "18 to 29", "30 to 49", "50 to 69", "70 or Older"])),
    ("Gender", Strs(["F", "M"])),
    ("Race", Strs(["White", "Other Race", "Black/African American", "Multi-racial"])),
    ("Ethnicity", Strs(["Not Span/Hispanic", "Unknown", "Spanish/Hispanic", "Multi-ethnic"])),
    ("Type of Admission", Strs(["Emergency", "Elective", "Urgent", "Newborn", "Not Available", "Trauma"])),
    ("APR Severity of Illness Description", Strs(["Moderate", "Minor", "Major", "Extreme"])),
    (APR_SEVERITY_CODE, SEVERITY_CODES),
    ("APR Risk of Mortality", Strs(["Minor", "Moderate", "Major", "Extreme"])),
    ("APR Medical Surgical Description", Strs(["Medical", "Surgical", "Not Applicable"])),
    ("Payment Typology 1", Strs(["Medicaid", "Medicare", "Blue Cross/Blue Shield",
                                 "Private Health Insurance", "Self-Pay", "Managed Care, Unspecified",
                                 "Federal/State/Local/VA", "Miscellaneous/Other",
                                 "Department of Corrections", "Unknown"])),
    ("Abortion Edit Indicator", Strs(["Y", "N"])),
    ("Emergency Department Indicator", Strs(["Y", "N"]))
  ]

  /** Errors whose message is fixed text around a field name (the others render an arbitrary object with `str()`). */
  predicate FixedText(e: CheckError) {
    !(e.RequestFieldMissing? || e.MissingColumns? || e.UnrecognizedColumns? || e.InvalidValue?)
  }

  /** The message half of `(False, message)`; the categorical-missing text is the corrected one. */
  function Message(e: CheckError): (m: string)
    requires FixedText(e)
    ensures e.CategoricalMissing? ==> |m| > 18 + |e.field| && m[18..18 + |e.field|] == e.field
    ensures e.FieldMissing? || e.NotAnInteger? || e.Negative? || e.Invalid? ==>
      |m| > 7 + |e.field| && m[..7] == "Field `" && m[7..7 + |e.field|] == e.field && m[7 + |e.field|] == '`'
  {
    match e
    case CategoricalMissing(f) => "Categorical field " + f + " missing"
    case FieldMissing(f) => "Field `" + f + "` missing"
    case NotAnInteger(f) => "Field `" + f + "` is not an integer"
    case Negative(f) => "Field `" + f + "` is negative"
    case Invalid(f) => "Field `" + f + "` is invalid"
    case ZipFormat => "Field `Zip Code - 3 digits` must be a 3-digit integer or 'OOS'"
    case LicenseFormat =>
      "Field `Attending Provider License Number` must be an integer or a float with no decimal places"
  }

  /** The categorical-missing message as written: the placeholder is never filled in. */
  function AsWrittenCategoricalMissingMessage(field: string): string {
    "Categorical field {} missing"
  }

  /** As written, two different missing categories produce the same message. */
  lemma AsWrittenMissingMessageIgnoresField(a: map<string, Value>, b: map<string, Value>)
    requires CheckCategoricalValues(a).Fail? && CheckCategoricalValues(a).error.CategoricalMissing?
    requires CheckCategoricalValues(b).Fail? && CheckCategoricalValues(b).error.CategoricalMissing?
    ensures AsWrittenCategoricalMissingMessage(CheckCategoricalValues(a).error.field) ==
            AsWrittenCategoricalMissingMessage(CheckCategoricalValues(b).error.field)
  {
  }

  /** Two observations whose first missing categories differ: the empty one, and one with only a service area. */
  lemma MissingCategoriesDiffer()
    ensures CheckCategoricalValues(map[]) == Fail(CategoricalMissing("Health Service Area"))
    ensures CheckCategoricalValues(map["Health Service Area" := Str("Western NY")]) ==
            Fail(CategoricalMissing("Age Group"))
  {
    var obs := map["Health Service Area" := Str("Western NY")];
    assert Equal(obs["Health Service Area"], CATEGORIES[0].1[0]);
    assert Admits(CATEGORIES[0], obs);
    assert !Admits(CATEGORIES[1], obs);
    assert FirstRejected(CATEGORIES, obs) == 1;
  }

  /** Corrected, the message tells the missing categories apart. */
  lemma MissingMessageNamesField(a: string, b: string)
    ensures Message(CategoricalMissing(a)) == Message(CategoricalMissing(b)) ==> a == b
  {
    var prefix := "Categorical field ";
    if Message(CategoricalMissing(a)) == Message(CategoricalMissing(b)) {
      var m := Message(CategoricalMissing(a));
      assert |a| == |b|;
      assert m[|prefix|..|prefix| + |a|] == a;
      assert Message(CategoricalMissing(b))[|prefix|..|prefix| + |b|] == b;
    }
  }

  /** check_request: the request must carry both "id" and "observation". */
  function CheckRequest(request: set<string>): (r: Outcome)
    ensures r.Pass? <==> "id" in request && "observation" in request
    ensures "id" !in request ==> r == Fail(RequestFieldMissing("id"))
    ensures "id" in request && "observation" !in request ==> r == Fail(RequestFieldMissing("observation"))
  {
    if "id" !in request then Fail(RequestFieldMissing("id"))
    else if "observation" !in request then Fail(RequestFieldMissing("observation"))
    else Pass
  }

  /** check_valid_column: the key set must be exactly COLUMNS; missing ones are reported first. */
  function CheckValidColumn(obs: map<string, Value>): (r: Outcome)
    ensures r.Pass? <==> obs.Keys == COLUMNS
    ensures !(COLUMNS <= obs.Keys) ==> r == Fail(MissingColumns(COLUMNS - obs.Keys))
    ensures COLUMNS < obs.Keys ==> r == Fail(UnrecognizedColumns(obs.Keys - COLUMNS))
    ensures r.Fail? ==> r.error.MissingColumns? || r.error.UnrecognizedColumns?
  {
    var missing := COLUMNS - obs.Keys;
    if |missing| > 0 then Fail(MissingColumns(missing))
    else
      var extra := obs.Keys - COLUMNS;
      if |extra| > 0 then Fail(UnrecognizedColumns(extra)) else Pass
  }

  /** check_categorical_values: every category present with an allowed value, else the first failure. */
  function CheckCategoricalValues(obs: map<string, Value>): (r: Outcome)
    ensures r.Pass? <==> forall i :: 0 <= i < |CATEGORIES| ==> Admits(CATEGORIES[i], obs)
    ensures r.Fail? ==> r.error.CategoricalMissing? || r.error.InvalidValue?
    ensures r.Fail? && r.error.CategoricalMissing? ==>
      r.error.field !in obs &&
      exists i :: IsFirstRejected(CATEGORIES, obs, i) && CATEGORIES[i].0 == r.error.field
    ensures r.Fail? && r.error.InvalidValue? ==>
      r.error.field in obs && r.error.value == obs[r.error.field] &&
      !Contains(r.error.allowed, r.error.value) &&
      exists i :: IsFirstRejected(CATEGORIES, obs, i) && CATEGORIES[i] == (r.error.field, r.error.allowed)
    ensures !r.RaisesTypeError?
  {
    var i := FirstRejected(CATEGORIES, obs);
    if i == |CATEGORIES| then Pass
    else
      assert IsFirstRejected(CATEGORIES, obs, i);
      var (key, allowed) := CATEGORIES[i];
      if key in obs then Fail(InvalidValue(key, obs[key], allowed)) else Fail(CategoricalMissing(key))
  }

  /** The severity-code list admits exactly the numbers 1 to 4, whatever their numeric type. */
  lemma SeverityCodeDomain(v: Value)
    ensures Contains(SEVERITY_CODES, v) <==> AsNumber(v) in {Some(1.0), Some(2.0), Some(3.0), Some(4.0)}
  {
    if AsNumber(v) in {Some(1.0), Some(2.0), Some(3.0), Some(4.0)} {
      var k := AsNumber(v).value.Floor;
      assert 1 <= k <= 4 && Equal(v, SEVERITY_CODES[k - 1]);
    }
  }

  /** An observation that passes the categorical check has a severity code among 1 to 4. */
  lemma SeverityCodeIsOneToFour(obs: map<string, Value>)
    requires CheckCategoricalValues(obs).Pass?
    ensures APR_SEVERITY_CODE in obs
    ensures AsNumber(obs[APR_SEVERITY_CODE]) in {Some(1.0), Some(2.0), Some(3.0), Some(4.0)}
  {
    assert Admits(CATEGORIES[7], obs);
    SeverityCodeDomain(obs[APR_SEVERITY_CODE]);
  }

  /** The integer `observation.get(field)` holds, if it is an `int` instance. */
  function IntField(obs: map<string, Value>, field: string): Option<int> {
    AsInt(Get(obs, field))
  }

  /** The shape shared by check_facility_id and check_birth_weight. */
  function CheckNonNegativeInt(obs: map<string, Value>, field: string): (r: Outcome)
    ensures r.Pass? <==> IntField(obs, field).Some? && IntField(obs, field).value > 0
    ensures r == Fail(FieldMissing(field)) <==> !Truthy(Get(obs, field))
    ensures r == Fail(NotAnInteger(field)) <==> Truthy(Get(obs, field)) && !IsInt(Get(obs, field))
    ensures r == Fail(Negative(field)) <==> IntField(obs, field).Some? && IntField(obs, field).value < 0
    ensures r.Pass? || r.Fail?
  {
    var v := Get(obs, field);
    if !Truthy(v) then Fail(FieldMissing(field))
    else if !IsInt(v) then Fail(NotAnInteger(field))
    else if LessThan(v, 0) == Some(true) then Fail(Negative(field))
    else Pass
  }

  /** The shape shared by the four code checks: a truthy int within [lo, hi]. */
  function CheckCode(obs: map<string, Value>, field: string, lo: int, hi: int): (r: Outcome)
    ensures r.Pass? <==>
      IntField(obs, field).Some? && IntField(obs, field).value != 0 &&
      lo <= IntField(obs, field).value <= hi
    ensures r == Fail(FieldMissing(field)) <==> !Truthy(Get(obs, field))
    ensures r == Fail(NotAnInteger(field)) <==> Truthy(Get(obs, field)) && !IsInt(Get(obs, field))
    ensures r == Fail(Invalid(field)) <==>
      IntField(obs, field).Some? && IntField(obs, field).value != 0 &&
      !(lo <= IntField(obs, field).value <= hi)
    ensures r.Pass? || r.Fail?
  {
    var v := Get(obs, field);
    if !Truthy(v) then Fail(FieldMissing(field))
    else if !IsInt(v) then Fail(NotAnInteger(field))
    else if LessThan(v, lo) == Some(true) || AsInt(v).value > hi then Fail(Invalid(field))
    else Pass
  }

  /** check_facility_id: accepts exactly the positive ints; 0 and absence read as missing. */
  function CheckFacilityId(obs: map<string, Value>): (r: Outcome)
    ensures r.Pass? <==> IntField(obs, FACILITY_ID).Some? && IntField(obs, FACILITY_ID).value >= 1
    ensures FACILITY_ID !in obs || obs[FACILITY_ID] == Int(0) ==> r == Fail(FieldMissing(FACILITY_ID))
    ensures Truthy(Get(obs, FACILITY_ID)) && !IsInt(Get(obs, FACILITY_ID)) ==>
      r == Fail(NotAnInteger(FACILITY_ID))
    ensures IntField(obs, FACILITY_ID).Some? && IntField(obs, FACILITY_ID).value < 0 ==>
      r == Fail(Negative(FACILITY_ID))
    ensures r.Pass? || r.Fail?
  {
    CheckNonNegativeInt(obs, FACILITY_ID)
  }

  /**
   * check_zip_code: accepts exactly "OOS", an int in [100, 200] and a three-digit string;
   * falsy values read as missing, every other value is a format error.
   */
  function CheckZipCode(obs: map<string, Value>): (r: Outcome)
    ensures r.Pass? <==>
      ZIP_CODE in obs &&
      (obs[ZIP_CODE] == Str("OOS") ||
       (obs[ZIP_CODE].Int? && 100 <= obs[ZIP_CODE].i <= 200) ||
       (obs[ZIP_CODE].Str? && |obs[ZIP_CODE].s| == 3 && IsDigits(obs[ZIP_CODE].s)))
    ensures r == Fail(FieldMissing(ZIP_CODE)) <==> !Truthy(Get(obs, ZIP_CODE))
    ensures Truthy(Get(obs, ZIP_CODE)) && !r.Pass? ==> r == Fail(ZipFormat)
  {
    var v := Get(obs, ZIP_CODE);
    if !Truthy(v) then Fail(FieldMissing(ZIP_CODE))
    else if Equal(v, Str("OOS")) then Pass
    else if (IsInt(v) && 100 <= AsInt(v).value <= 200) || (v.Str? && IsDigits(v.s) && |v.s| == 3) then Pass
    else Fail(ZipFormat)
  }

  /** check_ccs_diagnosis_code: accepts exactly the ints in [1, 917]. */
  function CheckCcsDiagnosisCode(obs: map<string, Value>): (r: Outcome)
    ensures r.Pass? <==>
      IntField(obs, CCS_DIAGNOSIS_CODE).Some? && 1 <= IntField(obs, CCS_DIAGNOSIS_CODE).value <= 917
    ensures r == Fail(Invalid(CCS_DIAGNOSIS_CODE)) <==>
      IntField(obs, CCS_DIAGNOSIS_CODE).Some? &&
      (IntField(obs, CCS_DIAGNOSIS_CODE).value < 0 || IntField(obs, CCS_DIAGNOSIS_CODE).value > 917)
    ensures Get(obs, CCS_DIAGNOSIS_CODE) == Int(0) ==> r == Fail(FieldMissing(CCS_DIAGNOSIS_CODE))
    ensures r.Pass? || r.Fail?
  {
    CheckCode(obs, CCS_DIAGNOSIS_CODE, 1, 917)
  }

  /**
   * check_ccs_procedure_code: accepts exactly the ints in [1, 999]. The range test admits 0,
   * but 0 is caught first as missing, so only negatives and ints above 999 are "invalid".
   */
  function CheckCcsProcedureCode(obs: map<string, Value>): (r: Outcome)
    ensures r.Pass? <==>
      IntField(obs, CCS_PROCEDURE_CODE).Some? && 1 <= IntField(obs, CCS_PROCEDURE_CODE).value <= 999
    ensures r == Fail(Invalid(CCS_PROCEDURE_CODE)) <==>
      IntField(obs, CCS_PROCEDURE_CODE).Some? &&
      (IntField(obs, CCS_PROCEDURE_CODE).value < 0 || IntField(obs, CCS_PROCEDURE_CODE).value > 999)
    ensures Get(obs, CCS_PROCEDURE_CODE) == Int(0) ==> r == Fail(FieldMissing(CCS_PROCEDURE_CODE))
    ensures r.Pass? || r.Fail?
  {
    CheckCode(obs, CCS_PROCEDURE_CODE, 0, 999)
  }

  /** check_apr_drg_code: accepts exactly the ints in [1, 956]. */
  function CheckAprDrgCode(obs: map<string, Value>): (r: Outcome)
    ensures r.Pass? <==>
      IntField(obs, APR_DRG_CODE).Some? && 1 <= IntField(obs, APR_DRG_CODE).value <= 956
    ensures r == Fail(Invalid(APR_DRG_CODE)) <==>
      IntField(obs, APR_DRG_CODE).Some? &&
      (IntField(obs, APR_DRG_CODE).value < 0 || IntField(obs, APR_DRG_CODE).value > 956)
    ensures Get(obs, APR_DRG_CODE) == Int(0) ==> r == Fail(FieldMissing(APR_DRG_CODE))
    ensures r.Pass? || r.Fail?
  {
    CheckCode(obs, APR_DRG_CODE, 1, 956)
  }

  /** check_apr_mdc_code: accepts exactly the ints in [1, 25]; 0 is caught as missing. */
  function CheckAprMdcCode(obs: map<string, Value>): (r: Outcome)
    ensures r.Pass? <==>
      IntField(obs, APR_MDC_CODE).Some? && 1 <= IntField(obs, APR_MDC_CODE).value <= 25
    ensures r == Fail(Invalid(APR_MDC_CODE)) <==>
      IntField(obs, APR_MDC_CODE).Some? &&
      (IntField(obs, APR_MDC_CODE).value < 0 || IntField(obs, APR_MDC_CODE).value > 25)
    ensures Get(obs, APR_MDC_CODE) == Int(0) ==> r == Fail(FieldMissing(APR_MDC_CODE))
    ensures r.Pass? || r.Fail?
  {
    CheckCode(obs, APR_MDC_CODE, 0, 25)
  }

  /** check_birth_weight: accepts exactly the positive ints; absence is missing, not a default of 0. */
  function CheckBirthWeight(obs: map<string, Value>): (r: Outcome)
    ensures r.Pass? <==> IntField(obs, BIRTH_WEIGHT).Some? && IntField(obs, BIRTH_WEIGHT).value >= 1
    ensures BIRTH_WEIGHT !in obs || obs[BIRTH_WEIGHT] == Int(0) ==> r == Fail(FieldMissing(BIRTH_WEIGHT))
    ensures IntField(obs, BIRTH_WEIGHT).Some? && IntField(obs, BIRTH_WEIGHT).value < 0 ==>
      r == Fail(Negative(BIRTH_WEIGHT))
    ensures r.Pass? || r.Fail?
  {
    CheckNonNegativeInt(obs, BIRTH_WEIGHT)
  }

  /**
   * check_attending_provider_number: every truthy int passes, negatives included, because the
   * int test comes before the sign test; so does every non-zero integral float. A non-integral float
   * is "negative" below zero and a format error above; a non-empty string raises TypeError.
   */
  function CheckAttendingProviderNumber(obs: map<string, Value>): (r: Outcome)
    ensures var v := Get(obs, ATTENDING_LICENSE);
      r.Pass? <==> Truthy(v) && (IsInt(v) || (v.Float? && IsIntegral(v.r)))
    ensures IntField(obs, ATTENDING_LICENSE).Some? && IntField(obs, ATTENDING_LICENSE).value < 0 ==> r.Pass?
    ensures var v := Get(obs, ATTENDING_LICENSE);
      r == Fail(Negative(ATTENDING_LICENSE)) <==> v.Float? && v.r < 0.0 && !IsIntegral(v.r)
    ensures var v := Get(obs, ATTENDING_LICENSE);
      r == Fail(LicenseFormat) <==> v.Float? && v.r > 0.0 && !IsIntegral(v.r)
    ensures var v := Get(obs, ATTENDING_LICENSE);
      r.RaisesTypeError? <==> v.Str? && v.s != ""
    ensures r == Fail(FieldMissing(ATTENDING_LICENSE)) <==> !Truthy(Get(obs, ATTENDING_LICENSE))
  {
    var v := Get(obs, ATTENDING_LICENSE);
    if !Truthy(v) then Fail(FieldMissing(ATTENDING_LICENSE))
    else if IsInt(v) then Pass
    else if v.Float? && IsIntegral(v.r) then Pass
    else
      match LessThan(v, 0)
      case None => RaisesTypeError
      case Some(negative) => if negative then Fail(Negative(ATTENDING_LICENSE)) else Fail(LicenseFormat)
  }
}
