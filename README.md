# Hospital-admission observation validation

A Dafny model of the input validation of a hospital-admission risk classifier service. Two drafts of the
validator exist, and both are modelled:

- `dev/app_camila.py` is a set of independent field checkers. Each one returns `(bool, message)`. They cover the
  request envelope, the exact column set, the categorical domains, the integer codes (Facility Id, CCS Diagnosis and
  Procedure, APR DRG and MDC, Birth Weight), the Zip Code format and the Attending Provider License Number. Module
  `Checkers` (`checkers.dfy`) gives each checker as a function of the observation. `Outcome` stands for the pair:
  `Pass` is `(True, "")` and `Fail(e)` is `(False, message)`. A third variant stands for the `TypeError` one
  checker can raise.
- `app.py` is a fail-fast pipeline. It pops `observation_id` out of the caller's payload in place. It then rejects
  the first unrecognised key and the first missing mandatory key. Next it checks the categorical domains in map
  order, and last it matches the zip code against `\b(\d{3}|OOS)\b`. Module `App` (`app.dfy`) models the payload
  as a class `Payload`. Its fields are the key order (`seq<string>`) and the entries (`map<string, Value>`).
  `Pop`, `CheckValidColumns` and `CheckInput` are methods that change the payload. `Pop` states its new entries
  and key order directly. `CheckValidColumns` and `CheckInput` are proved equal to specification functions
  (`ColumnCheck`, `InputCheck`), and the properties are stated on those functions.

Module `Python` (`python.dfy`) models the Python semantics the checks rely on. A JSON scalar is a `Value`:
`Int | Float(real) | Str | Bool | Null`. On top of it the module defines truthiness (`0`, `0.0`, `""`, `False`,
`None` and an absent key are falsy) and `isinstance(_, int)`, which includes `bool`. It also defines `==`, which
compares numbers by value across int, bool and float, and `in` on a list. The rest are `dict.get`, the key order
after `dict.pop`, `< 0`, `float.is_integer`, `str.isdigit` and the regex word boundary.

Module `Search` (`search.dfy`) holds the first-failure scans both drafts run.

## Model

| member | source | states |
|---|---|---|
| `Checkers.CheckRequest` | dev/app_camila.py:17-30 | passes iff both "id" and "observation" are keys; with both absent the "id" error is the one reported |
| `Checkers.CheckValidColumn` | dev/app_camila.py:31-82 | passes iff the key set equals the 33-name column set, observation_id included; missing columns are reported (as the exact missing set) before extra ones |
| `Checkers.CheckCategoricalValues` | dev/app_camila.py:83-132 | passes iff every category of the map is present with a value `in` its list; otherwise the error names the first failing category in map order: "missing" when absent, the value and list when present |
| `Checkers.SeverityCodeDomain` | dev/app_camila.py:107 | the list [1, 2, 3, 4] admits exactly the values numerically equal to 1 to 4 (so True and 2.0 pass too) |
| `Checkers.SeverityCodeIsOneToFour` | dev/app_camila.py:107-128 | an observation passing the categorical check has an APR Severity of Illness Code numerically among 1 to 4 |
| `Checkers.CheckNonNegativeInt` | dev/app_camila.py:140-150 | the shared shape of the Facility Id and Birth Weight checks: passes iff the value is an int above 0; falsy is "missing", a non-int is "not an integer", a negative int is "negative" |
| `Checkers.CheckCode` | dev/app_camila.py:168-178 | the shared shape of the four code checks: passes iff the value is a non-zero int in [lo, hi]; falsy is "missing", a non-int is "not an integer", a non-zero int outside the range is "invalid" |
| `Checkers.CheckFacilityId` | dev/app_camila.py:133-150 | accepts exactly the positive ints; absence and 0 give "missing", truthy non-ints such as 5.0 or "5" give "not an integer", negatives give "negative" |
| `Checkers.CheckZipCode` | dev/app_camila.py:151-165 | accepts exactly "OOS", an int in [100, 200] and a three-digit string; falsy values give "missing", every other value the format error |
| `Checkers.CheckCcsDiagnosisCode` | dev/app_camila.py:166-178 | accepts exactly the ints in [1, 917]; 0 gives "missing"; a negative int or one above 917 gives "invalid" |
| `Checkers.CheckCcsProcedureCode` | dev/app_camila.py:179-191 | accepts exactly the ints in [1, 999]; 0 is caught as missing although the range test admits it, so "invalid" means negative or above 999 |
| `Checkers.CheckAprDrgCode` | dev/app_camila.py:192-204 | accepts exactly the ints in [1, 956]; 0 gives "missing"; outside the range gives "invalid" |
| `Checkers.CheckAprMdcCode` | dev/app_camila.py:205-217 | accepts exactly the ints in [1, 25]; 0 gives "missing" although the range test admits it |
| `Checkers.CheckBirthWeight` | dev/app_camila.py:218-230 | accepts exactly the positive ints; absence or 0 gives "missing", not a default of 0; negatives give "negative" |
| `Checkers.CheckAttendingProviderNumber` | dev/app_camila.py:232-246 | accepts every truthy int, negatives included, and every non-zero integral float (0.0 is falsy and gives "missing"). A non-integral float gives "negative" below 0 and the format error above 0. A non-empty string raises TypeError |
| `Checkers.Message` | dev/app_camila.py:130-246 | the message half of a failure with fixed text: every per-field message names its field in backquotes right after "Field "; the categorical-missing message names its category (the corrected text, see Findings) |
| `Checkers.AsWrittenMissingMessageIgnoresField` | dev/app_camila.py:130 | as written, any two observations the categorical check rejects for a missing category get the same message, whichever category is missing |
| `Checkers.MissingCategoriesDiffer` | dev/app_camila.py:83-131 | the empty observation is reported missing "Health Service Area" and one holding only a valid service area is reported missing "Age Group": two different first missing categories |
| `Checkers.MissingMessageNamesField` | dev/app_camila.py:130 | with the placeholder filled in, different missing categories produce different messages |
| `Python.ContainsStrs` | app.py:153 | `value in` a list of strings holds exactly for a str equal to one of them |
| `Python.Without` | app.py:110 | after `pop(k)` the keys are the old keys without k; k absent leaves them unchanged; distinct keys stay distinct |
| `Python.WithoutKeepsOrder` | app.py:110 | `pop(k)` keeps the other keys in their insertion order |
| `Search.FirstOutside` | app.py:114-120 | the position where an early-exit scan stops: every earlier element is in the set, and the element there is not |
| `Search.FirstRejected` | app.py:151-156 | the position where a scan over a category map stops: every earlier category is present with an allowed value, and the one there is not |
| `App.Payload.Pop` | app.py:109-112 | returns the popped value, or None for the KeyError; removes just that key and keeps the order of the others |
| `App.Payload.CheckValidColumns` | app.py:47-122 | pops observation_id from the payload in place, changing no other entry, and returns what `ColumnCheck` specifies for the old payload |
| `App.ColumnCheck` | app.py:109-122 | the "no ID" error is returned exactly when the id is absent, and then with a null id. Otherwise it accepts iff every other key is recognised and every mandatory column is present. An error names the first unrecognised key in iteration order, or, when all keys are recognised, the first missing mandatory column in list order. On acceptance the observation is the payload without the id |
| `App.AsWrittenColumnCheckNeverAccepts` | app.py:54-107 | with the column lists as written no payload is accepted: with an id, "Patient Disposition" present gives an unrecognised-feature error, and absent gives an unrecognised-feature or missing-feature error |
| `App.CorrectedColumnCheckAcceptsMandatoryPayload` | app.py:54-107 | with "Patient Disposition" added to the recognised list, a payload holding exactly the id and the mandatory columns is accepted, with the id removed |
| `App.ZipPatternMatches` | app.py:157-158 | the pattern matches iff the string starts with three digits or "OOS" followed by its end or a non-word character; a fourth digit never matches |
| `App.CategoricalCheck` | app.py:124-160 | accepts iff every category is present with an allowed value and the zip code is a matching string. Otherwise it reports the first failing category in map order; a KeyError names either that first failing category, when it is absent, or the zip code, when every category passed and the zip code is absent; a zip code that is not a string raises TypeError |
| `App.Message` | app.py:112-159 | every rejection text starts with "Error: ", and the unknown- and missing-feature texts name the feature right after it |
| `App.MessageIdentifiesError` | app.py:112-159 | different rejections (other than the invalid-value one) have different texts |
| `App.CategoricalLookupsCannotMiss` | app.py:132-158 | every category and the zip code are mandatory, so once the mandatory columns are present the categorical check cannot raise KeyError |
| `App.InputCheck` | app.py:165-171 | with the corrected column list: a column-step error is returned unchanged, and once the column step accepts the result is exactly the categorical step's response on the id and the observation without it. It accepts iff the id is present, every key is recognised, every mandatory column is present, every category is allowed and the zip matches. The only exception it can raise is the TypeError of a non-string zip |
| `App.Payload.CheckInput` | app.py:165-171 | with the corrected column list: pops observation_id from the payload in place and returns what `InputCheck` specifies for the old payload |

## Left out

- HTTP plumbing is left out: Flask routing, `request.get_json`, `jsonify`, the `print` in `respond_error` and
  `app.run`. Responses are the `Response` datatype, and a rejection carries the id (or null) and the error.
- The `predict` and `update` route bodies (app.py:174-232) are left out. Their inference and storage code is
  commented out, and `predict` refers to an undefined name (app.py:205). The prediction and update services and
  the record store have no live code beyond the id extraction in `update` (app.py:213-218, 231-232) and the
  `check_input` call in `predict` (app.py:180).
- The database, model and data-loading libraries (peewee/SQLite, pickle, joblib, pandas) are left out. They are
  unused or commented out.
- In app.py, `re` is never imported, so line 158 would raise NameError. The model gives the intended
  `re.match(r"\b(\d{3}|OOS)\b", zip)` instead.
- In app.py, `check_input` tests `'error' in response` on the Flask Response object each step returns (app.py:167,
  170), and `check_categorical_values` indexes that object for the id and the observation (app.py:152, 156, 158).
  The model passes the categorical step the id and the observation that the column step produced. `check_input`
  falls off its end, returning None, when
  every step passes; `App.InputCheck` returns `Accepted` there.
- `App.Payload.CheckValidColumns` takes the recognised-column list as a parameter, so that the list as written and
  the corrected list can both be checked. `App.Payload.CheckInput` uses the corrected list (see Findings).
- Error texts are kept as structured errors where the source renders an arbitrary Python object with `str()`: the
  request dict in `check_request`, the missing and extra column sets in `check_valid_column`, and the offending
  value in both invalid-value messages (a float, for one, appears in its shortest decimal form). Those messages
  also join the allowed values as `'v1','v2',…`. Each error carries the data instead of the rendered text.
  `App.Message` and `Checkers.Message` give
  the exact text of the other errors, except that `Checkers.Message` renders the categorical-missing text with
  the field filled in, the corrected text of the second finding below.
- `Checkers.CheckRequest` models the request by its set of keys, the only thing the check inspects.
- JSON arrays and objects as field values are not modelled. The payload is a flat object of scalars.
- Floats are reals: NaN, infinities and rounding are not modelled. `is_integer` is `r == r.Floor`.
- Digits and word characters are ASCII. The Unicode behaviour of `str.isdigit`, `\d` and `\w` is not modelled.
- Building a dict from JSON text (duplicate keys, parse errors) is not modelled. `App.Payload`'s constructor takes
  an insertion order and entries that already agree.
- dev/app_gonçalo.py, a third draft, is not modelled.
- Birth Weight and Facility Id get no default and no string-to-number coercion: in dev/app_camila.py absence and 0
  are "missing", and non-empty strings are "not an integer".

## Findings

| source | as written | input that shows it | evidently intended | confidence | as-written member | corrected member |
|---|---|---|---|---|---|---|
| app.py:63 | "Patient Disposition" is mandatory but missing from `valid_columns` (app.py:76-107), so `check_valid_columns` rejects every payload that has an id | a payload holding exactly `observation_id` and the 21 mandatory columns is rejected with "Error: Patient Disposition is not a valid feature." | that payload is accepted; every mandatory column is a recognised one | not executed; high | `App.AsWrittenColumnCheckNeverAccepts` | `App.CorrectedColumnCheckAcceptsMandatoryPayload` |
| dev/app_camila.py:130 | the message `"Categorical field {} missing"` is never formatted, so it does not name the field | an observation lacking "Health Service Area" and one lacking "Gender" get the same message | the message names the missing category | not executed; high | `Checkers.AsWrittenMissingMessageIgnoresField` | `Checkers.MissingMessageNamesField` |
