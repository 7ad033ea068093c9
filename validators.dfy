/**
 * Configuration validators: a value is accepted exactly when it lies in a
 * closed finite set, and is then returned unchanged.
 */
module Validators {
  import opened Wrappers
  import opened Exceptions
  import Api

  const TideIntervals: set<int> := {10, 60}
  /** display name -> API language code */
  const TideLanguages: map<string, string> := map["bokmal" := "nb", "nynorsk" := "nn", "english" := "en"]
  /** unit -> millimetres per unit factor */
  const TideUnits: map<string, real> :=
    map["mm" := 1.0, "cm" := 10.0, "m" := 1000.0, "in" := 0.0393700787, "ft" := 0.0032808399]

  /**
   * `contains_value` as written: `vol` is never imported, so the rejecting
   * branch fails on the name `vol` before any `Invalid` is built.
   */
  function ContainsValueAsWritten<T(==)>(name: string, value: T, allowed: set<T>): (r: Result<T, Exception>)
    ensures r.Ok? <==> value in allowed
    ensures r.Ok? ==> r.value == value
    ensures r.Err? ==> r.error == NameError("vol")
  {
    if value in allowed then Ok(value) else Err(NameError("vol"))
  }

  /** A rejected interval surfaces as a NameError, not as a validation error. */
  lemma RejectionIsNameErrorAsWritten()
    ensures ContainsValueAsWritten("tide interval", 30, TideIntervals) == Err(NameError("vol"))
    ensures !ContainsValueAsWritten("tide interval", 30, TideIntervals).error.Invalid?
  {
  }

  /**
   * `contains_value` as intended: the value back when it is in `allowed`,
   * otherwise a validation error naming the setting.
   */
  function ContainsValue<T(==)>(name: string, value: T, allowed: set<T>): (r: Result<T, Exception>)
    ensures r.Ok? <==> value in allowed
    ensures r.Ok? ==> r.value == value
    ensures r.Err? ==> r.error == Invalid(name)
  {
    if value in allowed then Ok(value) else Err(Invalid(name))
  }

  /** Validation is idempotent: what is accepted validates again to itself. */
  lemma ContainsValueIdempotent<T>(name: string, value: T, allowed: set<T>)
    requires ContainsValue(name, value, allowed).Ok?
    ensures var v := ContainsValue(name, value, allowed).value;
            ContainsValue(name, v, allowed) == Ok(v)
  {
  }

  /** `tide_interval`, on the corrected `contains_value`. */
  function TideInterval(interval: int): (r: Result<int, Exception>)
    ensures r.Ok? <==> interval == 10 || interval == 60
    ensures r.Ok? ==> r.value == interval
    ensures r.Err? ==> r.error == Invalid("tide interval")
  {
    ContainsValue("tide interval", interval, TideIntervals)
  }

  /** `tide_unit`, on the corrected `contains_value`. */
  function TideUnit(unit: string): (r: Result<string, Exception>)
    ensures r.Ok? <==> unit == "mm" || unit == "cm" || unit == "m" || unit == "in" || unit == "ft"
    ensures r.Ok? ==> r.value == unit
    ensures r.Err? ==> r.error == Invalid("tide unit")
  {
    ContainsValue("tide unit", unit, TideUnits.Keys)
  }

  /** `tide_language`, on the corrected `contains_value`: accepts the language names, not the codes the API sends. */
  function TideLanguage(language: string): (r: Result<string, Exception>)
    ensures r.Ok? <==> language == "bokmal" || language == "nynorsk" || language == "english"
    ensures r.Ok? ==> r.value == language
    ensures r.Err? ==> r.error == Invalid("tide language")
  {
    ContainsValue("tide language", language, TideLanguages.Keys)
  }

  /** Every `Interval` member's value is an accepted interval, and nothing else is. */
  lemma IntervalsAgreeWithApi(interval: int)
    ensures TideInterval(interval).Ok? <==> exists m: Api.Interval :: m.Value() == interval
  {
    if interval == 10 {
      assert Api.Interval.Low.Value() == 10;
    } else if interval == 60 {
      assert Api.Interval.High.Value() == 60;
    }
  }

  /** No `Language` code passes `tide_language`; the names map onto exactly those codes. */
  lemma LanguageCodesRejected(m: Api.Language)
    ensures TideLanguage(m.Value()).Err?
    ensures m.Value() in TideLanguages.Values
  {
    match m
    case NB => assert TideLanguages["bokmal"] == "nb";
    case NN => assert TideLanguages["nynorsk"] == "nn";
    case EN => assert TideLanguages["english"] == "en";
  }
}
