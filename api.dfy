/**
 * The tide client: validated `interval`/`lang` attributes, request
 * parameters, the status branch of a fetch, the two cached documents and
 * the values derived from them. The HTTP GET is the parameter `get`, the
 * clock's `fromtime` a string parameter, and `float`/`datetime.fromisoformat`
 * the conversion parameters `toFloat`/`fromIso`.
 */
module Api {
  import opened Wrappers
  import opened Exceptions
  import opened Text
  import opened Xml
  import opened Data

  /** `Interval(IntEnum)`: LOW = 10, HIGH = 60. */
  datatype Interval = Low | High
  {
    function Value(): int { if Low? then 10 else 60 }
    function Name(): string { if Low? then "Interval.LOW" else "Interval.HIGH" }
    /** How the rejection message lists the member: `Interval.LOW (10)`. */
    function Listing(): string { Name() + " (" + IntToString(Value()) + ")" }
  }

  const IntervalMembers: seq<Interval> := [Low, High]

  /** `Language(Enum)`: NB = "nb", NN = "nn", EN = "en". */
  datatype Language = NB | NN | EN
  {
    function Value(): string { match this case NB => "nb" case NN => "nn" case EN => "en" }
    function Name(): string { match this case NB => "Language.NB" case NN => "Language.NN" case EN => "Language.EN" }
    function Listing(): string { Name() + " (" + Value() + ")" }
  }

  const LanguageMembers: seq<Language> := [NB, NN, EN]

  /** A plain Python value handed to an enum attribute instead of a member. */
  datatype PyValue = PyInt(i: int) | PyStr(s: string) | PyNone

  /** `str(v)` */
  function Str(v: PyValue): string
  {
    match v
    case PyInt(i) => IntToString(i)
    case PyStr(s) => s
    case PyNone => "None"
  }

  /** What is assigned to an enum attribute: a member, or some other value. */
  datatype EnumArg<E> = Member(member: E) | Raw(raw: PyValue)

  /** The ValueError text of `EnumAttribute.__set__`. */
  function RejectionMessage(shown: string, attr: string, listings: seq<string>): (msg: string)
    ensures Contains(msg, shown) && Contains(msg, attr)
    ensures forall k :: 0 <= k < |listings| ==> Contains(msg, listings[k])
  {
    var head := "Invalid value '" + shown + "' for attribute `";
    var msg := head + attr + "` must be one of: " + Join(", ", listings);
    ContainsMiddle("Invalid value '", shown, "' for attribute `" + attr + "` must be one of: " + Join(", ", listings));
    assert msg == "Invalid value '" + shown + ("' for attribute `" + attr + "` must be one of: " + Join(", ", listings));
    ContainsMiddle(head, attr, "` must be one of: " + Join(", ", listings));
    assert msg == head + attr + ("` must be one of: " + Join(", ", listings));
    forall k | 0 <= k < |listings|
      ensures Contains(msg, listings[k])
    {
      JoinContainsPart(", ", listings, k);
      ContainsWithin(head + attr + "` must be one of: ", Join(", ", listings), "", listings[k]);
      assert msg == head + attr + "` must be one of: " + Join(", ", listings) + "";
    }
    msg
  }

  function IntervalListings(): seq<string>
  {
    seq(|IntervalMembers|, k requires 0 <= k < |IntervalMembers| => IntervalMembers[k].Listing())
  }

  function LanguageListings(): seq<string>
  {
    seq(|LanguageMembers|, k requires 0 <= k < |LanguageMembers| => LanguageMembers[k].Listing())
  }

  /** `v in Interval.__members__.values()`: an IntEnum member equals its int. */
  predicate EqualsIntervalMember(v: PyValue)
  {
    v.PyInt? && (v.i == 10 || v.i == 60)
  }

  /**
   * `EnumAttribute.__set__` for `interval`: the value stored, or the exception raised.
   * A raw 10 or 60 passes the membership test but has no `.value`.
   */
  function AssignInterval(arg: EnumArg<Interval>): (r: Result<int, Exception>)
    ensures r.Ok? <==> arg.Member?
    ensures r.Ok? ==> r.value == arg.member.Value() && (r.value == 10 || r.value == 60)
    ensures r == Err(AttributeError("value")) <==> arg.Raw? && EqualsIntervalMember(arg.raw)
    ensures r.Err? && !r.error.AttributeError? ==>
              && r.error.ValueError?
              && Contains(r.error.message, "interval")
              && Contains(r.error.message, Str(arg.raw))
              && forall k :: 0 <= k < |IntervalMembers| ==> Contains(r.error.message, IntervalMembers[k].Listing())
  {
    match arg
    case Member(m) => Ok(m.Value())
    case Raw(v) =>
      if EqualsIntervalMember(v) then Err(AttributeError("value"))
      else Err(ValueError(RejectionMessage(Str(v), "interval", IntervalListings())))
  }

  /** `EnumAttribute.__set__` for `lang`: no plain value equals a `Language` member. */
  function AssignLanguage(arg: EnumArg<Language>): (r: Result<string, Exception>)
    ensures r.Ok? <==> arg.Member?
    ensures r.Ok? ==> r.value == arg.member.Value() && r.value in {"nb", "nn", "en"}
    ensures r.Err? ==>
              && r.error.ValueError?
              && Contains(r.error.message, "lang")
              && Contains(r.error.message, Str(arg.raw))
              && forall k :: 0 <= k < |LanguageMembers| ==> Contains(r.error.message, LanguageMembers[k].Listing())
  {
    match arg
    case Member(m) => Ok(m.Value())
    case Raw(v) => Err(ValueError(RejectionMessage(Str(v), "lang", LanguageListings())))
  }

  /** A query parameter value. */
  datatype ParamValue = PFloat(f: real) | PInt(n: int) | PStr(s: string)

  type Params = map<string, ParamValue>

  const Datatypes: seq<string> := ["all", "tab"]

  const DatatypeMessage: string := "URL param `datatype` must be one of all, tab"

  /** The response body: XML that `ElementTree.fromstring` accepts, or not. */
  datatype Body = Xml(root: Element) | Malformed

  datatype Response = Response(status: int, body: Body)

  /** The status branch of `update_by_datatype`: non-200 is no document, 200 the parse of the body. */
  function FetchOutcome(resp: Response): (r: Result<Option<KartverketTideData>, Exception>)
    ensures r == Ok(None) <==> resp.status != 200
    ensures resp.status == 200 ==> (r.Ok? <==> resp.body.Xml? && ParseTideData(resp.body.root).Ok?)
    ensures r.Ok? && r.value.Some? ==> resp.body.Xml? && ParseTideData(resp.body.root) == Ok(r.value.value)
    ensures resp.status == 200 && resp.body.Malformed? ==> r == Err(XmlParseError)
    ensures resp.status == 200 && resp.body.Xml? && ParseTideData(resp.body.root).Err? ==>
              r == Err(ParseTideData(resp.body.root).error)
  {
    if resp.status != 200 then Ok(None)
    else match resp.body
      case Malformed => Err(XmlParseError)
      case Xml(root) =>
        match ParseTideData(root)
        case Ok(doc) => Ok(Some(doc))
        case Err(e) => Err(e)
  }

  /** `float(...)`, `datetime.fromisoformat(...)` applied to an optional attribute: None is a TypeError. */
  function Convert<T>(s: Option<string>, conv: string -> Result<T, Exception>): (r: Result<T, Exception>)
    ensures s.None? ==> r == Err(TypeError)
    ensures s.Some? ==> r == conv(s.value)
  {
    if s.None? then Err(TypeError) else conv(s.value)
  }

  /** `doc.data[0].waterlevels` */
  function FirstSeries(doc: Option<KartverketTideData>): (r: Result<seq<TideWaterLevel>, Exception>)
    ensures doc.None? ==> r == Err(AttributeError("data"))
    ensures doc.Some? && doc.value.data == [] ==> r == Err(IndexError)
    ensures r.Ok? ==> doc.Some? && |doc.value.data| > 0 && r.value == doc.value.data[0].waterlevels
  {
    if doc.None? then Err(AttributeError("data"))
    else if doc.value.data == [] then Err(IndexError)
    else Ok(doc.value.data[0].waterlevels)
  }

  /** `doc.data[0].waterlevels[0]` */
  function FirstEntry(doc: Option<KartverketTideData>): (r: Result<TideWaterLevel, Exception>)
    ensures FirstSeries(doc).Err? ==> r == Err(FirstSeries(doc).error)
    ensures FirstSeries(doc) == Ok([]) ==> r == Err(IndexError)
    ensures r.Ok? ==> FirstSeries(doc).Ok? && |FirstSeries(doc).value| > 0 && r.value == FirstSeries(doc).value[0]
  {
    match FirstSeries(doc)
    case Err(e) => Err(e)
    case Ok(wls) => if wls == [] then Err(IndexError) else Ok(wls[0])
  }

  /** The next tidal extreme: its time, flag and value. */
  datatype Extreme<D, F> = Extreme(time: D, flag: Option<string>, value: F)

  /** The dictionary `waterlevel_series` returns. */
  datatype Series<D, F> = Series(timestamp: seq<D>, waterlevel: seq<F>)

  /**
   * The loop of `waterlevel_series` over the entries `wls`, entry by entry
   * (time first, then value); the first failing conversion is what is raised.
   */
  function SeriesOf<D, F>(wls: seq<TideWaterLevel>, fromIso: string -> Result<D, Exception>,
                          toFloat: string -> Result<F, Exception>): Result<Series<D, F>, Exception>
  {
    if wls == [] then Ok(Series([], []))
    else
      match SeriesOf(wls[..|wls| - 1], fromIso, toFloat)
      case Err(e) => Err(e)
      case Ok(s) =>
        match Convert(wls[|wls| - 1].time, fromIso)
        case Err(e) => Err(e)
        case Ok(t) =>
          match Convert(wls[|wls| - 1].value, toFloat)
          case Err(e) => Err(e)
          case Ok(v) => Ok(Series(s.timestamp + [t], s.waterlevel + [v]))
  }

  /** Every entry of `wls` converts. */
  ghost predicate AllConvert<D, F>(wls: seq<TideWaterLevel>, fromIso: string -> Result<D, Exception>,
                                   toFloat: string -> Result<F, Exception>)
  {
    forall i :: 0 <= i < |wls| ==> Convert(wls[i].time, fromIso).Ok? && Convert(wls[i].value, toFloat).Ok?
  }

  /**
   * The series succeeds exactly when every entry converts, and then it holds
   * two lists as long as `wls`, the ith timestamp and value from the ith entry.
   */
  lemma {:induction false} SeriesOfShape<D, F>(wls: seq<TideWaterLevel>, fromIso: string -> Result<D, Exception>,
                                               toFloat: string -> Result<F, Exception>)
    ensures SeriesOf(wls, fromIso, toFloat).Ok? <==> AllConvert(wls, fromIso, toFloat)
    ensures SeriesOf(wls, fromIso, toFloat).Ok? ==>
              var s := SeriesOf(wls, fromIso, toFloat).value;
              && |s.timestamp| == |wls| && |s.waterlevel| == |wls|
              && forall i :: 0 <= i < |wls| ==>
                   Convert(wls[i].time, fromIso) == Ok(s.timestamp[i]) && Convert(wls[i].value, toFloat) == Ok(s.waterlevel[i])
  {
    if wls != [] {
      var init := wls[..|wls| - 1];
      SeriesOfShape(init, fromIso, toFloat);
      assert forall i :: 0 <= i < |init| ==> init[i] == wls[i];
      if AllConvert(wls, fromIso, toFloat) {
        assert AllConvert(init, fromIso, toFloat);
      }
    }
  }

  /** Once a prefix of the entries fails, the whole series fails the same way. */
  lemma {:induction false} SeriesOfPrefixErr<D, F>(wls: seq<TideWaterLevel>, k: nat, fromIso: string -> Result<D, Exception>,
                                                   toFloat: string -> Result<F, Exception>)
    requires k <= |wls| && SeriesOf(wls[..k], fromIso, toFloat).Err?
    ensures SeriesOf(wls, fromIso, toFloat) == SeriesOf(wls[..k], fromIso, toFloat)
    decreases |wls| - k
  {
    if k < |wls| {
      var next := wls[..k + 1];
      assert next[..|next| - 1] == wls[..k];
      SeriesOfPrefixErr(wls, k + 1, fromIso, toFloat);
    } else {
      assert wls[..k] == wls;
    }
  }

  /** `waterlevel_series` of a cached document. */
  function SeriesOfDocument<D, F>(doc: Option<KartverketTideData>, fromIso: string -> Result<D, Exception>,
                                  toFloat: string -> Result<F, Exception>): Result<Series<D, F>, Exception>
  {
    match FirstSeries(doc)
    case Err(e) => Err(e)
    case Ok(wls) => SeriesOf(wls, fromIso, toFloat)
  }

  class KartverketTideApi {
    var lat: real
    var lon: real
    /** `obj.__dict__["interval"]`: the stored member value, once assigned */
    var intervalSlot: Option<int>
    /** `obj.__dict__["lang"]` */
    var langSlot: Option<string>
    /** the last "all" document; None until fetched and after a failed fetch */
    var tideSeries: Option<KartverketTideData>
    /** the last "tab" document */
    var tideExtremes: Option<KartverketTideData>

    /** Both enum attributes hold one of their members' values. */
    ghost predicate Valid()
      reads this
    {
      && intervalSlot.Some? && (intervalSlot.value == 10 || intervalSlot.value == 60)
      && langSlot.Some? && langSlot.value in {"nb", "nn", "en"}
    }

    /** The object as `__init__` leaves it before `interval` and `lang` are assigned. */
    constructor Blank(lat: real, lon: real)
      ensures this.lat == lat && this.lon == lon
      ensures intervalSlot.None? && langSlot.None? && tideSeries.None? && tideExtremes.None?
    {
      this.lat, this.lon := lat, lon;
      intervalSlot, langSlot := None, None;
      tideSeries, tideExtremes := None, None;
    }

    /**
     * `KartverketTideApi(lat, lon, interval, lang)`: an invalid interval fails
     * construction first, then an invalid language; otherwise both are stored.
     */
    static method Create(lat: real, lon: real, interval: EnumArg<Interval>, lang: EnumArg<Language>)
      returns (r: Result<KartverketTideApi, Exception>)
      ensures r.Ok? <==> interval.Member? && lang.Member?
      ensures AssignInterval(interval).Err? ==> r == Err(AssignInterval(interval).error)
      ensures AssignInterval(interval).Ok? && AssignLanguage(lang).Err? ==> r == Err(AssignLanguage(lang).error)
      ensures r.Ok? ==>
                && fresh(r.value) && r.value.Valid()
                && r.value.lat == lat && r.value.lon == lon
                && r.value.GetInterval() == Ok(interval.member.Value())
                && r.value.GetLang() == Ok(lang.member.Value())
                && r.value.tideSeries.None? && r.value.tideExtremes.None?
    {
      var api := new KartverketTideApi.Blank(lat, lon);
      var raised := api.SetInterval(interval);
      if raised.Some? { return Err(raised.value); }
      raised := api.SetLang(lang);
      if raised.Some? { return Err(raised.value); }
      return Ok(api);
    }

    /** `EnumAttribute.__get__` for `interval`: a KeyError before the first assignment. */
    function GetInterval(): (r: Result<int, Exception>)
      reads this
      ensures r.Ok? <==> intervalSlot.Some?
      ensures r.Err? ==> r.error == KeyError("interval")
    {
      if intervalSlot.Some? then Ok(intervalSlot.value) else Err(KeyError("interval"))
    }

    function GetLang(): (r: Result<string, Exception>)
      reads this
      ensures r.Ok? <==> langSlot.Some?
      ensures r.Err? ==> r.error == KeyError("lang")
    {
      if langSlot.Some? then Ok(langSlot.value) else Err(KeyError("lang"))
    }

    /**
     * `self.interval = arg`: a member stores its value, which reads back;
     * anything else raises before anything is stored.
     */
    method SetInterval(arg: EnumArg<Interval>) returns (raised: Option<Exception>)
      modifies this`intervalSlot
      ensures old(Valid()) ==> Valid()
      ensures raised.None? <==> arg.Member?
      ensures raised.Some? ==> raised.value == AssignInterval(arg).error && intervalSlot == old(intervalSlot)
      ensures raised.None? ==> GetInterval() == Ok(arg.member.Value())
    {
      match AssignInterval(arg)
      case Err(e) => raised := Some(e);
      case Ok(v) => intervalSlot := Some(v); raised := None;
    }

    method SetLang(arg: EnumArg<Language>) returns (raised: Option<Exception>)
      modifies this`langSlot
      ensures old(Valid()) ==> Valid()
      ensures raised.None? <==> arg.Member?
      ensures raised.Some? ==> raised.value == AssignLanguage(arg).error && langSlot == old(langSlot)
      ensures raised.None? ==> GetLang() == Ok(arg.member.Value())
    {
      match AssignLanguage(arg)
      case Err(e) => raised := Some(e);
      case Ok(v) => langSlot := Some(v); raised := None;
    }

    /** The `api_params` dictionary of `update_by_datatype`. */
    function Request(dataType: string, fromtime: string): (p: Params)
      reads this
      requires Valid()
      ensures p.Keys == {"lat", "lon", "lang", "interval", "datatype", "fromtime", "tzone", "dst", "tide_request"}
      ensures p["lat"] == PFloat(lat) && p["lon"] == PFloat(lon)
      ensures p["lang"].PStr? && GetLang() == Ok(p["lang"].s)
      ensures p["interval"].PInt? && GetInterval() == Ok(p["interval"].n)
      ensures p["datatype"] == PStr(dataType) && p["fromtime"] == PStr(fromtime)
      ensures p["tzone"] == PInt(0) && p["dst"] == PInt(0) && p["tide_request"] == PStr("locationdata")
    {
      map["lat" := PFloat(lat), "lon" := PFloat(lon), "lang" := PStr(langSlot.value),
          "interval" := PInt(intervalSlot.value), "datatype" := PStr(dataType),
          "fromtime" := PStr(fromtime), "tzone" := PInt(0), "dst" := PInt(0),
          "tide_request" := PStr("locationdata")]
    }

    /**
     * `update_by_datatype`: a datatype other than "all" or "tab" raises before
     * any request; otherwise the request is issued and its response decided.
     */
    method UpdateByDatatype(dataType: string, fromtime: string, get: Params -> Response)
      returns (request: Option<Params>, r: Result<Option<KartverketTideData>, Exception>)
      requires Valid()
      ensures request.None? <==> dataType !in Datatypes
      ensures request.None? ==> r == Err(ValueError(DatatypeMessage))
      ensures request.Some? ==> request.value == Request(dataType, fromtime) && r == FetchOutcome(get(request.value))
    {
      if dataType !in Datatypes {
        return None, Err(ValueError(DatatypeMessage));
      }
      var params := Request(dataType, fromtime);
      var response := get(params);
      return Some(params), FetchOutcome(response);
    }

    /**
     * `update`: the "all" fetch replaces `tide_series` wholesale, then the "tab"
     * fetch replaces `tide_extremes`; a raised exception stops there.
     */
    method Update(fromtimeAll: string, fromtimeTab: string, get: Params -> Response)
      returns (raised: Option<Exception>)
      requires Valid()
      modifies this`tideSeries, this`tideExtremes
      ensures Valid()
      ensures var all := FetchOutcome(get(Request("all", fromtimeAll)));
              var tab := FetchOutcome(get(Request("tab", fromtimeTab)));
              if all.Err? then
                raised == Some(all.error) && tideSeries == old(tideSeries) && tideExtremes == old(tideExtremes)
              else if tab.Err? then
                raised == Some(tab.error) && tideSeries == all.value && tideExtremes == old(tideExtremes)
              else
                raised.None? && tideSeries == all.value && tideExtremes == tab.value
    {
      var _, all := UpdateByDatatype("all", fromtimeAll, get);
      if all.Err? { return Some(all.error); }
      tideSeries := all.value;
      var _, tab := UpdateByDatatype("tab", fromtimeTab, get);
      if tab.Err? { return Some(tab.error); }
      tideExtremes := tab.value;
      return None;
    }

    /** `current_waterlevel`: `float` of the first entry of the first series. */
    function CurrentWaterlevel<F>(toFloat: string -> Result<F, Exception>): (r: Result<F, Exception>)
      reads this
      ensures FirstEntry(tideSeries).Err? ==> r == Err(FirstEntry(tideSeries).error)
      ensures FirstEntry(tideSeries).Ok? ==> r == Convert(FirstEntry(tideSeries).value.value, toFloat)
    {
      match FirstEntry(tideSeries)
      case Err(e) => Err(e)
      case Ok(wl) => Convert(wl.value, toFloat)
    }

    /** `next_extreme`: time, flag and value of the first entry of the extremes' first series. */
    function NextExtreme<D, F>(fromIso: string -> Result<D, Exception>, toFloat: string -> Result<F, Exception>)
      : (r: Result<Extreme<D, F>, Exception>)
      reads this
      ensures tideExtremes.None? ==> r == Err(AttributeError("data"))
      ensures FirstEntry(tideExtremes).Err? ==> r == Err(FirstEntry(tideExtremes).error)
      ensures FirstEntry(tideExtremes).Ok? && Convert(FirstEntry(tideExtremes).value.time, fromIso).Err? ==>
                r == Err(Convert(FirstEntry(tideExtremes).value.time, fromIso).error)
      ensures FirstEntry(tideExtremes).Ok? && Convert(FirstEntry(tideExtremes).value.time, fromIso).Ok?
              && Convert(FirstEntry(tideExtremes).value.value, toFloat).Err? ==>
                r == Err(Convert(FirstEntry(tideExtremes).value.value, toFloat).error)
      ensures r.Ok? ==>
                && FirstEntry(tideExtremes).Ok?
                && var e := FirstEntry(tideExtremes).value;
                && Convert(e.time, fromIso) == Ok(r.value.time)
                && r.value.flag == e.flag
                && Convert(e.value, toFloat) == Ok(r.value.value)
      ensures FirstEntry(tideExtremes).Ok? ==>
                var e := FirstEntry(tideExtremes).value;
                (r.Ok? <==> Convert(e.time, fromIso).Ok? && Convert(e.value, toFloat).Ok?)
    {
      match FirstEntry(tideExtremes)
      case Err(e) => Err(e)
      case Ok(wl) =>
        match Convert(wl.time, fromIso)
        case Err(e) => Err(e)
        case Ok(t) =>
          match Convert(wl.value, toFloat)
          case Err(e) => Err(e)
          case Ok(v) => Ok(Extreme(t, wl.flag, v))
    }

    /** `waterlevel_series`: both lists built by appending, one element per entry of the first series. */
    method WaterlevelSeries<D, F>(fromIso: string -> Result<D, Exception>, toFloat: string -> Result<F, Exception>)
      returns (r: Result<Series<D, F>, Exception>)
      ensures r == SeriesOfDocument(tideSeries, fromIso, toFloat)
      ensures r.Ok? ==>
                && FirstSeries(tideSeries).Ok?
                && |r.value.timestamp| == |r.value.waterlevel| == |FirstSeries(tideSeries).value|
    {
      var first := FirstSeries(tideSeries);
      if first.Err? {
        return Err(first.error);
      }
      var wls := first.value;
      var timestamps: seq<D> := [];
      var values: seq<F> := [];
      var i := 0;
      while i < |wls|
        invariant 0 <= i <= |wls|
        invariant SeriesOf(wls[..i], fromIso, toFloat) == Ok(Series(timestamps, values))
      {
        var prefix := wls[..i + 1];
        assert prefix[..|prefix| - 1] == wls[..i];
        var t := Convert(wls[i].time, fromIso);
        if t.Err? {
          SeriesOfPrefixErr(wls, i + 1, fromIso, toFloat);
          return Err(t.error);
        }
        var v := Convert(wls[i].value, toFloat);
        if v.Err? {
          SeriesOfPrefixErr(wls, i + 1, fromIso, toFloat);
          return Err(v.error);
        }
        timestamps := timestamps + [t.value];
        values := values + [v.value];
        i := i + 1;
      }
      assert wls[..i] == wls;
      SeriesOfShape(wls, fromIso, toFloat);
      return Ok(Series(timestamps, values));
    }
  }

  /** The current water level is the first sample of the water level series. */
  lemma CurrentIsFirstSample<D, F>(api: KartverketTideApi, fromIso: string -> Result<D, Exception>,
                                   toFloat: string -> Result<F, Exception>)
    requires SeriesOfDocument(api.tideSeries, fromIso, toFloat).Ok?
    requires |SeriesOfDocument(api.tideSeries, fromIso, toFloat).value.waterlevel| > 0
    ensures api.CurrentWaterlevel(toFloat) == Ok(SeriesOfDocument(api.tideSeries, fromIso, toFloat).value.waterlevel[0])
  {
    SeriesOfShape(FirstSeries(api.tideSeries).value, fromIso, toFloat);
  }
}
