/**
 * The tide records and `parse_tide_data`: an element tree
 *   root -> locationdata -> location, reflevelcode, data* -> waterlevel*
 * becomes nested records. Attribute strings are copied verbatim; an absent
 * attribute gives None. Only direct children are looked at.
 */
module Data {
  import opened Wrappers
  import opened Exceptions
  import opened Xml

  /** One `waterlevel` entry; every field is the raw attribute string. */
  datatype TideWaterLevel = TideWaterLevel(value: Option<string>, time: Option<string>, flag: Option<string>)
  {
    /** The field filled from the attribute named `key`. */
    function Field(key: string): Option<string>
    {
      if key == "value" then value
      else if key == "time" then time
      else if key == "flag" then flag
      else None
    }
  }

  /** The `location` element's attributes, uncoerced: latitude, delay and factor stay strings. */
  datatype TideLocation = TideLocation(
    name: Option<string>, code: Option<string>, latitude: Option<string>,
    longitude: Option<string>, delay: Option<string>, factor: Option<string>,
    obsname: Option<string>, obscode: Option<string>, descr: Option<string>)
  {
    function Field(key: string): Option<string>
    {
      if key == "name" then name
      else if key == "code" then code
      else if key == "latitude" then latitude
      else if key == "longitude" then longitude
      else if key == "delay" then delay
      else if key == "factor" then factor
      else if key == "obsname" then obsname
      else if key == "obscode" then obscode
      else if key == "descr" then descr
      else None
    }
  }

  /** One `data` series; `seriesType` holds the `type` attribute. */
  datatype TideData = TideData(seriesType: Option<string>, unit: Option<string>, waterlevels: seq<TideWaterLevel>)

  /** A parsed document; `reflevelcode` is the element itself, not its text. */
  datatype KartverketTideData = KartverketTideData(location: TideLocation, reflevelcode: Option<Element>, data: seq<TideData>)

  const LocationAttrs: seq<string> :=
    ["name", "code", "latitude", "longitude", "delay", "factor", "obsname", "obscode", "descr"]

  const WaterlevelAttrs: seq<string> := ["value", "time", "flag"]

  function ParseWaterLevel(wl: Element): (r: TideWaterLevel)
    ensures forall k :: k in WaterlevelAttrs ==> r.Field(k) == Get(wl, k)
  {
    TideWaterLevel(Get(wl, "value"), Get(wl, "time"), Get(wl, "flag"))
  }

  function ParseLocation(loc: Element): (r: TideLocation)
    ensures forall k :: k in LocationAttrs ==> r.Field(k) == Get(loc, k)
  {
    TideLocation(Get(loc, "name"), Get(loc, "code"), Get(loc, "latitude"),
                 Get(loc, "longitude"), Get(loc, "delay"), Get(loc, "factor"),
                 Get(loc, "obsname"), Get(loc, "obscode"), Get(loc, "descr"))
  }

  /** One entry per element, the nth from the nth. */
  function ParseWaterLevels(ws: seq<Element>): (r: seq<TideWaterLevel>)
    ensures |r| == |ws|
    ensures forall n :: 0 <= n < |ws| ==> r[n] == ParseWaterLevel(ws[n])
  {
    if ws == [] then [] else [ParseWaterLevel(ws[0])] + ParseWaterLevels(ws[1..])
  }

  /** `_parse_data`: the series of one `data` element. */
  function ParseData(d: Element): (r: TideData)
    ensures r.seriesType == Get(d, "type") && r.unit == Get(d, "unit")
    ensures |r.waterlevels| == |FindAll(d.children, "waterlevel")|
    ensures forall n :: 0 <= n < |r.waterlevels| ==>
              r.waterlevels[n] == ParseWaterLevel(FindAll(d.children, "waterlevel")[n])
  {
    TideData(Get(d, "type"), Get(d, "unit"), ParseWaterLevels(FindAll(d.children, "waterlevel")))
  }

  /** One series per element, the kth from the kth. */
  function ParseSeries(ds: seq<Element>): (r: seq<TideData>)
    ensures |r| == |ds|
    ensures forall k :: 0 <= k < |ds| ==> r[k] == ParseData(ds[k])
  {
    if ds == [] then [] else [ParseData(ds[0])] + ParseSeries(ds[1..])
  }

  /**
   * `parse_tide_data`. A missing `locationdata` child fails at `.find` on None;
   * the rest is ParseLocationData.
   */
  function ParseTideData(root: Element): (r: Result<KartverketTideData, Exception>)
    ensures Find(root.children, "locationdata").None? ==> r == Err(AttributeError("find"))
    ensures Find(root.children, "locationdata").Some? ==>
              r == ParseLocationData(Find(root.children, "locationdata").value)
  {
    match Find(root.children, "locationdata")
    case None => Err(AttributeError("find"))
    case Some(ld) => ParseLocationData(ld)
  }

  /**
   * The body of `parse_tide_data` once `locationdata` is found. A missing
   * `location` child fails at `.get` on None; nothing partial is returned.
   */
  function ParseLocationData(ld: Element): (r: Result<KartverketTideData, Exception>)
    ensures Find(ld.children, "location").None? <==> r.Err?
    ensures r.Err? ==> r.error == AttributeError("get")
    ensures r.Ok? ==>
              && r.value.location == ParseLocation(Find(ld.children, "location").value)
              && r.value.reflevelcode == Find(ld.children, "reflevelcode")
              && |r.value.data| == |FindAll(ld.children, "data")|
              && forall k :: 0 <= k < |r.value.data| ==>
                   r.value.data[k] == ParseData(FindAll(ld.children, "data")[k])
  {
    match Find(ld.children, "location")
    case None => Err(AttributeError("get"))
    case Some(loc) =>
      Ok(KartverketTideData(ParseLocation(loc), Find(ld.children, "reflevelcode"),
                            ParseSeries(FindAll(ld.children, "data"))))
  }

  /** The locationdata element of a successful parse. */
  function LocationData(root: Element): Element
    requires ParseTideData(root).Ok?
  {
    Find(root.children, "locationdata").value
  }

  /**
   * Order and count preservation end to end: the nth direct `waterlevel` child
   * of the kth direct `data` child is the nth entry of the kth series.
   */
  lemma SeriesEntryOrigin(root: Element, k: nat, n: nat)
    requires ParseTideData(root).Ok?
    requires k < |FindAll(LocationData(root).children, "data")|
    requires n < |FindAll(FindAll(LocationData(root).children, "data")[k].children, "waterlevel")|
    ensures var wl := FindAll(FindAll(LocationData(root).children, "data")[k].children, "waterlevel")[n];
            var entry := ParseTideData(root).value.data[k].waterlevels[n];
            entry.value == Get(wl, "value") && entry.time == Get(wl, "time") && entry.flag == Get(wl, "flag")
  {
  }

  /**
   * Only direct children count: putting any element that is not a `waterlevel`
   * among a `data` element's children, whatever it contains, leaves the series unchanged.
   */
  lemma NestedWaterlevelsIgnored(d: Element, i: nat, x: Element)
    requires i <= |d.children| && x.tag != "waterlevel"
    ensures ParseData(d.(children := d.children[..i] + [x] + d.children[i..])) == ParseData(d)
  {
    FindAllInsertOther(d.children, i, x, "waterlevel");
  }

  /**
   * Only direct children count one level up: an element with another tag among
   * `locationdata`'s children, whatever it contains, does not change the parse.
   */
  lemma NestedSeriesIgnored(ld: Element, i: nat, x: Element)
    requires i <= |ld.children| && x.tag !in {"location", "reflevelcode", "data"}
    ensures ParseLocationData(ld.(children := ld.children[..i] + [x] + ld.children[i..])) == ParseLocationData(ld)
  {
    FindAllInsertOther(ld.children, i, x, "data");
    FindInsertOther(ld.children, i, x, "location");
    FindInsertOther(ld.children, i, x, "reflevelcode");
  }
}
