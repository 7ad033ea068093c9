/**
 * The inverse of the parser: a tide document written back as an element tree.
 * Parsing what was rendered gives the document back, so the parser loses
 * nothing: no series, no entry, no attribute, and no order.
 */
module Render {
  import opened Wrappers
  import opened Xml
  import opened Data

  /** The attributes named in `keys` whose field is present. */
  function AttrsOf(keys: seq<string>, field: string -> Option<string>): map<string, string>
  {
    map k | k in keys && field(k).Some? :: field(k).value
  }

  function RenderWaterLevel(w: TideWaterLevel): Element
  {
    Element("waterlevel", AttrsOf(WaterlevelAttrs, w.Field), "", [])
  }

  function RenderLocation(l: TideLocation): Element
  {
    Element("location", AttrsOf(LocationAttrs, l.Field), "", [])
  }

  function SeriesAttrs(d: TideData): map<string, string>
  {
    var t := if d.seriesType.Some? then map["type" := d.seriesType.value] else map[];
    if d.unit.Some? then t["unit" := d.unit.value] else t
  }

  function RenderData(d: TideData): Element
  {
    Element("data", SeriesAttrs(d), "",
            seq(|d.waterlevels|, n requires 0 <= n < |d.waterlevels| => RenderWaterLevel(d.waterlevels[n])))
  }

  /** The reference level element may be put back only under its own tag. */
  predicate Renderable(doc: KartverketTideData)
  {
    doc.reflevelcode.None? || doc.reflevelcode.value.tag == "reflevelcode"
  }

  /** The location element, then the reference-level element when there is one. */
  function LocationDataHead(doc: KartverketTideData): seq<Element>
  {
    [RenderLocation(doc.location)] + (if doc.reflevelcode.Some? then [doc.reflevelcode.value] else [])
  }

  function LocationDataChildren(doc: KartverketTideData): seq<Element>
  {
    LocationDataHead(doc) + RenderSeries(doc.data)
  }

  function RenderDocument(doc: KartverketTideData): Element
  {
    Element("tide", map[], "", [Element("locationdata", map[], "", LocationDataChildren(doc))])
  }

  lemma WaterLevelRoundTrip(w: TideWaterLevel)
    ensures ParseWaterLevel(RenderWaterLevel(w)) == w
  {
  }

  lemma LocationRoundTrip(l: TideLocation)
    ensures ParseLocation(RenderLocation(l)) == l
  {
  }

  lemma DataRoundTrip(d: TideData)
    ensures ParseData(RenderData(d)) == d
  {
    var e := RenderData(d);
    FindAllEveryTagged(e.children, "waterlevel");
    var p := ParseData(e);
    assert |p.waterlevels| == |d.waterlevels|;
    forall n | 0 <= n < |d.waterlevels|
      ensures p.waterlevels[n] == d.waterlevels[n]
    {
      WaterLevelRoundTrip(d.waterlevels[n]);
    }
    assert p.waterlevels == d.waterlevels;
  }

  function RenderSeries(ds: seq<TideData>): seq<Element>
  {
    seq(|ds|, k requires 0 <= k < |ds| => RenderData(ds[k]))
  }

  lemma SeriesRoundTrip(ds: seq<TideData>)
    ensures ParseSeries(RenderSeries(ds)) == ds
  {
    var p := ParseSeries(RenderSeries(ds));
    forall k | 0 <= k < |ds|
      ensures p[k] == ds[k]
    {
      DataRoundTrip(ds[k]);
    }
  }

  /** The rendered `data` elements are exactly what `findall("data")` sees. */
  lemma RenderedSeriesFound(doc: KartverketTideData)
    requires Renderable(doc)
    ensures FindAll(LocationDataChildren(doc), "data") == RenderSeries(doc.data)
  {
    var head := LocationDataHead(doc);
    var tail := RenderSeries(doc.data);
    FindAllAppend(head, tail, "data");
    FindAllEveryTagged(tail, "data");
    FindAllSingle(RenderLocation(doc.location), "data");
    if doc.reflevelcode.Some? {
      FindAllAppend([RenderLocation(doc.location)], [doc.reflevelcode.value], "data");
      FindAllSingle(doc.reflevelcode.value, "data");
    } else {
      assert head == [RenderLocation(doc.location)];
    }
  }

  /** The rendered location and reference-level elements are what `find` returns. */
  lemma RenderedHeadFound(doc: KartverketTideData)
    requires Renderable(doc)
    ensures Find(LocationDataChildren(doc), "location") == Some(RenderLocation(doc.location))
    ensures Find(LocationDataChildren(doc), "reflevelcode") == doc.reflevelcode
  {
  }

  /** What `find` and `findall` see among the rendered `locationdata` children. */
  lemma LocationDataChildrenFound(doc: KartverketTideData)
    requires Renderable(doc)
    ensures Find(LocationDataChildren(doc), "location") == Some(RenderLocation(doc.location))
    ensures Find(LocationDataChildren(doc), "reflevelcode") == doc.reflevelcode
    ensures FindAll(LocationDataChildren(doc), "data") == RenderSeries(doc.data)
  {
    RenderedSeriesFound(doc);
    RenderedHeadFound(doc);
  }

  /** Parsing a rendered document gives the document back. */
  lemma DocumentRoundTrip(doc: KartverketTideData)
    requires Renderable(doc)
    ensures ParseTideData(RenderDocument(doc)) == Ok(doc)
  {
    var root := RenderDocument(doc);
    assert Find(root.children, "locationdata") == Some(root.children[0]);
    LocationDataChildrenFound(doc);
    LocationRoundTrip(doc.location);
    SeriesRoundTrip(doc.data);
  }
}
