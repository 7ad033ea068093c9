# Kartverket tides: a Dafny model

This project models the core of the Kartverket tide-gauge integration for Home Assistant:

- the parser (`parse_tide_data`), which turns the XML returned by the tide API into nested
  records: a location, the reference-level element, and one series per `data` element, each holding
  one entry per `waterlevel` element;
- the API client (`KartverketTideApi`): its enum-validated `interval` and `lang` attributes, the request
  parameters, the status branch of a fetch, `update`, which replaces the two cached documents, and the
  accessors `current_waterlevel`, `next_extreme` and `waterlevel_series`;
- the configuration validators `contains_value`, `tide_interval`, `tide_unit` and `tide_language`.

Files:

- `wrappers.dfy`: `Option` and `Result`, and the Python exceptions the modelled code raises.
- `text.dfy`: string joining, substring containment and `str(int)`, used by the rejection message.
- `xml.dfy`: the element tree. An element is a tag, an attribute map, its text and its children.
  `Find` and `FindAll` take an element's direct children, as `find`/`findall` with a plain tag do.
- `data.dfy` (`data.py`): the records and the parser.
- `render.dfy`: the parser's inverse, which writes a document back as a tree. It is used to prove
  that parsing loses nothing.
- `api.dfy` (`api.py`): the enums, the descriptor logic, and the client as a class whose methods
  update its fields.
- `validators.dfy` (`validators.py`): the configuration validators.

Outside effects are inputs to the model:

- The HTTP GET is a function `get` from the parameter dictionary to a `Response`, a (status, body)
  pair. The body is either an element tree (`Xml(root)`) or `Malformed`, which stands for the bodies
  `ElementTree.fromstring` rejects.
- The `fromtime` value built from `datetime.utcnow()` is a string parameter.
- `float(...)` and `datetime.fromisoformat(...)` are conversion parameters
  (`string -> Result<T, Exception>`), so they can fail. Applying either to `None` is a `TypeError`.

The model follows the code as written:

- An absent attribute does not fail the parse. The field is `None`.
- `reflevelcode` holds the `reflevelcode` element itself, not its text.
- The location's latitude, longitude, delay and factor stay the raw attribute strings. They are not
  coerced to numbers.
- `update` does not swallow every failure. A non-200 status empties the slot. A body that does not
  parse raises out of `update`, and in that case the slot keeps its old document. If the "all" fetch
  raises, the "tab" fetch is not made.
- Construction fails on an invalid interval before the language is checked.

## Model

| member | source | states |
|---|---|---|
| `Xml.Get` | homeassistant/components/kartverket_tides/data.py:61 | `element.get(k)` is the attribute's string when present and None otherwise |
| `Xml.Find` | homeassistant/components/kartverket_tides/data.py:70-71 | `find` returns None exactly when no direct child has the tag; otherwise a direct child with that tag |
| `Xml.FindAll` | homeassistant/components/kartverket_tides/data.py:72 | `findall` keeps exactly the direct children with the tag, and no more elements than there are children |
| `Xml.FindAllAppend` | homeassistant/components/kartverket_tides/data.py:62 | `findall` keeps document order: the result for `a + b` is the result for `a` followed by the result for `b` |
| `Xml.FindIsFirstOfFindAll` | homeassistant/components/kartverket_tides/data.py:70-72 | `find` is the first element of `findall`, or None when `findall` is empty |
| `Xml.FindAllInsertOther` | homeassistant/components/kartverket_tides/data.py:72 | inserting a child with another tag anywhere leaves `findall` unchanged |
| `Xml.FindInsertOther` | homeassistant/components/kartverket_tides/data.py:71 | inserting a child with another tag anywhere leaves `find` unchanged |
| `Data.ParseWaterLevel` | homeassistant/components/kartverket_tides/data.py:56-61 | an entry's value, time and flag are the raw `value`/`time`/`flag` attribute strings; an absent one gives None |
| `Data.ParseLocation` | homeassistant/components/kartverket_tides/data.py:44-54 | each of the nine location fields is the attribute of that name, copied verbatim with no coercion, or None |
| `Data.ParseWaterLevels` | homeassistant/components/kartverket_tides/data.py:60-63 | one entry per element, the nth entry parsed from the nth element |
| `Data.ParseData` | homeassistant/components/kartverket_tides/data.py:58-68 | a series' type and unit are the `data` element's attributes; its entries are the parses of its direct `waterlevel` children, with the same count and order |
| `Data.ParseSeries` | homeassistant/components/kartverket_tides/data.py:77 | one series per element, the kth series parsed from the kth element |
| `Data.ParseTideData` | homeassistant/components/kartverket_tides/data.py:70 | no `locationdata` child fails with AttributeError on `.find`; otherwise the result is that of the first `locationdata` child |
| `Data.ParseLocationData` | homeassistant/components/kartverket_tides/data.py:71-78 | fails with AttributeError on `.get` exactly when there is no `location` child, and never returns a partial document. On success: the parsed location, the first `reflevelcode` element or None, and one series per direct `data` child, in order (none gives an empty list) |
| `Data.SeriesEntryOrigin` | homeassistant/components/kartverket_tides/data.py:60-77 | the nth entry of the kth series carries the attributes of the nth direct `waterlevel` child of the kth direct `data` child |
| `Data.NestedWaterlevelsIgnored` | homeassistant/components/kartverket_tides/data.py:62 | a non-`waterlevel` child inserted into a `data` element changes nothing, whatever `waterlevel` elements it contains |
| `Data.NestedSeriesIgnored` | homeassistant/components/kartverket_tides/data.py:71-77 | a child with another tag inserted into `locationdata` changes nothing, whatever `data` or `waterlevel` elements it contains |
| `Render.WaterLevelRoundTrip` | homeassistant/components/kartverket_tides/data.py:56-61 | parsing a rendered `waterlevel` element gives the entry back |
| `Render.LocationRoundTrip` | homeassistant/components/kartverket_tides/data.py:44-54 | parsing a rendered `location` element gives the location back |
| `Render.DataRoundTrip` | homeassistant/components/kartverket_tides/data.py:58-68 | parsing a rendered `data` element gives the series back, entries in order |
| `Render.SeriesRoundTrip` | homeassistant/components/kartverket_tides/data.py:77 | parsing rendered `data` elements gives the series list back |
| `Render.RenderedSeriesFound` | homeassistant/components/kartverket_tides/data.py:72 | `findall("data")` over rendered `locationdata` children is exactly the rendered series, in order |
| `Render.RenderedHeadFound` | homeassistant/components/kartverket_tides/data.py:71-76 | `find` over rendered `locationdata` children returns the rendered location and the reference-level element, or None when there is none |
| `Render.LocationDataChildrenFound` | homeassistant/components/kartverket_tides/data.py:71-76 | among rendered `locationdata` children, `find` and `findall` pick out the location, the reference-level element and the series |
| `Render.DocumentRoundTrip` | homeassistant/components/kartverket_tides/data.py:41-78 | parsing a rendered document gives the document back: no series, entry, attribute or order is lost |
| `Api.RejectionMessage` | homeassistant/components/kartverket_tides/api.py:35-38 | the ValueError text contains the offending value, the attribute name and every member listing |
| `Api.AssignInterval` | homeassistant/components/kartverket_tides/api.py:32-40 | a member stores its value, which is 10 or 60. A raw 10 or 60 passes the IntEnum membership test but raises AttributeError on `.value`. Any other value raises a ValueError naming `interval`, the value and `Interval.LOW (10)`, `Interval.HIGH (60)` |
| `Api.AssignLanguage` | homeassistant/components/kartverket_tides/api.py:32-40 | a member stores its code, one of nb/nn/en. Any other value raises a ValueError naming `lang`, the value and each of the three members with its code |
| `Api.FetchOutcome` | homeassistant/components/kartverket_tides/api.py:153-159 | a status other than 200 gives no document. Status 200 gives the parse of the body, or the parser's or the XML reader's exception |
| `Api.Convert` | homeassistant/components/kartverket_tides/api.py:107-108 | a conversion of an absent attribute is a TypeError; of a present one, the conversion's result |
| `Api.FirstSeries` | homeassistant/components/kartverket_tides/api.py:106 | with no document it raises AttributeError on `.data`; with no series, IndexError; otherwise the first series' entries |
| `Api.FirstEntry` | homeassistant/components/kartverket_tides/api.py:93 | the first entry of the first series, or the exception reaching it raises (IndexError for an empty series) |
| `Api.SeriesOfShape` | homeassistant/components/kartverket_tides/api.py:101-109 | the series succeeds exactly when every entry converts. Then both lists are as long as the entries, and the ith timestamp and value come from the ith entry |
| `Api.SeriesOfPrefixErr` | homeassistant/components/kartverket_tides/api.py:106-108 | the first entry that fails to convert decides the exception of the whole loop |
| `Api.KartverketTideApi.Blank` | homeassistant/components/kartverket_tides/api.py:62-86 | before `interval` and `lang` are assigned, the object holds lat and lon, both attribute slots are empty and both documents are None |
| `Api.KartverketTideApi.Create` | homeassistant/components/kartverket_tides/api.py:65-88 | construction succeeds exactly when both arguments are members. The interval error comes first, then the language error. A new client has both values stored and readable, and no documents |
| `Api.KartverketTideApi.GetInterval` | homeassistant/components/kartverket_tides/api.py:29-30 | reading `interval` returns the stored value; a KeyError before any assignment |
| `Api.KartverketTideApi.GetLang` | homeassistant/components/kartverket_tides/api.py:29-30 | reading `lang` returns the stored value; a KeyError before any assignment |
| `Api.KartverketTideApi.SetInterval` | homeassistant/components/kartverket_tides/api.py:32-40 | a member is stored and reads back as its value. Anything else raises and leaves the previous value. A valid client stays valid |
| `Api.KartverketTideApi.SetLang` | homeassistant/components/kartverket_tides/api.py:32-40 | a member is stored and reads back as its code. Anything else raises and leaves the previous value. A valid client stays valid |
| `Api.KartverketTideApi.Request` | homeassistant/components/kartverket_tides/api.py:137-147 | the parameters have exactly nine keys: the client's lat, lon, lang and interval, the datatype, fromtime, tzone=0, dst=0 and tide_request="locationdata" |
| `Api.KartverketTideApi.UpdateByDatatype` | homeassistant/components/kartverket_tides/api.py:129-159 | a datatype other than "all"/"tab" raises ValueError and no request is made. Otherwise the request carries the client's parameters, and the result is the status branch applied to the response |
| `Api.KartverketTideApi.Update` | homeassistant/components/kartverket_tides/api.py:116-123 | `tide_series` is replaced wholesale by the "all" result, then `tide_extremes` by the "tab" result. A failed status leaves the slot None; an exception stops the update at that fetch |
| `Api.KartverketTideApi.CurrentWaterlevel` | homeassistant/components/kartverket_tides/api.py:96-99 | the conversion of the first entry's value in the first series, or the exception reaching it |
| `Api.KartverketTideApi.NextExtreme` | homeassistant/components/kartverket_tides/api.py:90-94 | no document raises AttributeError; no series or an empty first series raises IndexError. Otherwise the time is converted first and its error wins, then the value. On success: the converted time, the raw flag and the converted value of the first extremes entry |
| `Api.KartverketTideApi.WaterlevelSeries` | homeassistant/components/kartverket_tides/api.py:101-109 | the loop computes the series of the first series' entries. On success: two lists of equal length, one element per entry |
| `Api.CurrentIsFirstSample` | homeassistant/components/kartverket_tides/api.py:96-109 | when the series succeeds and is not empty, `current_waterlevel` is its first value |
| `Validators.ContainsValueAsWritten` | homeassistant/components/kartverket_tides/validators.py:14-18 | as written: returns the value exactly when it is in the set; otherwise fails with NameError on `vol` |
| `Validators.RejectionIsNameErrorAsWritten` | homeassistant/components/kartverket_tides/validators.py:18 | as written, a rejected interval (30) is a NameError, not a validation error |
| `Validators.ContainsValue` | homeassistant/components/kartverket_tides/validators.py:14-18 | returns its argument unchanged exactly when it is in the set; otherwise always fails with Invalid naming the setting |
| `Validators.ContainsValueIdempotent` | homeassistant/components/kartverket_tides/validators.py:14-17 | an accepted value validates again to itself |
| `Validators.TideInterval` | homeassistant/components/kartverket_tides/validators.py:21-23 | accepts exactly 10 and 60 and returns the argument unchanged; a rejection is the corrected one (Invalid), not the as-written NameError |
| `Validators.TideUnit` | homeassistant/components/kartverket_tides/validators.py:26-28 | accepts exactly "mm", "cm", "m", "in", "ft" and returns the argument unchanged; a rejection is the corrected one (Invalid), not the as-written NameError |
| `Validators.TideLanguage` | homeassistant/components/kartverket_tides/validators.py:31-33 | accepts exactly "bokmal", "nynorsk", "english" and returns the argument unchanged; a rejection is the corrected one (Invalid), not the as-written NameError |
| `Validators.IntervalsAgreeWithApi` | homeassistant/components/kartverket_tides/validators.py:3-4 | the accepted intervals are exactly the values of the `Interval` members |
| `Validators.LanguageCodesRejected` | homeassistant/components/kartverket_tides/validators.py:3-5 | no `Language` code ("nb", "nn", "en") passes `tide_language`, although each is the image of an accepted name |

## Left out

- `is_increasing` (api.py:111-114): it reads `next_tidal_low` and `next_tidal_high`, which are never defined, so it always raises AttributeError.
- Session handling: creating the `ClientSession` in `__init__`, the `websession` field, `close_connection`, `async_timeout` with its 15-second budget, the base URL and logging. These are network and I/O; the GET is the parameter `get`.
- `datetime.utcnow().strftime(...)`: the clock is read outside the model, and `fromtime` is a parameter. `update` takes one per fetch because each fetch reads the clock.
- `ElementTree.fromstring` on the body is not modelled. Its outcome is the `Body` value: an element tree or `Malformed`.
- `float` and `datetime.fromisoformat` are parameters. The model does not fix which strings they accept or what they return.
- `mm_to_unit` (validators.py:9-11): floating-point scaling. Only the unit table's keys and factors are modelled, in `Validators.TideUnits`.
- Latitude and longitude are Python floats passed through unchanged. They are modelled as `real`.
- `Api.AssignInterval`: of the plain values, the model distinguishes ints, strings and None. A float equal to 10 or 60 would pass the IntEnum test like the int and then fail on `.value`; the model does not cover that case.
- `Api.Interval.Name`: `str(member)` is taken as `Interval.LOW`, as before Python 3.11. From Python 3.11, `str()` of an IntEnum member is its number.
- `Validators.ContainsValue`: the intended failure carries only the setting's name, not a message text. For the integer intervals, the message's `', '.join` would itself fail.
- sensor.py (the platform, `Throttle`, the config schema and time display) and const.py (constants only) are not part of this model.

## Findings

| source | as written | input that shows it | evidently intended | confidence | as-written member | corrected member |
|---|---|---|---|---|---|---|
| homeassistant/components/kartverket_tides/validators.py:18 | `raise vol.Invalid(...)`, but `vol` is never imported in the module, so every rejection raises NameError | `tide_interval(30)` | a voluptuous `Invalid` error naming the setting | high, not executed | `Validators.ContainsValueAsWritten`, `Validators.RejectionIsNameErrorAsWritten` | `Validators.ContainsValue`, with `Validators.TideInterval`, `Validators.TideUnit` and `Validators.TideLanguage` built on it |
