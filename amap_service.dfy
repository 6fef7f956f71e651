/**
 * The map service: what it makes of the answers of the map tools. Every
 * tool answer is a JSON-like value (a string is decoded first), and the
 * service turns it into weather records, points of interest, locations,
 * a POI detail dictionary or a route result, skipping the items it cannot
 * convert and mapping every failure to an empty or error result.
 *
 * The tools themselves are not modelled: `tools` is the set of tool names
 * the discovery step found, `invoke(name, payload)` is what calling that
 * tool returns (or that it raised), `loads` is `json.loads` (None for a
 * JSONDecodeError) and `parseFloat` is `float()` on text (None for a
 * ValueError).
 */
module AmapService {
  import opened Wrappers
  import opened Strings
  import opened JsonValue
  import opened Sequences
  import opened Schemas

  /** What invoking a tool gave: its answer, or an exception. */
  datatype ToolReply = Returned(value: Json) | ToolRaised

  /** One tool invocation: the tool's name and the payload dictionary. */
  datatype ToolCall = ToolCall(tool: string, payload: map<string, Json>)

  /** `json.loads(response) if isinstance(response, str) else response`; None when decoding raises. */
  function Loaded(response: Json, loads: string -> Option<Json>): Option<Json> {
    if response.JString? then loads(response.s) else Some(response)
  }

  /**
   * The items `for x in v` visits, as far as the conversions can tell: a
   * list's elements. A string yields its characters and a dictionary its
   * keys, all of them text, which every conversion here skips, so both are
   * modelled as no items; any other value is not iterable and the loop
   * raises TypeError (None).
   */
  function Iterated(v: Json): Option<seq<Json>> {
    match v
    case JArray(items) => Some(items)
    case JString(_) => Some([])
    case JObject(_) => Some([])
    case _ => None
  }

  /** `d.get(key, default)` for a text field. */
  function Field(d: map<string, Json>, key: string, default: string): Json {
    Get(d, key, JString(default))
  }

  /** A field later converted as text takes the stored string, or the default when the key is absent. */
  predicate FieldIs(d: map<string, Json>, key: string, default: string, value: string) {
    if key in d then d[key] == JString(value) else value == default
  }

  lemma FieldText(d: map<string, Json>, key: string, default: string)
    ensures Field(d, key, default).JString? ==> FieldIs(d, key, default, Field(d, key, default).s)
    ensures Field(d, key, default).JString? <==> key !in d || d[key].JString?
  {
  }

  // ---------------------------------------------------------------------
  // parse_weather_response
  // ---------------------------------------------------------------------

  /** The exceptions `parse_weather_response` lets escape. */
  datatype WeatherError =
    | InvalidJson        // ValueError("JSON 解析失败: ...")
    | UnsupportedFormat  // ValueError("不支持的响应格式: ...")
    | NotIterable        // TypeError from `for item in forecasts`

  /** Steps 1 and 2: the forecasts the conversion loop runs over. */
  function Forecasts(response: Json, loads: string -> Option<Json>): Result<seq<Json>, WeatherError> {
    match Loaded(response, loads)
    case None => Failure(InvalidJson)
    case Some(decoded) =>
      var forecasts :=
        if decoded.JObject? then Some(Get(decoded.fields, "forecasts", JArray([decoded])))
        else if decoded.JArray? then Some(decoded)
        else None;
      if forecasts.None? then Failure(UnsupportedFormat)
      else
        match Iterated(forecasts.value)
        case None => Failure(NotIterable)
        case Some(items) => Success(items)
  }

  /**
   * The dispatch on the response's type: undecodable text raises; a
   * dictionary gives its "forecasts" list, or is itself the only forecast
   * when the key is missing; a "forecasts" text or dictionary yields only
   * text items and so no forecasts, and a null, number or boolean there is
   * not iterable; a list is used as it is; anything else raises.
   */
  lemma ForecastsDispatch(response: Json, loads: string -> Option<Json>)
    ensures response.JString? && loads(response.s).None? ==> Forecasts(response, loads) == Failure(InvalidJson)
    ensures var d := Loaded(response, loads);
      d.Some? && d.value.JObject? && "forecasts" !in d.value.fields ==> Forecasts(response, loads) == Success([d.value])
    ensures var d := Loaded(response, loads);
      d.Some? && d.value.JObject? && "forecasts" in d.value.fields && d.value.fields["forecasts"].JArray? ==>
        Forecasts(response, loads) == Success(d.value.fields["forecasts"].items)
    ensures var d := Loaded(response, loads);
      d.Some? && d.value.JObject? && "forecasts" in d.value.fields &&
      (d.value.fields["forecasts"].JString? || d.value.fields["forecasts"].JObject?) ==>
        Forecasts(response, loads) == Success([])
    ensures var d := Loaded(response, loads);
      d.Some? && d.value.JObject? && "forecasts" in d.value.fields &&
      (d.value.fields["forecasts"].JNull? || d.value.fields["forecasts"].JNumber? || d.value.fields["forecasts"].JBool?) ==>
        Forecasts(response, loads) == Failure(NotIterable)
    ensures var d := Loaded(response, loads);
      d.Some? && d.value.JArray? ==> Forecasts(response, loads) == Success(d.value.items)
    ensures var d := Loaded(response, loads);
      d.Some? && !d.value.JObject? && !d.value.JArray? ==> Forecasts(response, loads) == Failure(UnsupportedFormat)
  {
  }

  /** Step 3 for one item: the `WeatherInfo(...)` built from it, or None when that raises. */
  function ConvertForecast(item: Json): Option<WeatherInfo> {
    match item
    case JObject(d) =>
      var date, dayWeather, nightWeather := Field(d, "date", ""), Field(d, "dayweather", ""), Field(d, "nightweather", "");
      var dayTemp, nightTemp := Field(d, "daytemp", "0"), Field(d, "nighttemp", "0");
      var wind, power := Field(d, "daywind", ""), Field(d, "daypower", "");
      if date.JString? && dayWeather.JString? && nightWeather.JString? && dayTemp.JString? &&
         nightTemp.JString? && wind.JString? && power.JString?
      then Some(WeatherInfo(date.s, dayWeather.s, nightWeather.s, dayTemp.s, nightTemp.s, wind.s, power.s))
      else None
    case _ => None
  }

  /** Each record field comes from its own key, "" when missing except the temperatures, "0". */
  predicate MapsForecast(d: map<string, Json>, w: WeatherInfo) {
    FieldIs(d, "date", "", w.date) &&
    FieldIs(d, "dayweather", "", w.dayWeather) &&
    FieldIs(d, "nightweather", "", w.nightWeather) &&
    FieldIs(d, "daytemp", "0", w.dayTemp) &&
    FieldIs(d, "nighttemp", "0", w.nightTemp) &&
    FieldIs(d, "daywind", "", w.windDirection) &&
    FieldIs(d, "daypower", "", w.windPower)
  }

  /** Every key of a forecast the conversion reads. */
  predicate ForecastKey(key: string) {
    key == "date" || key == "dayweather" || key == "nightweather" || key == "daytemp" ||
    key == "nighttemp" || key == "daywind" || key == "daypower"
  }

  /**
   * A forecast converts exactly when it is a dictionary whose seven keys,
   * where present, hold text; the record then maps those keys field by
   * field, with the defaults for the missing ones.
   */
  lemma ForecastKeyMapping(item: Json)
    ensures ConvertForecast(item).Some? <==>
      item.JObject? && forall key :: ForecastKey(key) && key in item.fields ==> item.fields[key].JString?
    ensures ConvertForecast(item).Some? ==> MapsForecast(item.fields, ConvertForecast(item).value)
  {
    if item.JObject? {
      var d := item.fields;
      FieldText(d, "date", "");
      FieldText(d, "dayweather", "");
      FieldText(d, "nightweather", "");
      FieldText(d, "daytemp", "0");
      FieldText(d, "nighttemp", "0");
      FieldText(d, "daywind", "");
      FieldText(d, "daypower", "");
    }
  }

  /** A forecast with none of the seven keys gives the all-default record. */
  lemma EmptyForecastDefaults()
    ensures ConvertForecast(JObject(map[])) == Some(WeatherInfo("", "", "", "0", "0", "", ""))
  {
  }

  /**
   * `parse_weather_response`: decode, dispatch, then convert each forecast
   * and skip the ones whose conversion raises.
   */
  method ParseWeatherResponse(response: Json, loads: string -> Option<Json>)
    returns (r: Result<seq<WeatherInfo>, WeatherError>)
    ensures Forecasts(response, loads).Failure? ==> r == Failure(Forecasts(response, loads).error)
    ensures Forecasts(response, loads).Success? ==>
      r == Success(FilterMap(Forecasts(response, loads).value, ConvertForecast))
  {
    var decoded := response;
    if response.JString? {
      var parsed := loads(response.s);
      if parsed.None? {
        return Failure(InvalidJson);
      }
      decoded := parsed.value;
    }

    var forecasts: Json;
    if decoded.JObject? {
      forecasts := Get(decoded.fields, "forecasts", JArray([decoded]));
    } else if decoded.JArray? {
      forecasts := decoded;
    } else {
      return Failure(UnsupportedFormat);
    }

    var items := Iterated(forecasts);
    if items.None? {
      return Failure(NotIterable);
    }
    var weatherList := ConvertEach(items.value, ConvertForecast);
    return Success(weatherList);
  }

  // ---------------------------------------------------------------------
  // Points of interest
  // ---------------------------------------------------------------------

  /** `v or None` for a field typed `Optional[str]`: a falsy value is None, other text is kept, anything else raises. */
  function OptionalText(v: Json): Option<Option<string>> {
    if !Truthy(v) then Some(None)
    else if v.JString? then Some(Some(v.s))
    else None
  }

  /**
   * `Location(longitude=float(loc.split(",")[0]), latitude=float(loc.split(",")[1]))`
   * for the location text (or "0,0" when the key is missing); None when the
   * field is not text, has fewer than two parts or a part is not a number.
   */
  function PoiLocation(d: map<string, Json>, parseFloat: string -> Option<real>): Option<Location> {
    var loc := Field(d, "location", "0,0");
    if !loc.JString? then None
    else
      var parts := Split(loc.s, ',');
      if |parts| < 2 then None
      else
        match (parseFloat(parts[0]), parseFloat(parts[1]))
        case (Some(longitude), Some(latitude)) => Some(Location(longitude, latitude))
        case _ => None
  }

  /**
   * One `POIInfo(...)` of the conversion loops, or None when building it
   * raises. `search_poi` passes no distance (`withDistance` false),
   * `search_nearby` passes `poi.get("distance") or None`.
   */
  function ConvertPoi(item: Json, parseFloat: string -> Option<real>, withDistance: bool): Option<PoiInfo> {
    match item
    case JObject(d) =>
      var id, name, kind, address := Field(d, "id", ""), Field(d, "name", ""), Field(d, "type", ""), Field(d, "address", "");
      var location := PoiLocation(d, parseFloat);
      var tel := OptionalText(Get(d, "tel", JNull));
      var distance := if withDistance then OptionalText(Get(d, "distance", JNull)) else Some(None);
      if id.JString? && name.JString? && kind.JString? && address.JString? &&
         location.Some? && tel.Some? && distance.Some?
      then Some(PoiInfo(id.s, name.s, kind.s, address.s, location.value, tel.value, distance.value))
      else None
    case _ => None
  }

  /** The conversion as the function value the loop applies. */
  function PoiConverter(parseFloat: string -> Option<real>, withDistance: bool): Json -> Option<PoiInfo> {
    item => ConvertPoi(item, parseFloat, withDistance)
  }

  /**
   * A converted POI echoes its text fields (with "" for missing ones),
   * takes its coordinates from the first two comma-separated parts of its
   * location ("0,0" when missing), and has no telephone exactly when the
   * "tel" field is missing or falsy, and otherwise that field's text; with
   * `withDistance` the distance is read from "distance" the same way.
   */
  lemma PoiConversion(item: Json, parseFloat: string -> Option<real>, withDistance: bool)
    ensures ConvertPoi(item, parseFloat, withDistance).Some? ==>
      var p := ConvertPoi(item, parseFloat, withDistance).value;
      var d := item.fields;
      item.JObject? &&
      FieldIs(d, "id", "", p.id) && FieldIs(d, "name", "", p.name) &&
      FieldIs(d, "type", "", p.kind) && FieldIs(d, "address", "", p.address) &&
      Field(d, "location", "0,0").JString? &&
      var parts := Split(Field(d, "location", "0,0").s, ',');
      |parts| >= 2 &&
      parseFloat(parts[0]) == Some(p.location.longitude) &&
      parseFloat(parts[1]) == Some(p.location.latitude) &&
      (p.tel.None? <==> !Truthy(Get(d, "tel", JNull))) &&
      (p.tel.Some? ==> Get(d, "tel", JNull) == JString(p.tel.value)) &&
      (!withDistance ==> p.distance.None?) &&
      (withDistance ==> (p.distance.None? <==> !Truthy(Get(d, "distance", JNull)))) &&
      (p.distance.Some? ==> Get(d, "distance", JNull) == JString(p.distance.value))
  {
    if item.JObject? {
      var d := item.fields;
      FieldText(d, "id", "");
      FieldText(d, "name", "");
      FieldText(d, "type", "");
      FieldText(d, "address", "");
    }
  }

  /**
   * Conversely, a dictionary converts when its four text fields hold text,
   * its location splits into two parts that both parse as numbers, and its
   * telephone (and distance, when read) is text or falsy.
   */
  lemma PoiConverts(item: Json, parseFloat: string -> Option<real>, withDistance: bool)
    requires item.JObject?
    requires forall key :: key in ["id", "name", "type", "address"] ==> Field(item.fields, key, "").JString?
    requires Field(item.fields, "location", "0,0").JString?
    requires var parts := Split(Field(item.fields, "location", "0,0").s, ',');
      |parts| >= 2 && parseFloat(parts[0]).Some? && parseFloat(parts[1]).Some?
    requires var tel := Get(item.fields, "tel", JNull); !Truthy(tel) || tel.JString?
    requires var distance := Get(item.fields, "distance", JNull); withDistance ==> !Truthy(distance) || distance.JString?
    ensures ConvertPoi(item, parseFloat, withDistance).Some?
  {
    var d := item.fields;
    assert Field(d, "id", "").JString? && Field(d, "name", "").JString?;
    assert Field(d, "type", "").JString? && Field(d, "address", "").JString?;
  }

  /** An entry whose location text has fewer than two comma-separated parts is skipped. */
  lemma PoiWithoutCoordinatesSkipped(item: Json, parseFloat: string -> Option<real>, withDistance: bool)
    requires item.JObject? && Field(item.fields, "location", "0,0").JString?
    requires |Split(Field(item.fields, "location", "0,0").s, ',')| < 2
    ensures ConvertPoi(item, parseFloat, withDistance) == None
  {
  }

  /** A text splits into a single part, so that a location made of it is skipped, exactly when it has no comma. */
  lemma OnePartIffNoComma(s: string)
    ensures |Split(s, ',')| == 1 <==> ',' !in s
    ensures ',' !in s ==> Split(s, ',') == [s]
  {
  }

  /** Text items (what iterating a string or a dictionary yields) never convert. */
  lemma TextItemsSkipped(s: string, parseFloat: string -> Option<real>, withDistance: bool)
    ensures ConvertForecast(JString(s)) == None
    ensures ConvertPoi(JString(s), parseFloat, withDistance) == None
  {
  }

  const TextSearchTool := "maps_text_search"
  const AroundSearchTool := "maps_around_search"

  /** `str(citylimit).lower()`. */
  function BoolText(b: bool): string {
    if b then "true" else "false"
  }

  function TextSearchPayload(keywords: string, city: string, citylimit: bool): map<string, Json> {
    map["keywords" := JString(keywords), "city" := JString(city), "citylimit" := JString(BoolText(citylimit))]
  }

  /**
   * The entries `search_poi` converts, or None when it returns [] before
   * the loop: no tool, the call or the decoding raised, or the "pois"
   * value (a list answer is taken as the entries itself) is not iterable.
   */
  function TextSearchItems(keywords: string, city: string, citylimit: bool, tools: set<string>,
                           invoke: (string, map<string, Json>) -> ToolReply,
                           loads: string -> Option<Json>): Option<seq<Json>>
  {
    if TextSearchTool !in tools then None
    else
      match invoke(TextSearchTool, TextSearchPayload(keywords, city, citylimit))
      case ToolRaised => None
      case Returned(response) =>
        match Loaded(response, loads)
        case None => None
        case Some(data) =>
          Iterated(if data.JObject? then Get(data.fields, "pois", JArray([])) else data)
  }

  /** `search_poi`: the converted entries in their order, or [] on any failure before the loop. */
  method SearchPoi(keywords: string, city: string, citylimit: bool, tools: set<string>,
                   invoke: (string, map<string, Json>) -> ToolReply,
                   loads: string -> Option<Json>, parseFloat: string -> Option<real>)
    returns (poiList: seq<PoiInfo>)
    ensures var items := TextSearchItems(keywords, city, citylimit, tools, invoke, loads);
      poiList == if items.None? then [] else FilterMap(items.value, PoiConverter(parseFloat, false))
  {
    if TextSearchTool !in tools {
      return [];
    }
    var reply := invoke(TextSearchTool, TextSearchPayload(keywords, city, citylimit));
    if reply.ToolRaised? {
      return [];
    }
    var data := Loaded(reply.value, loads);
    if data.None? {
      return [];
    }
    var pois := if data.value.JObject? then Get(data.value.fields, "pois", JArray([])) else data.value;
    var items := Iterated(pois);
    if items.None? {
      return [];
    }
    poiList := ConvertEach(items.value, PoiConverter(parseFloat, false));
  }

  /** The payload of `search_nearby`; `location` is the formatted "longitude,latitude" text. */
  function AroundSearchPayload(location: string, keywords: string, radius: int): map<string, Json> {
    map["location" := JString(location), "keywords" := JString(keywords), "radius" := JString(IntToString(radius))]
  }

  /**
   * The entries `search_nearby` converts, or None when it returns [] before
   * the loop; unlike `search_poi`, an answer that is not a dictionary
   * fails at `data.get`.
   */
  function AroundSearchItems(location: string, keywords: string, radius: int, tools: set<string>,
                             invoke: (string, map<string, Json>) -> ToolReply,
                             loads: string -> Option<Json>): Option<seq<Json>>
  {
    if AroundSearchTool !in tools then None
    else
      match invoke(AroundSearchTool, AroundSearchPayload(location, keywords, radius))
      case ToolRaised => None
      case Returned(response) =>
        match Loaded(response, loads)
        case None => None
        case Some(data) =>
          if data.JObject? then Iterated(Get(data.fields, "pois", JArray([]))) else None
  }

  /** `search_nearby`: the converted entries, with their distances, or [] on any failure before the loop. */
  method SearchNearby(location: string, keywords: string, radius: int, tools: set<string>,
                      invoke: (string, map<string, Json>) -> ToolReply,
                      loads: string -> Option<Json>, parseFloat: string -> Option<real>)
    returns (poiList: seq<PoiInfo>)
    ensures var items := AroundSearchItems(location, keywords, radius, tools, invoke, loads);
      poiList == if items.None? then [] else FilterMap(items.value, PoiConverter(parseFloat, true))
  {
    if AroundSearchTool !in tools {
      return [];
    }
    var reply := invoke(AroundSearchTool, AroundSearchPayload(location, keywords, radius));
    if reply.ToolRaised? {
      return [];
    }
    var data := Loaded(reply.value, loads);
    if data.None? || !data.value.JObject? {
      return [];
    }
    var items := Iterated(Get(data.value.fields, "pois", JArray([])));
    if items.None? {
      return [];
    }
    poiList := ConvertEach(items.value, PoiConverter(parseFloat, true));
  }

  /** A list answer of the text search is itself the list of entries; the nearby search rejects it. */
  lemma ListAnswers(items: seq<Json>, keywords: string, city: string, citylimit: bool, location: string, radius: int,
                    tools: set<string>, invoke: (string, map<string, Json>) -> ToolReply, loads: string -> Option<Json>)
    ensures TextSearchTool in tools && invoke(TextSearchTool, TextSearchPayload(keywords, city, citylimit)) == Returned(JArray(items)) ==>
      TextSearchItems(keywords, city, citylimit, tools, invoke, loads) == Some(items)
    ensures invoke(AroundSearchTool, AroundSearchPayload(location, keywords, radius)) == Returned(JArray(items)) ==>
      AroundSearchItems(location, keywords, radius, tools, invoke, loads) == None
  {
  }

  // ---------------------------------------------------------------------
  // First-element extraction
  // ---------------------------------------------------------------------

  /** Where the first result's location stands. */
  datatype Located = LocatedAt(location: Json) | NotFound | LookupRaised

  /**
   * `results = data.get("results", [])`, `if not results: ...`,
   * `results[0].get("location", "")`, `if not location: ...`: NotFound
   * for either emptiness check, LookupRaised when a step raises.
   */
  function FirstLocation(data: Json): Located {
    match data
    case JObject(d) =>
      (match First(Get(d, "results", JArray([])))
       case Empty => NotFound
       case Raises => LookupRaised
       case Element(item) =>
         if !item.JObject? then LookupRaised
         else
           var location := Field(item.fields, "location", "");
           if Truthy(location) then LocatedAt(location) else NotFound)
    case _ => LookupRaised
  }

  /** NotFound means exactly: no results, or a first result without a location. */
  lemma FirstLocationNotFound(d: map<string, Json>)
    ensures FirstLocation(JObject(d)) == NotFound <==>
      !Truthy(Get(d, "results", JArray([]))) ||
      (Get(d, "results", JArray([])).JArray? && |Get(d, "results", JArray([])).items| > 0 &&
       Get(d, "results", JArray([])).items[0].JObject? &&
       !Truthy(Field(Get(d, "results", JArray([])).items[0].fields, "location", "")))
  {
  }

  const GeoTool := "maps_geo"

  /** `{"address": address}`, with "city" added when the city is truthy. */
  function GeoPayload(address: string, city: Option<string>): (p: map<string, Json>)
    ensures "address" in p && p["address"] == JString(address)
    ensures "city" in p <==> city.Some? && city.value != ""
    ensures "city" in p ==> p["city"] == JString(city.value)
    ensures forall key :: key in p ==> key == "address" || key == "city"
  {
    var base := map["address" := JString(address)];
    if city.Some? && city.value != "" then base["city" := JString(city.value)] else base
  }

  /** `geocode` from the tool's answer on: the first result's "longitude,latitude" text, parsed. */
  function GeocodeReply(reply: ToolReply, loads: string -> Option<Json>, parseFloat: string -> Option<real>): Option<Location> {
    match reply
    case ToolRaised => None
    case Returned(response) =>
      match Loaded(response, loads)
      case None => None
      case Some(data) =>
        match FirstLocation(data)
        case LocatedAt(JString(text)) =>
          var parts := Split(text, ',');
          if |parts| != 2 then None
          else
            (match (parseFloat(parts[0]), parseFloat(parts[1]))
             case (Some(longitude), Some(latitude)) => Some(Location(longitude, latitude))
             case _ => None)
        case _ => None
  }

  /** `geocode(address, city)`; every failure is None. */
  function Geocode(address: string, city: Option<string>, tools: set<string>,
                   invoke: (string, map<string, Json>) -> ToolReply,
                   loads: string -> Option<Json>, parseFloat: string -> Option<real>): Option<Location>
  {
    if GeoTool !in tools then None
    else GeocodeReply(invoke(GeoTool, GeoPayload(address, city)), loads, parseFloat)
  }

  /**
   * `geocode` gives a location exactly from a first result whose location
   * text splits into two numbers; no results or an empty location give None.
   */
  lemma GeocodeResult(reply: ToolReply, loads: string -> Option<Json>, parseFloat: string -> Option<real>)
    ensures (reply.Returned? && Loaded(reply.value, loads).Some? &&
             FirstLocation(Loaded(reply.value, loads).value) == NotFound) ==> GeocodeReply(reply, loads, parseFloat) == None
    ensures GeocodeReply(reply, loads, parseFloat).Some? ==>
      reply.Returned? && Loaded(reply.value, loads).Some? &&
      var located := FirstLocation(Loaded(reply.value, loads).value);
      located.LocatedAt? && located.location.JString? &&
      var parts := Split(located.location.s, ',');
      |parts| == 2 &&
      parseFloat(parts[0]) == Some(GeocodeReply(reply, loads, parseFloat).value.longitude) &&
      parseFloat(parts[1]) == Some(GeocodeReply(reply, loads, parseFloat).value.latitude)
  {
  }

  const DetailTool := "maps_search_detail"

  /** The keys of the dictionary `get_poi_detail` returns. */
  const DetailKeys: set<string> := {"id", "name", "type", "address", "location", "tel", "website",
    "photos", "business_area", "rating", "cost", "opentime", "introduction"}

  /** The default of a detail key: [] for "photos", "" for the others. */
  function DetailDefault(key: string): Json {
    if key == "photos" then JArray([]) else JString("")
  }

  /** What `get_poi_detail` returns. */
  datatype DetailResult =
    | DetailError(message: string)       // {"error": message}
    | DetailRaised                       // {"error": str(e)} from the handler
    | Detail(fields: map<string, Json>)

  /** `get_poi_detail` from the tool's answer on. */
  function PoiDetailReply(reply: ToolReply, loads: string -> Option<Json>): DetailResult {
    match reply
    case ToolRaised => DetailRaised
    case Returned(response) =>
      match Loaded(response, loads)
      case None => DetailRaised
      case Some(data) =>
        if !data.JObject? then DetailRaised
        else
          match First(Get(data.fields, "pois", JArray([])))
          case Empty => DetailError("未找到POI详情")
          case Raises => DetailRaised
          case Element(poi) =>
            if !poi.JObject? then DetailRaised
            else Detail(map key | key in DetailKeys :: Get(poi.fields, key, DetailDefault(key)))
  }

  /** `get_poi_detail(poi_id)`. */
  function PoiDetail(poiId: string, tools: set<string>, invoke: (string, map<string, Json>) -> ToolReply,
                     loads: string -> Option<Json>): DetailResult
  {
    if DetailTool !in tools then DetailError("工具不可用")
    else PoiDetailReply(invoke(DetailTool, map["id" := JString(poiId)]), loads)
  }

  /**
   * No POI gives the "未找到POI详情" error; otherwise the detail has exactly
   * the thirteen keys, each with the first POI's value or its default.
   */
  lemma PoiDetailFirst(data: map<string, Json>, loads: string -> Option<Json>)
    ensures !Truthy(Get(data, "pois", JArray([]))) ==>
      PoiDetailReply(Returned(JObject(data)), loads) == DetailError("未找到POI详情")
    ensures var pois := Get(data, "pois", JArray([]));
      pois.JArray? && |pois.items| > 0 && pois.items[0].JObject? ==>
        var r := PoiDetailReply(Returned(JObject(data)), loads);
        r.Detail? && r.fields.Keys == DetailKeys &&
        forall key :: key in DetailKeys ==>
          r.fields[key] == if key in pois.items[0].fields then pois.items[0].fields[key] else DetailDefault(key)
  {
  }

  const RegeocodeTool := "maps_regeocode"

  /** `reverse_geocode` from the tool's answer on: a truthy "formatted_address", else None. */
  function ReverseGeocodeReply(reply: ToolReply, loads: string -> Option<Json>): Option<Json> {
    match reply
    case ToolRaised => None
    case Returned(response) =>
      match Loaded(response, loads)
      case None => None
      case Some(data) =>
        if !data.JObject? then None
        else
          var regeocode := Get(data.fields, "regeocode", JObject(map[]));
          if !regeocode.JObject? then None
          else
            var address := Field(regeocode.fields, "formatted_address", "");
            if Truthy(address) then Some(address) else None
  }

  /** `reverse_geocode`; `location` is the formatted "longitude,latitude" text of the payload. */
  function ReverseGeocode(location: string, tools: set<string>, invoke: (string, map<string, Json>) -> ToolReply,
                          loads: string -> Option<Json>): Option<Json>
  {
    if RegeocodeTool !in tools then None
    else ReverseGeocodeReply(invoke(RegeocodeTool, map["location" := JString(location)]), loads)
  }

  /** The address is returned exactly when it is present and truthy. */
  lemma ReverseGeocodeAddress(data: map<string, Json>, regeocode: map<string, Json>, loads: string -> Option<Json>)
    requires Get(data, "regeocode", JObject(map[])) == JObject(regeocode)
    ensures var r := ReverseGeocodeReply(Returned(JObject(data)), loads);
      (r.None? <==> !Truthy(Field(regeocode, "formatted_address", ""))) &&
      (r.Some? ==> "formatted_address" in regeocode && r.value == regeocode["formatted_address"])
  {
  }

  // ---------------------------------------------------------------------
  // plan_route
  // ---------------------------------------------------------------------

  /** `tool_map.get(route_type, "maps_direction_walking")`. */
  function RouteToolName(routeType: string): string {
    if routeType == "driving" then "maps_direction_driving"
    else if routeType == "transit" then "maps_direction_transit_integrated"
    else if routeType == "bicycling" then "maps_direction_bicycling"
    else "maps_direction_walking"
  }

  /** The four route types each select their own tool; every other type selects walking. */
  lemma RouteToolChoice(routeType: string)
    ensures RouteToolName("walking") == "maps_direction_walking"
    ensures RouteToolName("driving") == "maps_direction_driving"
    ensures RouteToolName("transit") == "maps_direction_transit_integrated"
    ensures RouteToolName("bicycling") == "maps_direction_bicycling"
    ensures routeType !in {"walking", "driving", "transit", "bicycling"} ==>
      RouteToolName(routeType) == "maps_direction_walking"
    ensures RouteToolName(routeType) == "maps_direction_walking" ==>
      routeType !in {"driving", "transit", "bicycling"}
  {
  }

  /** What `plan_route` returns. */
  datatype RouteResult =
    | RouteError(message: string)    // {"error": message}
    | RouteRaised                    // {"error": str(e)} from the handler
    | Route(routeType: string, originAddress: string, originLocation: Json,
            destinationAddress: string, destinationLocation: Json, routeData: Json)   // "success": True

  /** A `plan_route` result with the tool calls it made, in order. */
  datatype RouteRun = RouteRun(result: RouteResult, calls: seq<ToolCall>)

  function OriginNotFound(address: string): string {
    "无法找到起点 '" + address + "' 的坐标"
  }

  function DestinationNotFound(address: string): string {
    "无法找到终点 '" + address + "' 的坐标"
  }

  /** `response[:200]` in the log line succeeds only on text and lists. */
  predicate Sliceable(v: Json) {
    v.JString? || v.JArray?
  }

  /** One address lookup of `plan_route`: call, log line, decode, extract. */
  function RouteLookup(reply: ToolReply, loads: string -> Option<Json>): Located {
    match reply
    case ToolRaised => LookupRaised
    case Returned(response) =>
      if !Sliceable(response) then LookupRaised
      else
        match Loaded(response, loads)
        case None => LookupRaised
        case Some(data) => FirstLocation(data)
  }

  /** The route tool's payload. */
  function RoutePayload(origin: Json, destination: Json): map<string, Json> {
    map["origin" := origin, "destination" := destination]
  }

  /** `plan_route` as a value: its result and the tool calls it made. */
  function PlanRouteRun(originAddress: string, destinationAddress: string,
                        originCity: Option<string>, destinationCity: Option<string>, routeType: string,
                        tools: set<string>, invoke: (string, map<string, Json>) -> ToolReply,
                        loads: string -> Option<Json>): RouteRun
  {
    if GeoTool !in tools then RouteRun(RouteError("未找到地理编码工具"), [])
    else
      var originCall := ToolCall(GeoTool, GeoPayload(originAddress, originCity));
      match RouteLookup(invoke(originCall.tool, originCall.payload), loads)
      case LookupRaised => RouteRun(RouteRaised, [originCall])
      case NotFound => RouteRun(RouteError(OriginNotFound(originAddress)), [originCall])
      case LocatedAt(origin) =>
        var destinationCall := ToolCall(GeoTool, GeoPayload(destinationAddress, destinationCity));
        match RouteLookup(invoke(destinationCall.tool, destinationCall.payload), loads)
        case LookupRaised => RouteRun(RouteRaised, [originCall, destinationCall])
        case NotFound => RouteRun(RouteError(DestinationNotFound(destinationAddress)), [originCall, destinationCall])
        case LocatedAt(destination) =>
          var leg := RouteLeg(originAddress, origin, destinationAddress, destination, routeType, tools, invoke, loads);
          RouteRun(leg.result, [originCall, destinationCall] + leg.calls)
  }

  /** The last step of `plan_route`, once both addresses are located: the route tool's call. */
  function RouteLeg(originAddress: string, origin: Json, destinationAddress: string, destination: Json,
                    routeType: string, tools: set<string>, invoke: (string, map<string, Json>) -> ToolReply,
                    loads: string -> Option<Json>): RouteRun
  {
    var toolName := RouteToolName(routeType);
    if toolName !in tools then RouteRun(RouteError("未找到路线规划工具: " + toolName), [])
    else
      var routeCall := ToolCall(toolName, RoutePayload(origin, destination));
      match invoke(routeCall.tool, routeCall.payload)
      case ToolRaised => RouteRun(RouteRaised, [routeCall])
      case Returned(response) =>
        match Loaded(response, loads)
        case None => RouteRun(RouteRaised, [routeCall])
        case Some(routeData) =>
          RouteRun(Route(routeType, originAddress, origin, destinationAddress, destination, routeData), [routeCall])
  }

  /**
   * `plan_route`: geocode the origin, then the destination, then call the
   * route tool, returning an error dictionary at the first step that
   * finds nothing and the handler's error when a step raises.
   */
  method PlanRoute(originAddress: string, destinationAddress: string,
                   originCity: Option<string>, destinationCity: Option<string>, routeType: string,
                   tools: set<string>, invoke: (string, map<string, Json>) -> ToolReply,
                   loads: string -> Option<Json>)
    returns (result: RouteResult, calls: seq<ToolCall>)
    ensures RouteRun(result, calls) ==
      PlanRouteRun(originAddress, destinationAddress, originCity, destinationCity, routeType, tools, invoke, loads)
  {
    calls := [];
    if GeoTool !in tools {
      return RouteError("未找到地理编码工具"), calls;
    }

    var originPayload := GeoPayload(originAddress, originCity);
    calls := [ToolCall(GeoTool, originPayload)];
    var origin := RouteLookup(invoke(GeoTool, originPayload), loads);
    if origin.LookupRaised? {
      return RouteRaised, calls;
    }
    if origin.NotFound? {
      return RouteError(OriginNotFound(originAddress)), calls;
    }

    var destinationPayload := GeoPayload(destinationAddress, destinationCity);
    calls := calls + [ToolCall(GeoTool, destinationPayload)];
    var destination := RouteLookup(invoke(GeoTool, destinationPayload), loads);
    if destination.LookupRaised? {
      return RouteRaised, calls;
    }
    if destination.NotFound? {
      return RouteError(DestinationNotFound(destinationAddress)), calls;
    }

    var toolName := RouteToolName(routeType);
    if toolName !in tools {
      return RouteError("未找到路线规划工具: " + toolName), calls;
    }
    var routePayload := RoutePayload(origin.location, destination.location);
    calls := calls + [ToolCall(toolName, routePayload)];
    var routeReply := invoke(toolName, routePayload);
    if routeReply.ToolRaised? {
      return RouteRaised, calls;
    }
    var routeData := Loaded(routeReply.value, loads);
    if routeData.None? {
      return RouteRaised, calls;
    }
    result := Route(routeType, originAddress, origin.location, destinationAddress, destination.location, routeData.value);
  }

  /**
   * An origin without a location stops `plan_route` with the origin error,
   * after the one geocoding call: the destination is never looked up.
   */
  lemma OriginNotFoundStops(originAddress: string, destinationAddress: string,
                            originCity: Option<string>, destinationCity: Option<string>, routeType: string,
                            tools: set<string>, invoke: (string, map<string, Json>) -> ToolReply,
                            loads: string -> Option<Json>)
    requires GeoTool in tools
    requires RouteLookup(invoke(GeoTool, GeoPayload(originAddress, originCity)), loads) == NotFound
    ensures PlanRouteRun(originAddress, destinationAddress, originCity, destinationCity, routeType, tools, invoke, loads) ==
      RouteRun(RouteError(OriginNotFound(originAddress)), [ToolCall(GeoTool, GeoPayload(originAddress, originCity))])
  {
  }

  /**
   * A destination without a location stops `plan_route` with the
   * destination error after the two geocoding calls: no route tool is called.
   */
  lemma DestinationNotFoundStops(originAddress: string, destinationAddress: string,
                                 originCity: Option<string>, destinationCity: Option<string>, routeType: string,
                                 tools: set<string>, invoke: (string, map<string, Json>) -> ToolReply,
                                 loads: string -> Option<Json>)
    requires GeoTool in tools
    requires RouteLookup(invoke(GeoTool, GeoPayload(originAddress, originCity)), loads).LocatedAt?
    requires RouteLookup(invoke(GeoTool, GeoPayload(destinationAddress, destinationCity)), loads) == NotFound
    ensures var run := PlanRouteRun(originAddress, destinationAddress, originCity, destinationCity, routeType, tools, invoke, loads);
      run.result == RouteError(DestinationNotFound(destinationAddress)) &&
      run.calls == [ToolCall(GeoTool, GeoPayload(originAddress, originCity)),
                    ToolCall(GeoTool, GeoPayload(destinationAddress, destinationCity))]
  {
  }

  /**
   * A successful route echoes the route type, both addresses and both
   * located coordinates (each a truthy first-result location), and comes
   * from exactly two geocoding calls and one call of the selected route tool.
   */
  lemma RouteSuccessEchoes(originAddress: string, destinationAddress: string,
                           originCity: Option<string>, destinationCity: Option<string>, routeType: string,
                           tools: set<string>, invoke: (string, map<string, Json>) -> ToolReply,
                           loads: string -> Option<Json>)
    ensures var run := PlanRouteRun(originAddress, destinationAddress, originCity, destinationCity, routeType, tools, invoke, loads);
      run.result.Route? ==>
        var r := run.result;
        r.routeType == routeType && r.originAddress == originAddress && r.destinationAddress == destinationAddress &&
        RouteLookup(invoke(GeoTool, GeoPayload(originAddress, originCity)), loads) == LocatedAt(r.originLocation) &&
        RouteLookup(invoke(GeoTool, GeoPayload(destinationAddress, destinationCity)), loads) == LocatedAt(r.destinationLocation) &&
        Truthy(r.originLocation) && Truthy(r.destinationLocation) &&
        run.calls == [ToolCall(GeoTool, GeoPayload(originAddress, originCity)),
                      ToolCall(GeoTool, GeoPayload(destinationAddress, destinationCity)),
                      ToolCall(RouteToolName(routeType), RoutePayload(r.originLocation, r.destinationLocation))]
  {
    var run := PlanRouteRun(originAddress, destinationAddress, originCity, destinationCity, routeType, tools, invoke, loads);
    if run.result.Route? {
      LocatedIsTruthy(loads);
    }
  }

  /** A located address always has a truthy location. */
  lemma LocatedIsTruthy(loads: string -> Option<Json>)
    ensures forall data :: FirstLocation(data).LocatedAt? ==> Truthy(FirstLocation(data).location)
    ensures forall reply :: RouteLookup(reply, loads).LocatedAt? ==> Truthy(RouteLookup(reply, loads).location)
  {
  }

  /**
   * Every operation checks for its tool first: without it the searches
   * return [], `geocode` and `reverse_geocode` None, `get_poi_detail` the
   * "工具不可用" error and `plan_route` the geocoding-tool error, and no
   * tool is called.
   */
  lemma MissingToolResults(keywords: string, city: string, citylimit: bool, location: string, radius: int,
                           address: string, originCity: Option<string>, poiId: string,
                           originAddress: string, destinationAddress: string, destinationCity: Option<string>,
                           routeType: string, tools: set<string>, invoke: (string, map<string, Json>) -> ToolReply,
                           loads: string -> Option<Json>, parseFloat: string -> Option<real>)
    ensures TextSearchTool !in tools ==> TextSearchItems(keywords, city, citylimit, tools, invoke, loads) == None
    ensures AroundSearchTool !in tools ==> AroundSearchItems(location, keywords, radius, tools, invoke, loads) == None
    ensures GeoTool !in tools ==> Geocode(address, originCity, tools, invoke, loads, parseFloat) == None
    ensures GeoTool !in tools ==>
      PlanRouteRun(originAddress, destinationAddress, originCity, destinationCity, routeType, tools, invoke, loads) ==
        RouteRun(RouteError("未找到地理编码工具"), [])
    ensures DetailTool !in tools ==> PoiDetail(poiId, tools, invoke, loads) == DetailError("工具不可用")
    ensures RegeocodeTool !in tools ==> ReverseGeocode(location, tools, invoke, loads) == None
  {
  }
}
