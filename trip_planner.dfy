/**
 * The multi-agent trip planner: four language-model stages run in a fixed
 * order (attractions, weather, hotels, itinerary), the itinerary text is
 * parsed into a plan, and a deterministic fallback plan is produced
 * whenever initialisation, the itinerary stage or the parse fails.
 *
 * The language-model agents are not modelled: an agent is an opaque handle
 * and `respond(agent, query)` is what its `ainvoke` yields (the last
 * message's text, or an exception). JSON decoding followed by schema
 * validation (`json.loads` then `TripPlan(**data)`) is the parameter
 * `decode`.
 */
module TripPlanner {
  import opened Wrappers
  import opened Strings
  import opened Calendar
  import opened Schemas

  // ---------------------------------------------------------------------
  // Query builders
  // ---------------------------------------------------------------------

  /** The search keyword: the first preference, or "景点" when there is none. */
  function AttractionKeyword(request: TripRequest): string {
    if |request.preferences| > 0 then request.preferences[0] else "景点"
  }

  /** The tool-call line the attraction query ends with. */
  function AttractionToolCall(city: string, keyword: string): string {
    "[TOOL_CALL:amap_maps_text_search:keywords=" + keyword + ",city=" + city + "]"
  }

  /** `_build_attraction_query`. */
  function AttractionQuery(request: TripRequest): string {
    "请使用amap_maps_text_search工具搜索" + request.city + "的" + AttractionKeyword(request) +
    "相关景点。\n" + AttractionToolCall(request.city, AttractionKeyword(request))
  }

  /**
   * The attraction query ends with a text-search tool call whose keyword is
   * the first preference (or "景点" with no preferences) and whose city is
   * the requested city.
   */
  lemma AttractionQueryCallsSearch(request: TripRequest)
    ensures |request.preferences| > 0 ==>
      Contains(AttractionQuery(request), AttractionToolCall(request.city, request.preferences[0]))
    ensures |request.preferences| == 0 ==>
      Contains(AttractionQuery(request), AttractionToolCall(request.city, "景点"))
    ensures var q, call := AttractionQuery(request), AttractionToolCall(request.city, AttractionKeyword(request));
      |call| <= |q| && q[|q| - |call|..] == call
  {
    var q := AttractionQuery(request);
    var call := AttractionToolCall(request.city, AttractionKeyword(request));
    var head := q[..|q| - |call|];
    assert q == head + call + "";
    ContainsMiddle(head, call, "");
  }

  /** The weather stage's query (line 87). */
  function WeatherQuery(request: TripRequest): (q: string)
    ensures Contains(q, request.city)
  {
    ContainsMiddle("请查询", request.city, "的天气信息");
    "请查询" + request.city + "的天气信息"
  }

  /** The hotel stage's query (line 100). */
  function HotelQuery(request: TripRequest): (q: string)
    ensures Contains(q, request.accommodation)
  {
    var head := "请搜索" + request.city + "的";
    ContainsMiddle(head, request.accommodation, "酒店");
    head + request.accommodation + "酒店"
  }

  /** `', '.join(preferences) if preferences else '无'`. */
  function PreferencesText(preferences: seq<string>): string {
    if |preferences| > 0 then Join(preferences, ", ") else "无"
  }

  /** Python's truthiness of `free_text_input`: present and non-empty. */
  predicate FreeTextGiven(request: TripRequest) {
    request.freeTextInput.Some? && request.freeTextInput.value != ""
  }

  /** The text before the attractions block of the itinerary query. */
  function PlannerQueryHead(request: TripRequest): string {
    var days := IntToString(request.travelDays);
    "请根据以下信息生成" + request.city + "的" + days +
    "天旅行计划:\n\n            **基本信息:**\n            - 城市: " + request.city +
    "\n            - 日期: " + request.startDate + " 至 " + request.endDate +
    "\n            - 天数: " + days +
    "天\n            - 交通方式: " + request.transportation +
    "\n            - 住宿: " + request.accommodation +
    "\n            - 偏好: " + PreferencesText(request.preferences) +
    "\n        \n            **景点信息:**\n            "
  }

  const WeatherHeading := "\n        \n            **天气信息:**\n            "
  const HotelHeading := "\n        \n            **酒店信息:**\n            "
  const Requirements :=
    "\n        \n            **要求:**\n            1. 每天安排2-3个景点\n            2. 每天必须包含早中晚三餐\n            3. 每天推荐一个具体的酒店(从酒店信息中选择)\n            3. 考虑景点之间的距离和交通方式\n            4. 返回完整的JSON格式数据\n            5. 景点的经纬度坐标要真实准确\n            "
  const ExtraHeading := "\n**额外要求:** "

  /** The line `free_text_input` adds, when it is truthy. */
  function ExtraLine(request: TripRequest): string {
    if FreeTextGiven(request) then ExtraHeading + request.freeTextInput.value else ""
  }

  /** `_build_planner_query`. */
  function PlannerQuery(request: TripRequest, attractions: string, weather: string, hotels: string): string {
    PlannerQueryHead(request) + attractions + WeatherHeading + weather + HotelHeading + hotels +
    (Requirements + ExtraLine(request))
  }

  /**
   * The three context texts appear verbatim in the itinerary query, in the
   * order attractions, weather, hotels, without overlapping.
   */
  lemma PlannerQueryEmbedsContext(request: TripRequest, attractions: string, weather: string, hotels: string)
    ensures var q := PlannerQuery(request, attractions, weather, hotels);
      var i := |PlannerQueryHead(request)|;
      var j := i + |attractions| + |WeatherHeading|;
      var k := j + |weather| + |HotelHeading|;
      OccursAt(q, attractions, i) && OccursAt(q, weather, j) && OccursAt(q, hotels, k)
  {
    EmbedsThree(PlannerQueryHead(request), attractions, WeatherHeading, weather, HotelHeading, hotels,
      Requirements + ExtraLine(request));
  }

  lemma EmbedsThree(p: string, a: string, x: string, b: string, y: string, c: string, z: string)
    ensures var s := p + a + x + b + y + c + z;
      OccursAt(s, a, |p|) && OccursAt(s, b, |p| + |a| + |x|) && OccursAt(s, c, |p| + |a| + |x| + |b| + |y|)
  {
    var s := p + a + x + b + y + c + z;
    assert s[|p|..|p| + |a|] == a;
    assert s[|p| + |a| + |x|..|p| + |a| + |x| + |b|] == b;
    assert s[|p| + |a| + |x| + |b| + |y|..|p| + |a| + |x| + |b| + |y| + |c|] == c;
  }

  /**
   * The free-text input only ever appends the "额外要求" line, and does so
   * exactly when it is truthy.
   */
  lemma PlannerQueryExtraRequirement(request: TripRequest, attractions: string, weather: string, hotels: string)
    ensures var plain := PlannerQuery(request.(freeTextInput := None), attractions, weather, hotels);
      PlannerQuery(request, attractions, weather, hotels) ==
        if FreeTextGiven(request) then plain + ExtraHeading + request.freeTextInput.value else plain
  {
    var plainRequest := request.(freeTextInput := None);
    assert PlannerQueryHead(plainRequest) == PlannerQueryHead(request);
    var text := if FreeTextGiven(request) then request.freeTextInput.value else "";
    AppendTail(PlannerQueryHead(request) + attractions + WeatherHeading + weather + HotelHeading + hotels,
      Requirements, ExtraLine(request), ExtraLine(plainRequest), FreeTextGiven(request), text);
  }

  lemma AppendTail(front: string, t: string, e: string, none: string, given: bool, text: string)
    requires none == "" && e == if given then ExtraHeading + text else ""
    ensures front + (t + e) == if given then front + (t + none) + ExtraHeading + text else front + (t + none)
  {
    assert t + none == t;
    if given {
      assert front + (t + e) == front + t + ExtraHeading + text;
    }
  }

  // ---------------------------------------------------------------------
  // Fallback plan
  // ---------------------------------------------------------------------

  /** The exceptions the fallback generator can raise, which `plan_trip` re-raises. */
  datatype PlanError =
    | InvalidStartDate   // `strptime` raised ValueError
    | DateOverflow       // `start + timedelta(days=i)` raised OverflowError

  /** `range(travel_days)` runs this many times. */
  function DayCount(request: TripRequest): nat {
    if request.travelDays > 0 then request.travelDays else 0
  }

  /** Placeholder attraction `j` of day `i`. */
  function FallbackAttraction(request: TripRequest, i: nat, j: nat): Attraction {
    Attraction(
      request.city + "景点" + NatToString(j + 1),
      request.city + "市",
      Location(116.4 + i as real * 0.01 + j as real * 0.005, 39.9 + i as real * 0.01 + j as real * 0.005),
      120,
      "这是" + request.city + "的著名景点",
      "景点")
  }

  /** Day `i` of the fallback plan, dated `date`. */
  function FallbackDay(request: TripRequest, date: Date, i: nat): DayPlan
    requires Valid(date)
  {
    var n := NatToString(i + 1);
    DayPlan(
      FormatDate(date),
      i,
      "第" + n + "天行程",
      request.transportation,
      request.accommodation,
      [FallbackAttraction(request, i, 0), FallbackAttraction(request, i, 1)],
      [Meal("breakfast", "第" + n + "天早餐", "当地特色早餐"),
       Meal("lunch", "第" + n + "天午餐", "午餐推荐"),
       Meal("dinner", "第" + n + "天晚餐", "晚餐推荐")])
  }

  function FallbackSuggestions(request: TripRequest): string {
    "这是为您规划的" + request.city + IntToString(request.travelDays) + "日游行程,建议提前查看各景点的开放时间。"
  }

  /**
   * `_create_fallback_plan` as a value: day `i` is dated `start + i days`;
   * an unparsable start date or a date past 9999-12-31 is an error.
   */
  function FallbackPlan(request: TripRequest): Result<TripPlan, PlanError> {
    match ParseDate(request.startDate)
    case None => Failure(InvalidStartDate)
    case Some(start) =>
      var n := DayCount(request);
      if n > 0 && AddDays(start, n - 1).None? then Failure(DateOverflow)
      else
        Success(TripPlan(
          request.city,
          request.startDate,
          request.endDate,
          FallbackDays(request, start, n),
          [],
          FallbackSuggestions(request)))
  }

  /** Days `0 .. n-1` of the fallback plan, dated from `start`. */
  function FallbackDays(request: TripRequest, start: Date, n: nat): (days: seq<DayPlan>)
    requires Valid(start) && (n == 0 || AddDays(start, n - 1).Some?)
    ensures |days| == n
  {
    if n == 0 then []
    else
      AddDaysPrev(start, n - 1);
      FallbackDays(request, start, n - 1) + [FallbackDay(request, AddDays(start, n - 1).value, n - 1)]
  }

  lemma AddDaysPrev(start: Date, k: nat)
    requires Valid(start) && AddDays(start, k).Some?
    ensures k == 0 || AddDays(start, k - 1).Some?
  {
  }

  lemma OverflowPersists(start: Date, i: nat, n: nat)
    requires Valid(start) && i <= n && AddDays(start, i).None?
    ensures AddDays(start, n).None?
  {
    AddDaysOrdinal(start, i);
    AddDaysOrdinal(start, n);
  }

  /** Day `i` of `FallbackDays` is the fallback day dated `start + i days`. */
  lemma {:induction false} FallbackDaysAt(request: TripRequest, start: Date, n: nat, i: nat)
    requires Valid(start) && (n == 0 || AddDays(start, n - 1).Some?) && i < n
    ensures AddDays(start, i).Some?
    ensures FallbackDays(request, start, n)[i] == FallbackDay(request, AddDays(start, i).value, i)
  {
    if i < n - 1 {
      AddDaysPrev(start, n - 1);
      FallbackDaysAt(request, start, n - 1, i);
    }
  }

  /**
   * `_create_fallback_plan`: parses the start date, then appends one day
   * per iteration of `for i in range(travel_days)`.
   */
  method CreateFallbackPlan(request: TripRequest) returns (plan: Result<TripPlan, PlanError>)
    ensures plan == FallbackPlan(request)
  {
    var parsed := ParseDate(request.startDate);
    if parsed.None? {
      return Failure(InvalidStartDate);
    }
    var start := parsed.value;
    var days: seq<DayPlan> := [];
    var i := 0;
    while i < request.travelDays
      invariant 0 <= i <= DayCount(request)
      invariant i == 0 || AddDays(start, i - 1).Some?
      invariant days == FallbackDays(request, start, i)
    {
      var current := AddDays(start, i);
      if current.None? {
        FallbackOverflows(request, start, i);
        return Failure(DateOverflow);
      }
      days := days + [FallbackDay(request, current.value, i)];
      i := i + 1;
    }
    FallbackSucceeds(request, start);
    plan := Success(TripPlan(request.city, request.startDate, request.endDate, days, [], FallbackSuggestions(request)));
  }

  lemma FallbackOverflows(request: TripRequest, start: Date, i: nat)
    requires ParseDate(request.startDate) == Some(start)
    requires i < DayCount(request) && AddDays(start, i).None?
    ensures FallbackPlan(request) == Failure(DateOverflow)
  {
    OverflowPersists(start, i, DayCount(request) - 1);
  }

  lemma FallbackSucceeds(request: TripRequest, start: Date)
    requires ParseDate(request.startDate) == Some(start)
    requires DayCount(request) == 0 || AddDays(start, DayCount(request) - 1).Some?
    ensures FallbackPlan(request) == Success(TripPlan(request.city, request.startDate, request.endDate,
      FallbackDays(request, start, DayCount(request)), [], FallbackSuggestions(request)))
  {
  }

  /**
   * The fallback generator fails exactly when the start date does not
   * parse, or when the last day would lie after 9999-12-31.
   */
  lemma FallbackFailsOnlyOnDates(request: TripRequest)
    ensures ParseDate(request.startDate).None? ==> FallbackPlan(request) == Failure(InvalidStartDate)
    ensures ParseDate(request.startDate).Some? ==>
      (FallbackPlan(request).Success? <==>
        DayCount(request) == 0 ||
        Ordinal(ParseDate(request.startDate).value) + DayCount(request) - 1 <= Ordinal(MaxDate))
  {
    if ParseDate(request.startDate).Some? && DayCount(request) > 0 {
      AddDaysOrdinal(ParseDate(request.startDate).value, DayCount(request) - 1);
    }
  }

  /**
   * The fallback plan has one day per `travel_days`; day `i` has index `i`
   * and is dated `start + i days`, so the dates parse back to consecutive
   * ordinals starting at the start date.
   */
  lemma FallbackDaysAndDates(request: TripRequest)
    requires FallbackPlan(request).Success?
    ensures |FallbackPlan(request).value.days| == DayCount(request)
    ensures forall i :: 0 <= i < |FallbackPlan(request).value.days| ==>
      var day := FallbackPlan(request).value.days[i];
      var start := ParseDate(request.startDate).value;
      day.dayIndex == i && ParseDate(day.date).Some? && ParseDate(day.date) == AddDays(start, i) &&
      Ordinal(ParseDate(day.date).value) == Ordinal(start) + i
  {
    var start := ParseDate(request.startDate).value;
    var n := DayCount(request);
    FallbackDaysDated(request, start, n);
  }

  lemma FallbackDaysDated(request: TripRequest, start: Date, n: nat)
    requires Valid(start) && (n == 0 || AddDays(start, n - 1).Some?)
    ensures forall i :: 0 <= i < n ==>
      var day := FallbackDays(request, start, n)[i];
      day.dayIndex == i && ParseDate(day.date).Some? && ParseDate(day.date) == AddDays(start, i) &&
      Ordinal(ParseDate(day.date).value) == Ordinal(start) + i
  {
    forall i | 0 <= i < n
      ensures var day := FallbackDays(request, start, n)[i];
        day.dayIndex == i && ParseDate(day.date).Some? && ParseDate(day.date) == AddDays(start, i) &&
        Ordinal(ParseDate(day.date).value) == Ordinal(start) + i
    {
      FallbackDaysAt(request, start, n, i);
      FallbackDayDated(request, start, i);
    }
  }

  /** Day `i` carries the date `start + i days`, in a form that parses back. */
  lemma FallbackDayDated(request: TripRequest, start: Date, i: nat)
    requires Valid(start) && AddDays(start, i).Some?
    ensures var date := FallbackDay(request, AddDays(start, i).value, i).date;
      ParseDate(date).Some? && ParseDate(date) == AddDays(start, i) && Ordinal(ParseDate(date).value) == Ordinal(start) + i
  {
    ParseFormat(AddDays(start, i).value);
    AddDaysOrdinal(start, i);
  }

  /** The contents of one fallback day, whatever its date. */
  lemma FallbackDayShape(request: TripRequest, date: Date, i: nat)
    requires Valid(date)
    ensures var day := FallbackDay(request, date, i);
      |day.attractions| == 2 &&
      day.attractions[0].name == request.city + "景点1" &&
      day.attractions[1].name == request.city + "景点2" &&
      day.attractions[0].visitDuration == 120 && day.attractions[1].visitDuration == 120 &&
      day.attractions[0].location == Location(116.4 + i as real * 0.01, 39.9 + i as real * 0.01) &&
      day.attractions[1].location == Location(116.405 + i as real * 0.01, 39.905 + i as real * 0.01) &&
      |day.meals| == 3 &&
      day.meals[0].kind == "breakfast" && day.meals[1].kind == "lunch" && day.meals[2].kind == "dinner"
  {
    assert NatToString(1) == "1" && NatToString(2) == "2";
  }

  /**
   * Every fallback day has the two placeholder attractions "{city}景点1" and
   * "{city}景点2" of 120 minutes at the offset coordinates, and three meals:
   * breakfast, lunch and dinner, in that order.
   */
  lemma FallbackDayContents(request: TripRequest)
    requires FallbackPlan(request).Success?
    ensures forall i :: 0 <= i < |FallbackPlan(request).value.days| ==>
      var day := FallbackPlan(request).value.days[i];
      |day.attractions| == 2 &&
      day.attractions[0].name == request.city + "景点1" &&
      day.attractions[1].name == request.city + "景点2" &&
      day.attractions[0].visitDuration == 120 && day.attractions[1].visitDuration == 120 &&
      day.attractions[0].location == Location(116.4 + i as real * 0.01, 39.9 + i as real * 0.01) &&
      day.attractions[1].location == Location(116.405 + i as real * 0.01, 39.905 + i as real * 0.01) &&
      |day.meals| == 3 &&
      day.meals[0].kind == "breakfast" && day.meals[1].kind == "lunch" && day.meals[2].kind == "dinner"
  {
    var start := ParseDate(request.startDate).value;
    var n := DayCount(request);
    var days := FallbackDays(request, start, n);
    assert FallbackPlan(request).value.days == days;
    forall i | 0 <= i < n
      ensures var day := days[i];
        |day.attractions| == 2 &&
        day.attractions[0].name == request.city + "景点1" &&
        day.attractions[1].name == request.city + "景点2" &&
        day.attractions[0].visitDuration == 120 && day.attractions[1].visitDuration == 120 &&
        day.attractions[0].location == Location(116.4 + i as real * 0.01, 39.9 + i as real * 0.01) &&
        day.attractions[1].location == Location(116.405 + i as real * 0.01, 39.905 + i as real * 0.01) &&
        |day.meals| == 3 &&
        day.meals[0].kind == "breakfast" && day.meals[1].kind == "lunch" && day.meals[2].kind == "dinner"
    {
      FallbackDaysAt(request, start, n, i);
      FallbackDayShape(request, AddDays(start, i).value, i);
    }
  }

  /**
   * The fallback plan copies the city and both dates of the request, has
   * no weather entries, and every day repeats the requested transportation
   * and accommodation.
   */
  lemma FallbackEchoesRequest(request: TripRequest)
    requires FallbackPlan(request).Success?
    ensures var plan := FallbackPlan(request).value;
      plan.city == request.city && plan.startDate == request.startDate &&
      plan.endDate == request.endDate && plan.weatherInfo == [] &&
      forall i :: 0 <= i < |plan.days| ==>
        plan.days[i].transportation == request.transportation &&
        plan.days[i].accommodation == request.accommodation
  {
    var start := ParseDate(request.startDate).value;
    var n := DayCount(request);
    var days := FallbackDays(request, start, n);
    assert FallbackPlan(request).value.days == days;
    forall i | 0 <= i < n
      ensures days[i].transportation == request.transportation
      ensures days[i].accommodation == request.accommodation
    {
      FallbackDaysAt(request, start, n, i);
    }
  }

  // ---------------------------------------------------------------------
  // Parsing the itinerary stage's text
  // ---------------------------------------------------------------------

  const JsonFence := "```json"
  const Fence := "```"

  /** No fence marker inside, and no backtick at the end that a fence could run into. */
  predicate FenceFree(t: string) {
    !Contains(t, Fence) && (|t| == 0 || t[|t| - 1] != '`')
  }

  lemma TaggedImpliesFence(s: string)
    requires Contains(s, JsonFence)
    ensures Contains(s, Fence)
  {
    var i := Find(s, JsonFence, 0);
    assert s[i..i + 3] == s[i..i + 7][..3];
    OccursImpliesContains(s, Fence, i);
  }

  /**
   * The payload `_parse_response` hands to the JSON decoder: the stripped
   * content of the first ```json fence, else of the first plain fence,
   * else the span from the first `{` to the last `}`; None raises
   * "no JSON found". A fence without a closing marker has `find` return
   * -1, so the slice then stops one character before the end.
   */
  function ExtractPayload(response: string): (r: Option<string>)
    ensures r.None? <==> !Contains(response, Fence) && !(Contains(response, "{") && Contains(response, "}"))
  {
    if Contains(response, JsonFence) then
      TaggedImpliesFence(response);
      var start := Find(response, JsonFence, 0) + |JsonFence|;
      var end := Find(response, Fence, start);
      Some(Strip(PySlice(response, start, end)))
    else if Contains(response, Fence) then
      var start := Find(response, Fence, 0) + |Fence|;
      var end := Find(response, Fence, start);
      Some(Strip(PySlice(response, start, end)))
    else if Contains(response, "{") && Contains(response, "}") then
      Some(PySlice(response, Find(response, "{", 0), RFind(response, "}") + 1))
    else
      None
  }

  /** `_parse_response`: any extraction, decoding or validation failure gives the fallback plan. */
  function ParseResponse(response: string, request: TripRequest, decode: string -> Option<TripPlan>): Result<TripPlan, PlanError> {
    match ExtractPayload(response)
    case None => FallbackPlan(request)
    case Some(payload) =>
      match decode(payload)
      case None => FallbackPlan(request)
      case Some(plan) => Success(plan)
  }

  /** "```json" cannot begin inside a longer run that ends where another copy begins. */
  lemma JsonFenceNoSelfOverlap(d: int)
    requires 0 < d < |JsonFence|
    ensures JsonFence[d..] != JsonFence[..|JsonFence| - d]
  {
    if d <= 3 {
      assert JsonFence[d..][3 - d] == 'j';
      assert JsonFence[..|JsonFence| - d][3 - d] == '`';
    } else {
      assert JsonFence[d..][0] != '`';
    }
  }

  /** The first "```json" of `pre + "```json" + rest` is the one after `pre`. */
  lemma FirstJsonFence(pre: string, rest: string)
    requires !Contains(pre, JsonFence)
    ensures Find(pre + JsonFence + rest, JsonFence, 0) == |pre|
  {
    var s := pre + JsonFence + rest;
    assert OccursAt(s, JsonFence, |pre|) by {
      assert s[|pre|..|pre| + |JsonFence|] == JsonFence;
    }
    forall i | 0 <= i < |pre| ensures !OccursAt(s, JsonFence, i) {
      if OccursAt(s, JsonFence, i) {
        if i + |JsonFence| <= |pre| {
          assert pre[i..i + |JsonFence|] == s[i..i + |JsonFence|];
          OccursImpliesContains(pre, JsonFence, i);
        } else {
          var d := |pre| - i;
          JsonFenceNoSelfOverlap(d);
        }
      }
    }
  }

  /** Each character of an occurrence is the pattern's. */
  lemma CharOfOccurrence(s: string, pat: string, i: int, k: int)
    requires OccursAt(s, pat, i) && i <= k < i + |pat|
    ensures s[k] == pat[k - i]
  {
    assert s[k] == s[i..i + |pat|][k - i];
  }

  /** Searching from `|u|`, the first "```" of `u + body + "```" + rest` follows `body`. */
  lemma FirstFenceAfter(u: string, body: string, rest: string)
    requires FenceFree(body)
    ensures Find(u + body + Fence + rest, Fence, |u|) == |u| + |body|
  {
    var s := u + body + Fence + rest;
    var e := |u| + |body|;
    assert OccursAt(s, Fence, e) by {
      assert s[e..e + |Fence|] == Fence;
    }
    forall i | |u| <= i < e ensures !OccursAt(s, Fence, i) {
      if OccursAt(s, Fence, i) {
        if i + |Fence| <= e {
          assert body[i - |u|..i - |u| + |Fence|] == s[i..i + |Fence|];
          OccursImpliesContains(body, Fence, i - |u|);
        } else {
          CharOfOccurrence(s, Fence, i, e - 1);
        }
      }
    }
  }

  /**
   * A ```json fence wins over everything else in the text: whatever comes
   * before it (other fences, braces) and after it, its stripped content is
   * the payload.
   */
  lemma TaggedFenceWins(pre: string, body: string, post: string)
    requires !Contains(pre, JsonFence)
    requires FenceFree(body)
    ensures ExtractPayload(pre + JsonFence + body + Fence + post) == Some(Strip(body))
  {
    TaggedFenceFirst(pre, body, post);
    TaggedFenceClose(pre, body, post);
    MiddleOfFive(pre, JsonFence, body, Fence, post);

    TaggedFenceSlice(pre + JsonFence + body + Fence + post, |pre|, |pre| + |JsonFence| + |body|, body);
  }

  lemma TaggedFenceFirst(pre: string, body: string, post: string)
    requires !Contains(pre, JsonFence)
    ensures Find(pre + JsonFence + body + Fence + post, JsonFence, 0) == |pre|
  {
    FirstJsonFence(pre, body + Fence + post);
    assert pre + JsonFence + body + Fence + post == pre + JsonFence + (body + Fence + post);
  }

  lemma TaggedFenceClose(pre: string, body: string, post: string)
    requires FenceFree(body)
    ensures Find(pre + JsonFence + body + Fence + post, Fence, |pre| + |JsonFence|) == |pre| + |JsonFence| + |body|
  {
    FirstFenceAfter(pre + JsonFence, body, post);
  }

  /** With a "```json" at `i`, the payload is the stripped text from after it to the next fence at `j`. */
  lemma TaggedFenceSlice(s: string, i: nat, j: int, body: string)
    requires Find(s, JsonFence, 0) == i && Find(s, Fence, i + |JsonFence|) == j
    requires i + |JsonFence| <= j && s[i + |JsonFence|..j] == body
    ensures ExtractPayload(s) == Some(Strip(body))
  {
    PySliceInRange(s, i + |JsonFence|, j);
  }

  /**
   * Without a ```json fence anywhere, the first plain fence is used: its
   * stripped content is the payload, whatever follows.
   */
  lemma PlainFenceUsed(pre: string, body: string, post: string)
    requires !Contains(pre + Fence + body + Fence + post, JsonFence)
    requires FenceFree(pre) && FenceFree(body)
    ensures ExtractPayload(pre + Fence + body + Fence + post) == Some(Strip(body))
  {
    PlainFenceFirst(pre, body, post);
    PlainFenceClose(pre, body, post);
    MiddleOfFive(pre, Fence, body, Fence, post);
    PlainFenceSlice(pre + Fence + body + Fence + post, |pre|, |pre| + |Fence| + |body|, body);
  }

  lemma PlainFenceFirst(pre: string, body: string, post: string)
    requires FenceFree(pre)
    ensures Find(pre + Fence + body + Fence + post, Fence, 0) == |pre|
  {
    FirstFenceAfter("", pre, body + Fence + post);
    assert "" + pre + Fence + (body + Fence + post) == pre + Fence + body + Fence + post;
  }

  lemma PlainFenceClose(pre: string, body: string, post: string)
    requires FenceFree(body)
    ensures Find(pre + Fence + body + Fence + post, Fence, |pre| + |Fence|) == |pre| + |Fence| + |body|
  {
    FirstFenceAfter(pre + Fence, body, post);
  }

  lemma MiddleOfFive(a: string, b: string, c: string, d: string, e: string)
    ensures (a + b + c + d + e)[|a| + |b|..|a| + |b| + |c|] == c
  {
  }

  /** Without "```json", the payload is the stripped text between the first two fences. */
  lemma PlainFenceSlice(s: string, i: nat, j: int, body: string)
    requires !Contains(s, JsonFence)
    requires Find(s, Fence, 0) == i && Find(s, Fence, i + |Fence|) == j
    requires i + |Fence| <= j && s[i + |Fence|..j] == body
    ensures ExtractPayload(s) == Some(Strip(body))
  {
    PySliceInRange(s, i + |Fence|, j);
  }

  /**
   * Without any fence, a text `pre + obj + post` where `obj` runs from a
   * `{` to a `}`, with no `{` before it and no `}` after it, yields exactly
   * `obj`.
   */
  lemma BareObjectUsed(pre: string, obj: string, post: string)
    requires !Contains(pre + obj + post, Fence)
    requires '{' !in pre && '}' !in post
    requires |obj| >= 2 && obj[0] == '{' && obj[|obj| - 1] == '}'
    ensures ExtractPayload(pre + obj + post) == Some(obj)
  {
    var s := pre + obj + post;
    if Contains(s, JsonFence) {
      TaggedImpliesFence(s);
    }
    var first := |pre|;
    var last := |pre| + |obj| - 1;
    OccursAtChar(s, '{', first);
    OccursAtChar(s, '}', last);
    OccursImpliesContains(s, "{", first);
    OccursImpliesContains(s, "}", last);
    forall i | 0 <= i < first ensures !OccursAt(s, "{", i) {
      OccursAtChar(s, '{', i);
      assert s[i] == pre[i];
    }
    forall k | last < k ensures !OccursAt(s, "}", k) {
      OccursAtChar(s, '}', k);
      if k < |s| {
        assert s[k] == post[k - |pre| - |obj|];
      }
    }
    assert Find(s, "{", 0) == first;
    assert RFind(s, "}") == last;
    assert s[first..last + 1] == obj;
  }

  /**
   * A ```json fence that is never closed: `find` gives -1 and the payload
   * is the rest of the text short of its last character, stripped.
   */
  lemma UnclosedTaggedFence(pre: string, body: string)
    requires !Contains(pre, JsonFence)
    requires !Contains(body, Fence)
    ensures ExtractPayload(pre + JsonFence + body) ==
      Some(Strip(if |body| == 0 then [] else body[..|body| - 1]))
  {
    var s := pre + JsonFence + body;
    var start := |pre| + |JsonFence|;
    FirstJsonFence(pre, body);
    OccursImpliesContains(s, JsonFence, |pre|);
    forall i | start <= i ensures !OccursAt(s, Fence, i) {
      if OccursAt(s, Fence, i) {
        assert body[i - start..i - start + |Fence|] == s[i..i + |Fence|];
        OccursImpliesContains(body, Fence, i - start);
      }
    }
    assert Find(s, Fence, start) == -1;
    SliceToMinusOne(s, start);
    if |body| > 0 {
      assert s[start..|s| - 1] == body[..|body| - 1];
    }
  }

  /** `_parse_response` never fails on its own: a failure is the fallback generator's. */
  lemma ParseFallsBackOnBadText(response: string, request: TripRequest, decode: string -> Option<TripPlan>)
    ensures ExtractPayload(response).None? ==> ParseResponse(response, request, decode) == FallbackPlan(request)
    ensures ExtractPayload(response).Some? && decode(ExtractPayload(response).value).None? ==>
      ParseResponse(response, request, decode) == FallbackPlan(request)
    ensures ParseResponse(response, request, decode).Failure? ==>
      ParseResponse(response, request, decode) == FallbackPlan(request)
  {
  }

  /**
   * A plan embedded in a ```json fence is recovered whatever text
   * surrounds the fence.
   */
  lemma ParseTaggedRoundTrip(pre: string, body: string, post: string, request: TripRequest, decode: string -> Option<TripPlan>, plan: TripPlan)
    requires !Contains(pre, JsonFence) && FenceFree(body)
    requires decode(Strip(body)) == Some(plan)
    ensures ParseResponse(pre + JsonFence + body + Fence + post, request, decode) == Success(plan)
  {
    TaggedFenceWins(pre, body, post);
  }

  // ---------------------------------------------------------------------
  // The pipeline
  // ---------------------------------------------------------------------

  /** An opaque agent handle, as built by one of the agent factories. */
  datatype Agent = Agent(id: nat)

  /** What `agent.ainvoke(...)["messages"][-1].content` produced. */
  datatype Reply = Replied(text: string) | Raised

  /** What one agent factory did: returned a handle (None is a falsy one) or raised. */
  datatype Construction = Built(handle: Option<Agent>) | ConstructionRaised

  /** The four factories, in the order `initialize` calls them. */
  datatype Factories = Factories(attraction: Construction, hotel: Construction, weather: Construction, planner: Construction)

  /** The planner's four agent fields. */
  datatype Agents = Agents(attraction: Option<Agent>, hotel: Option<Agent>, weather: Option<Agent>, planner: Option<Agent>)

  /** One `ainvoke` call: which agent and with what query. */
  datatype Invocation = Invocation(agent: Agent, query: string)

  /** The result of `plan_trip` and the agent calls it made, in order. */
  datatype Run = Run(result: Result<TripPlan, PlanError>, invocations: seq<Invocation>)

  predicate InitRaises(f: Factories) {
    f.attraction.ConstructionRaised? || f.hotel.ConstructionRaised? ||
    f.weather.ConstructionRaised? || f.planner.ConstructionRaised?
  }

  /** The agent fields after `initialize`, which stops at the first factory that raises. */
  function AfterInitialize(prior: Agents, f: Factories): Agents {
    if f.attraction.ConstructionRaised? then prior
    else
      var a := prior.(attraction := f.attraction.handle);
      if f.hotel.ConstructionRaised? then a
      else
        var h := a.(hotel := f.hotel.handle);
        if f.weather.ConstructionRaised? then h
        else
          var w := h.(weather := f.weather.handle);
          if f.planner.ConstructionRaised? then w
          else w.(planner := f.planner.handle)
  }

  /** A completed `initialize` leaves exactly the four new handles, whatever was there before. */
  lemma InitializeReplacesAll(prior: Agents, f: Factories)
    requires !InitRaises(f)
    ensures AfterInitialize(prior, f) == Agents(f.attraction.handle, f.hotel.handle, f.weather.handle, f.planner.handle)
  {
  }

  predicate AllPresent(agents: Agents) {
    agents.attraction.Some? && agents.weather.Some? && agents.hotel.Some? && agents.planner.Some?
  }

  /** A context stage's output: its text, or "" when it raised. */
  function StageText(reply: Reply): string {
    match reply
    case Replied(text) => text
    case Raised => ""
  }

  /** The four stage invocations of a run that got past initialisation. */
  function StageInvocations(agents: Agents, request: TripRequest, respond: (Agent, string) -> Reply): seq<Invocation>
    requires AllPresent(agents)
  {
    var attractions := StageText(respond(agents.attraction.value, AttractionQuery(request)));
    var weather := StageText(respond(agents.weather.value, WeatherQuery(request)));
    var hotels := StageText(respond(agents.hotel.value, HotelQuery(request)));
    [Invocation(agents.attraction.value, AttractionQuery(request)),
     Invocation(agents.weather.value, WeatherQuery(request)),
     Invocation(agents.hotel.value, HotelQuery(request)),
     Invocation(agents.planner.value, PlannerQuery(request, attractions, weather, hotels))]
  }

  /** `plan_trip` after `initialize` has run, as a value. */
  function PlanTripRun(initRaised: bool, agents: Agents, request: TripRequest,
                       respond: (Agent, string) -> Reply, decode: string -> Option<TripPlan>): Run
  {
    if initRaised || !AllPresent(agents) then Run(FallbackPlan(request), [])
    else
      var calls := StageInvocations(agents, request, respond);
      match respond(agents.planner.value, calls[3].query)
      case Raised => Run(FallbackPlan(request), calls)
      case Replied(text) => Run(ParseResponse(text, request, decode), calls)
  }

  /** A failed initialisation or a missing agent gives the fallback plan, and no stage runs. */
  lemma InitFailureSkipsStages(initRaised: bool, agents: Agents, request: TripRequest,
                               respond: (Agent, string) -> Reply, decode: string -> Option<TripPlan>)
    requires initRaised || !AllPresent(agents)
    ensures PlanTripRun(initRaised, agents, request, respond, decode) == Run(FallbackPlan(request), [])
  {
  }

  /**
   * A raising attraction, weather or hotel stage only empties its text:
   * all four stages still run, in order, and the itinerary query carries
   * the three texts (empty for the stages that raised).
   */
  lemma ContextStagesAreNonFatal(agents: Agents, request: TripRequest,
                                 respond: (Agent, string) -> Reply, decode: string -> Option<TripPlan>)
    requires AllPresent(agents)
    ensures var a := respond(agents.attraction.value, AttractionQuery(request));
      var w := respond(agents.weather.value, WeatherQuery(request));
      var h := respond(agents.hotel.value, HotelQuery(request));
      PlanTripRun(false, agents, request, respond, decode).invocations ==
        [Invocation(agents.attraction.value, AttractionQuery(request)),
         Invocation(agents.weather.value, WeatherQuery(request)),
         Invocation(agents.hotel.value, HotelQuery(request)),
         Invocation(agents.planner.value, PlannerQuery(request,
           if a.Raised? then "" else a.text,
           if w.Raised? then "" else w.text,
           if h.Raised? then "" else h.text))]
  {
    var calls := StageInvocations(agents, request, respond);
    assert PlanTripRun(false, agents, request, respond, decode).invocations == calls by {
      match respond(agents.planner.value, calls[3].query)
      case Raised =>
      case Replied(_) =>
    }
  }

  /** A raising itinerary stage gives the fallback plan. */
  lemma PlannerFailureFallsBack(agents: Agents, request: TripRequest,
                                respond: (Agent, string) -> Reply, decode: string -> Option<TripPlan>)
    requires AllPresent(agents)
    requires respond(agents.planner.value, StageInvocations(agents, request, respond)[3].query).Raised?
    ensures PlanTripRun(false, agents, request, respond, decode) ==
      Run(FallbackPlan(request), StageInvocations(agents, request, respond))
  {
  }

  /** Otherwise the itinerary stage's text is parsed. */
  lemma PlannerTextIsParsed(agents: Agents, request: TripRequest,
                            respond: (Agent, string) -> Reply, decode: string -> Option<TripPlan>)
    requires AllPresent(agents)
    requires respond(agents.planner.value, StageInvocations(agents, request, respond)[3].query).Replied?
    ensures PlanTripRun(false, agents, request, respond, decode) ==
      Run(ParseResponse(respond(agents.planner.value, StageInvocations(agents, request, respond)[3].query).text, request, decode),
          StageInvocations(agents, request, respond))
  {
  }

  /**
   * `plan_trip` never fails on its own: whenever it raises, the exception
   * is the fallback generator's, re-raised.
   */
  lemma PlanTripFailsOnlyInFallback(initRaised: bool, agents: Agents, request: TripRequest,
                                    respond: (Agent, string) -> Reply, decode: string -> Option<TripPlan>)
    ensures PlanTripRun(initRaised, agents, request, respond, decode).result.Failure? ==>
      PlanTripRun(initRaised, agents, request, respond, decode).result == FallbackPlan(request)
  {
    if initRaised || !AllPresent(agents) {
      InitFailureSkipsStages(initRaised, agents, request, respond, decode);
    } else {
      var calls := StageInvocations(agents, request, respond);
      match respond(agents.planner.value, calls[3].query)
      case Raised =>
        PlannerFailureFallsBack(agents, request, respond, decode);
      case Replied(text) =>
        PlannerTextIsParsed(agents, request, respond, decode);
        ParseFallsBackOnBadText(text, request, decode);
    }
  }

  /**
   * The planner object: its four agent fields are (re)built by `initialize`
   * at the start of every `plan_trip`.
   */
  class MultiAgentTripPlanner {
    var attractionAgent: Option<Agent>
    var hotelAgent: Option<Agent>
    var weatherAgent: Option<Agent>
    var plannerAgent: Option<Agent>

    function CurrentAgents(): Agents
      reads this
    {
      Agents(attractionAgent, hotelAgent, weatherAgent, plannerAgent)
    }

    /** `__init__`: all four agents unset. */
    constructor ()
      ensures CurrentAgents() == Agents(None, None, None, None)
    {
      attractionAgent, hotelAgent, weatherAgent, plannerAgent := None, None, None, None;
    }

    /**
     * `initialize`: sets the attraction, hotel, weather and planner agents
     * in that order; a factory that raises stops it, leaving the later
     * fields as they were.
     */
    method Initialize(factories: Factories) returns (raised: bool)
      modifies this
      ensures raised == InitRaises(factories)
      ensures CurrentAgents() == AfterInitialize(old(CurrentAgents()), factories)
    {
      if factories.attraction.ConstructionRaised? { return true; }
      attractionAgent := factories.attraction.handle;
      if factories.hotel.ConstructionRaised? { return true; }
      hotelAgent := factories.hotel.handle;
      if factories.weather.ConstructionRaised? { return true; }
      weatherAgent := factories.weather.handle;
      if factories.planner.ConstructionRaised? { return true; }
      plannerAgent := factories.planner.handle;
      return false;
    }

    /**
     * `plan_trip`: initialise, then run the four stages, keeping each
     * context text at "" when its stage raises, falling back when the
     * itinerary stage raises, and parsing its text otherwise. A failure of
     * the fallback generator is re-raised to the caller.
     */
    method PlanTrip(request: TripRequest, factories: Factories,
                    respond: (Agent, string) -> Reply, decode: string -> Option<TripPlan>)
      returns (result: Result<TripPlan, PlanError>, invocations: seq<Invocation>)
      modifies this
      ensures CurrentAgents() == AfterInitialize(old(CurrentAgents()), factories)
      ensures Run(result, invocations) == PlanTripRun(InitRaises(factories), CurrentAgents(), request, respond, decode)
    {
      var raised := Initialize(factories);
      var agents := CurrentAgents();
      if raised || !AllPresent(agents) {
        result := CreateFallbackPlan(request);
        InitFailureSkipsStages(raised, agents, request, respond, decode);
        return result, [];
      }

      var attractionQuery := AttractionQuery(request);
      var attractions := StageText(respond(agents.attraction.value, attractionQuery));

      var weatherQuery := WeatherQuery(request);
      var weatherInfo := StageText(respond(agents.weather.value, weatherQuery));

      var hotelQuery := HotelQuery(request);
      var hotels := StageText(respond(agents.hotel.value, hotelQuery));

      var plannerQuery := PlannerQuery(request, attractions, weatherInfo, hotels);
      var reply := respond(agents.planner.value, plannerQuery);
      invocations := [Invocation(agents.attraction.value, attractionQuery),
                      Invocation(agents.weather.value, weatherQuery),
                      Invocation(agents.hotel.value, hotelQuery),
                      Invocation(agents.planner.value, plannerQuery)];
      if reply.Raised? {
        result := CreateFallbackPlan(request);
        PlannerFailureFallsBack(agents, request, respond, decode);
        return;
      }
      var planResponse := reply.text;
      result := ParseResponse(planResponse, request, decode);
      PlannerTextIsParsed(agents, request, respond, decode);
    }
  }
}
