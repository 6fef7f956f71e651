# Trip planner core, modelled in Dafny

This project models two parts of the travel-planning backend.

**The multi-agent trip planner** (`MultiAgentTripPlanner`):
- It builds four language-model agents, then runs four stages in a fixed order: attractions, weather, hotels, itinerary.
- A failed attraction, weather or hotel stage only leaves its text empty.
- A failed initialisation, a missing agent or a failed itinerary stage gives the deterministic fallback plan.
- Otherwise the itinerary text is parsed. The parser looks for a fenced ```` ```json ```` block, then any fenced block, then the span from the first `{` to the last `}`. Any failure of extraction, decoding or validation also gives the fallback plan.
- The fallback plan has one dated day per travel day. Each day has two placeholder attractions and three meals.

**The map service** (`AmapService`) turns the map tools' JSON-like answers into typed results:
- `parse_weather_response` turns an answer into weather records.
- `search_poi` and `search_nearby` turn answers into points of interest, skipping entries that fail to convert.
- `geocode` and `reverse_geocode` return locations and addresses. `get_poi_detail` returns a detail dictionary.
- `plan_route` runs a ladder of early returns, each with its own error dictionary.

Modules:

- `Wrappers`: `Option` and `Result`.
- `Strings`: the Python `str` operations the code uses.
  - Searching: `find`, `rfind` and `in`.
  - Slicing with negative and out-of-range bounds.
  - `strip()`, `split(",")`, `join` and `str(int)`.
- `Calendar`: `datetime.strptime(s, "%Y-%m-%d")`, `+ timedelta(days=i)` and `strftime("%Y-%m-%d")` on the proleptic Gregorian calendar, years 1 to 9999.
- `JsonValue`: decoded JSON values, Python truthiness, `dict.get`, and the `if not xs: ...; xs[0]` idiom.
- `Sequences`: the loop "convert each item, skip the ones that raise". `FilterMap` is its specification and `ConvertEach` the loop.
- `Schemas`: the request, plan, weather and POI records.
- `TripPlanner`: the query builders, the fallback generator, the response parser, the pipeline as a function (`PlanTripRun`) and the planner class.
  - `Initialize` updates the four agent fields in place.
  - `PlanTrip` is proved equal to `PlanTripRun`.
  - `CreateFallbackPlan` is the day-appending loop, proved equal to `FallbackPlan`.
- `AmapService`: the response shaping of the map service.
  - `ParseWeatherResponse`, `SearchPoi` and `SearchNearby` are early-return methods. Their conversion loop is `Sequences.ConvertEach`, which is proved equal to `FilterMap` over the items.
  - `PlanRoute` is the early-return method, proved equal to `PlanRouteRun`.

Everything outside the core is a parameter:
- **Language-model agents:** a stage is `respond(agent, query)`, which is the reply text or `Raised`.
- **`json.loads` followed by `TripPlan(**data)`:** `decode`.
- **`json.loads` in the map service:** `loads`.
- **`float()` on text:** `parseFloat`.
- **Tool discovery:** the set of tool names found, `tools`.
- **Tool invocation:** `invoke(name, payload)`.

The planner's run and the route planner also return the calls they make, in order. This call log lets the contracts say which stages ran and which tools were called; the source has no such value.

The model follows the code as written:
- A parsed plan is returned as decoded. It is not checked against `travel_days` or the requested dates.
- The fallback dates come from `start_date` alone; `end_date` is only copied.
- An unparsable `start_date` or a date past 9999-12-31 makes `plan_trip` raise only on the paths that fall back: a failed initialisation, a missing agent, an itinerary stage that raises, or a reply that does not parse (the handler at lines 129-133 re-raises). A decoded plan is returned whatever `start_date` says.

## Model

| member | source | states |
|---|---|---|
| TripPlanner.AttractionQuery | backend/app/agents/multi_agent_trip_planner.py:135-146 | the model of `_build_attraction_query`; its properties are the row `TripPlanner.AttractionQueryCallsSearch` |
| TripPlanner.AttractionQueryCallsSearch | backend/app/agents/multi_agent_trip_planner.py:135-146 | the attraction query ends with a text-search tool call for the requested city whose keyword is the first preference, or "景点" when there are no preferences |
| TripPlanner.WeatherQuery | backend/app/agents/multi_agent_trip_planner.py:87 | the weather query contains the requested city |
| TripPlanner.HotelQuery | backend/app/agents/multi_agent_trip_planner.py:100 | the hotel query contains the requested accommodation |
| TripPlanner.PlannerQuery | backend/app/agents/multi_agent_trip_planner.py:148-180 | the model of `_build_planner_query`; its properties are the rows `TripPlanner.PlannerQueryEmbedsContext` and `TripPlanner.PlannerQueryExtraRequirement` |
| TripPlanner.PlannerQueryEmbedsContext | backend/app/agents/multi_agent_trip_planner.py:148-176 | the attraction, weather and hotel texts occur verbatim in the itinerary query, in that order, at the positions after their headings |
| TripPlanner.PlannerQueryExtraRequirement | backend/app/agents/multi_agent_trip_planner.py:177-180 | the free-text input appends exactly the "额外要求" line to the query without it, and only when it is truthy |
| TripPlanner.FallbackPlan | backend/app/agents/multi_agent_trip_planner.py:225-270 | the model of `_create_fallback_plan` as a value; its properties are the rows `TripPlanner.CreateFallbackPlan` through `TripPlanner.FallbackEchoesRequest` |
| TripPlanner.CreateFallbackPlan | backend/app/agents/multi_agent_trip_planner.py:225-270 | the day-appending loop computes exactly the fallback plan, failing with the parse error or the date overflow where Python raises |
| TripPlanner.FallbackFailsOnlyOnDates | backend/app/agents/multi_agent_trip_planner.py:230-235 | the fallback fails exactly when the start date does not parse or the last day would lie past 9999-12-31 |
| TripPlanner.FallbackDaysAndDates | backend/app/agents/multi_agent_trip_planner.py:230-261 | the plan has `travel_days` days (none when it is not positive); day i has index i and a date that parses back to the start date plus i days, so the ordinals are consecutive |
| TripPlanner.FallbackDaysAt | backend/app/agents/multi_agent_trip_planner.py:233-261 | day i of the generated list is the day built for the date start + i days |
| TripPlanner.FallbackDayShape | backend/app/agents/multi_agent_trip_planner.py:243-259 | one fallback day has two attractions "{city}景点1" and "{city}景点2" of 120 minutes at the offset coordinates, and three meals: breakfast, lunch, dinner |
| TripPlanner.FallbackDayContents | backend/app/agents/multi_agent_trip_planner.py:243-259 | every day of every fallback plan has that shape |
| TripPlanner.FallbackEchoesRequest | backend/app/agents/multi_agent_trip_planner.py:237-270 | the fallback plan copies the city and both dates, has no weather entries, and every day repeats the transportation and accommodation |
| TripPlanner.ExtractPayload | backend/app/agents/multi_agent_trip_planner.py:196-210 | extraction finds nothing exactly when the text has no fence and does not contain both braces |
| TripPlanner.TaggedFenceWins | backend/app/agents/multi_agent_trip_planner.py:196-199 | the first ```json fence is used whatever plain fences or braces come before it; its stripped content is the payload |
| TripPlanner.UnclosedTaggedFence | backend/app/agents/multi_agent_trip_planner.py:197-199 | an unclosed ```json fence yields the rest of the text short of its last character, stripped |
| TripPlanner.PlainFenceUsed | backend/app/agents/multi_agent_trip_planner.py:200-203 | without a ```json marker, the stripped content of the first plain fence is the payload |
| TripPlanner.BareObjectUsed | backend/app/agents/multi_agent_trip_planner.py:204-208 | without fences, the payload runs from the first `{` to the last `}` inclusive |
| TripPlanner.ParseResponse | backend/app/agents/multi_agent_trip_planner.py:182-223 | the model of `_parse_response`; its properties are the rows `TripPlanner.ParseFallsBackOnBadText` and `TripPlanner.ParseTaggedRoundTrip` |
| TripPlanner.ParseFallsBackOnBadText | backend/app/agents/multi_agent_trip_planner.py:193-223 | a failed extraction or decode gives exactly the fallback plan, and the parse fails only when the fallback fails |
| TripPlanner.ParseTaggedRoundTrip | backend/app/agents/multi_agent_trip_planner.py:193-218 | a plan whose text sits in a ```json fence is recovered, provided no earlier ```json occurs in the text before it |
| TripPlanner.InitializeReplacesAll | backend/app/agents/multi_agent_trip_planner.py:33-40 | a completed initialisation leaves exactly the four new agent handles |
| TripPlanner.MultiAgentTripPlanner.constructor | backend/app/agents/multi_agent_trip_planner.py:14-31 | a new planner has all four agents unset |
| TripPlanner.MultiAgentTripPlanner.Initialize | backend/app/agents/multi_agent_trip_planner.py:33-40 | the fields are set in order, and a factory that raises leaves the later fields unchanged |
| TripPlanner.MultiAgentTripPlanner.PlanTrip | backend/app/agents/multi_agent_trip_planner.py:42-133 | the agent fields and the result with its stage calls are exactly those of the pipeline function `PlanTripRun` |
| TripPlanner.PlanTripRun | backend/app/agents/multi_agent_trip_planner.py:42-133 | the model of `plan_trip` after `initialize` as a value; its properties are the rows `TripPlanner.InitFailureSkipsStages` through `TripPlanner.PlanTripFailsOnlyInFallback` |
| TripPlanner.InitFailureSkipsStages | backend/app/agents/multi_agent_trip_planner.py:54-62 | a raised initialisation or a missing agent gives the fallback plan with no stage invoked |
| TripPlanner.ContextStagesAreNonFatal | backend/app/agents/multi_agent_trip_planner.py:72-113 | all four stages run in order, and the itinerary query carries each context text, or "" for a stage that raised |
| TripPlanner.PlannerFailureFallsBack | backend/app/agents/multi_agent_trip_planner.py:114-122 | a raising itinerary stage gives the fallback plan after the four calls |
| TripPlanner.PlannerTextIsParsed | backend/app/agents/multi_agent_trip_planner.py:123-128 | otherwise the result is the parse of the itinerary text |
| TripPlanner.PlanTripFailsOnlyInFallback | backend/app/agents/multi_agent_trip_planner.py:129-133 | whenever the run fails, the failure is the fallback generator's |
| Strings.OccursImpliesContains | backend/app/agents/multi_agent_trip_planner.py:196 | an occurrence of the pattern anywhere makes `pat in s` true |
| Strings.ContainsImpliesOccurs | backend/app/agents/multi_agent_trip_planner.py:196 | when `pat in s` holds, `find` reports an occurrence of the pattern |
| Strings.Find | backend/app/agents/multi_agent_trip_planner.py:197-198 | `find` returns the first occurrence at or after the start, or -1 exactly when there is none |
| Strings.RFind | backend/app/agents/multi_agent_trip_planner.py:207 | `rfind` returns the last occurrence, or -1 exactly when there is none |
| Strings.SliceToMinusOne | backend/app/agents/multi_agent_trip_planner.py:197-199 | a slice ending at -1 stops one character before the end |
| Strings.StripSpec | backend/app/agents/multi_agent_trip_planner.py:199 | `strip()` keeps a contiguous piece, removes only whitespace on either side, and leaves no whitespace at either end |
| Strings.Split | backend/app/services/amap_service.py:53-54 | `split` gives at least one part, no part contains the separator, and joining the parts gives the text back |
| Strings.NatToString | backend/app/agents/multi_agent_trip_planner.py:240 | `str(i + 1)` is the decimal digits of the number, without leading zeros |
| Strings.IntToString | backend/app/agents/multi_agent_trip_planner.py:150 | `str(travel_days)` is "-" exactly for a negative number, followed by the decimal digits of its magnitude without leading zeros |
| Calendar.ParseDate | backend/app/agents/multi_agent_trip_planner.py:230 | `strptime` accepts only existing dates |
| Calendar.ParseFormat | backend/app/agents/multi_agent_trip_planner.py:230-238 | parsing a date formatted with "%Y-%m-%d" gives the date back |
| Calendar.NextDay | backend/app/agents/multi_agent_trip_planner.py:235 | the next day is a valid date, and there is none exactly after 9999-12-31 |
| Calendar.AddDaysOrdinal | backend/app/agents/multi_agent_trip_planner.py:235 | adding n days moves the ordinal by n, and overflows exactly past 9999-12-31 |
| Calendar.AddDaysDefinedBelow | backend/app/agents/multi_agent_trip_planner.py:234-235 | if day n of the loop exists, every earlier day exists |
| JsonValue.First | backend/app/services/amap_service.py:140-144 | `if not xs` catches exactly the falsy values, and `xs[0]` gives the first element exactly of a non-empty list; any other truthy value makes the subscript or the callers' `.get` raise |
| Sequences.FilterMap | backend/app/services/amap_service.py:507-523 | the skip-on-error loop's output is never longer than its input |
| Sequences.FilterMapKeeps | backend/app/services/amap_service.py:44-60 | the output holds exactly the converted items whose conversion succeeded, in their input order |
| Sequences.FilterMapAll | backend/app/services/amap_service.py:407-424 | when no conversion fails, the output is every item converted |
| Sequences.FilterMapSnoc | backend/app/services/amap_service.py:508-521 | one more item extends the output by its conversion, or by nothing |
| Sequences.ConvertEach | backend/app/services/amap_service.py:507-523 | the append-in-a-try loop computes FilterMap |
| AmapService.FieldText | backend/app/services/amap_service.py:511-517 | a `get` with a text default gives text exactly when the key is absent or holds text |
| AmapService.Forecasts | backend/app/services/amap_service.py:491-504 | the model of the response dispatch of `parse_weather_response`; its properties are the row `AmapService.ForecastsDispatch` |
| AmapService.ForecastsDispatch | backend/app/services/amap_service.py:491-504 | undecodable text raises; a dict gives its "forecasts" list, or is itself the only forecast when the key is missing; a "forecasts" text or dict gives no forecasts and a null, number or boolean there is not iterable; a list is used as-is; anything else raises |
| AmapService.ConvertForecast | backend/app/services/amap_service.py:507-521 | the model of one `WeatherInfo(...)` of the conversion loop; its properties are the rows `AmapService.ForecastKeyMapping` and `AmapService.EmptyForecastDefaults` |
| AmapService.ForecastKeyMapping | backend/app/services/amap_service.py:508-518 | a forecast converts exactly when it is a dict whose seven keys hold text where present; each field comes from its key, with "" defaults and "0" for the temperatures |
| AmapService.EmptyForecastDefaults | backend/app/services/amap_service.py:510-518 | an empty forecast gives the record of defaults |
| AmapService.ParseWeatherResponse | backend/app/services/amap_service.py:481-523 | the result is the dispatch's error, or the converted forecasts with the failures skipped |
| AmapService.TextItemsSkipped | backend/app/services/amap_service.py:45-60 | text items, which iterating a string or dict yields, never convert |
| AmapService.ConvertPoi | backend/app/services/amap_service.py:45-57 | the model of one `POIInfo(...)` of the search loops; its properties are the rows `AmapService.PoiConversion`, `AmapService.PoiConverts`, `AmapService.PoiWithoutCoordinatesSkipped` and `AmapService.TextItemsSkipped` |
| AmapService.PoiConversion | backend/app/services/amap_service.py:45-57 | a converted POI echoes its text fields with "" defaults; its coordinates come from the first two comma parts of its location ("0,0" when missing); its telephone is None exactly when "tel" is falsy and otherwise that text; the nearby search reads "distance" the same way |
| AmapService.PoiConverts | backend/app/services/amap_service.py:45-57 | conversely, a dictionary converts when its text fields hold text, its location has two parsable parts and its telephone (and distance) is text or falsy |
| AmapService.PoiWithoutCoordinatesSkipped | backend/app/services/amap_service.py:52-55 | an entry whose location has fewer than two comma parts is skipped |
| AmapService.OnePartIffNoComma | backend/app/services/amap_service.py:53-54 | the location splits into a single part exactly when it has no comma |
| AmapService.SearchPoi | backend/app/services/amap_service.py:11-67 | the result is the converted entries in order, or [] when the tool is missing, raises or its answer cannot be iterated |
| AmapService.SearchNearby | backend/app/services/amap_service.py:365-431 | the same for the nearby search, converting distances too |
| AmapService.ListAnswers | backend/app/services/amap_service.py:41 | a list answer is itself the text search's entries, while the nearby search rejects it |
| AmapService.Geocode | backend/app/services/amap_service.py:222-270 | the model of `geocode`; its properties are the rows `AmapService.GeoPayload` and `AmapService.GeocodeResult` |
| AmapService.FirstLocationNotFound | backend/app/services/amap_service.py:140-148 | the "not found" outcome arises exactly from no results or a falsy first location |
| AmapService.GeoPayload | backend/app/services/amap_service.py:129-131 | the geocoding payload has the address, and a city exactly when the city is truthy |
| AmapService.GeocodeResult | backend/app/services/amap_service.py:252-266 | no results or an empty location give None, and a location comes only from a first result splitting into exactly two parsed numbers |
| AmapService.PoiDetail | backend/app/services/amap_service.py:272-325 | the model of `get_poi_detail`; its properties are the rows `AmapService.PoiDetailFirst` and `AmapService.MissingToolResults` |
| AmapService.PoiDetailFirst | backend/app/services/amap_service.py:297-321 | no POI gives the "未找到POI详情" error; otherwise the detail has exactly the thirteen keys, from the first POI or its defaults |
| AmapService.ReverseGeocode | backend/app/services/amap_service.py:327-363 | the model of `reverse_geocode`; its properties are the rows `AmapService.ReverseGeocodeAddress` and `AmapService.MissingToolResults` |
| AmapService.ReverseGeocodeAddress | backend/app/services/amap_service.py:353-359 | the address is returned exactly when "formatted_address" is present and truthy |
| AmapService.MissingToolResults | backend/app/services/amap_service.py:124-126 | without its tool, each operation returns its empty or error result without calling anything |
| AmapService.RouteToolName | backend/app/services/amap_service.py:175-181 | the model of the `tool_map` lookup; its properties are the row `AmapService.RouteToolChoice` |
| AmapService.RouteToolChoice | backend/app/services/amap_service.py:175-181 | the four route types select their tools, and every other type selects walking |
| AmapService.PlanRouteRun | backend/app/services/amap_service.py:99-220 | the model of `plan_route` as a value; its properties are the rows `AmapService.PlanRoute` through `AmapService.LocatedIsTruthy` |
| AmapService.PlanRoute | backend/app/services/amap_service.py:99-220 | the early-return method returns exactly the result and tool calls of `PlanRouteRun` |
| AmapService.OriginNotFoundStops | backend/app/services/amap_service.py:140-148 | an origin without a location gives the origin error after one call; the destination is never looked up |
| AmapService.DestinationNotFoundStops | backend/app/services/amap_service.py:162-170 | a destination without a location gives the destination error after two calls; no route tool is called |
| AmapService.RouteSuccessEchoes | backend/app/services/amap_service.py:183-214 | a successful route echoes the route type, both addresses and both truthy locations, after exactly two geocoding calls and one route call |
| AmapService.LocatedIsTruthy | backend/app/services/amap_service.py:144-148 | a located address always has a truthy location |

## Left out

- Language-model agents, LangChain, prompts and message objects are foreign calls. A stage is the parameter `respond`.
- `json.loads`, `TripPlan(**data)` and pydantic validation are parameters (`decode`, `loads`). There is no JSON parser.
- `float()` is the parameter `parseFloat`.
- Coordinates are exact reals, so floating-point rounding of `116.4 + i * 0.01 + j * 0.005` is not modelled.
- Tool discovery over the MCP transport (`amap_tools()`, `next(t for t in tools ...)`, `ainvoke` versus `invoke`) is reduced to a set of tool names and an `invoke` function.
- `get_weather` and `calculate_distance` are not part of this model: neither is in the modelled core.
- Unsplash services, FastAPI routers, app wiring and LLM configuration are not part of this model.
- `async`/`await` is modelled as sequential execution.
- The module-level singletons `get_trip_planner_agent` and `get_amap_service` are not modelled. The `llm` field of the planner is not modelled.
- Logging `print` calls are not modelled. The exception is the unguarded `origin_response[:200]` / `dest_response[:200]` in `plan_route`, whose failure on values other than text and lists is modelled.
- `AmapService.Iterated`: iterating a string or a dictionary yields text items, which every conversion skips, so it is modelled as no items.
- The backend's pydantic schemas are not part of this model. The text fields of `WeatherInfo` and `POIInfo` are taken to be `str` fields that reject non-text values.
- `AmapService.ForecastKeyMapping`: takes `day_temp` and `night_temp` to be text, while the frontend schema (frontend/src/schemas/schema.ts:61-62) types them as numbers. If the backend fields are numeric, a numeric "daytemp" or "nighttemp" would convert, and a non-numeric text would not. The model rejects the first and accepts the second.
- `Calendar.ParseDate`: accepts ASCII digits only, whereas `strptime` also accepts other Unicode decimal digits.
- `Calendar.FormatDate`: years below 1000 are formatted with four zero-padded digits; the platform's `strftime` may print fewer.
- `Schemas`: the records hold only the fields the core reads or writes.
- `AmapService.AroundSearchPayload` and `AmapService.ReverseGeocode` take the `location` payload text (`f"{longitude},{latitude}"`) as a ready-made string parameter. Float formatting is not modelled.
- The stage-call and tool-call logs returned by `PlanTrip` and `PlanRoute` are modelling artefacts that let the contracts state which calls happen.
