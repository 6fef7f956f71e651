/**
 * The records the planner and the map service exchange (the pydantic
 * models of the backend), restricted to the fields this model uses.
 */
module Schemas {
  import opened Wrappers

  /** One planning request; `travelDays` is the Python int given to `range`. */
  datatype TripRequest = TripRequest(
    city: string,
    startDate: string,
    endDate: string,
    travelDays: int,
    preferences: seq<string>,
    transportation: string,
    accommodation: string,
    freeTextInput: Option<string>)

  /** Longitude and latitude, as exact decimals. */
  datatype Location = Location(longitude: real, latitude: real)

  datatype Attraction = Attraction(
    name: string,
    address: string,
    location: Location,
    visitDuration: int,
    description: string,
    category: string)

  /** `kind` is the `type` field: "breakfast", "lunch" or "dinner". */
  datatype Meal = Meal(kind: string, name: string, description: string)

  datatype DayPlan = DayPlan(
    date: string,
    dayIndex: int,
    description: string,
    transportation: string,
    accommodation: string,
    attractions: seq<Attraction>,
    meals: seq<Meal>)

  datatype WeatherInfo = WeatherInfo(
    date: string,
    dayWeather: string,
    nightWeather: string,
    dayTemp: string,
    nightTemp: string,
    windDirection: string,
    windPower: string)

  datatype TripPlan = TripPlan(
    city: string,
    startDate: string,
    endDate: string,
    days: seq<DayPlan>,
    weatherInfo: seq<WeatherInfo>,
    overallSuggestions: string)

  /** `kind` is the `type` field of a point of interest. */
  datatype PoiInfo = PoiInfo(
    id: string,
    name: string,
    kind: string,
    address: string,
    location: Location,
    tel: Option<string>,
    distance: Option<string>)
}
