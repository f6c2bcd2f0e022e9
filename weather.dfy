/** The weather tag of backend/weather_utils.py: the forecast service's
    response is an input, and its first hourly values are classified by
    precipitation probability and cloud cover (both in percent). */
module Weather {
  import opened Wrappers

  datatype Condition = Rainy | Sunny | PartlyCloudy | Cloudy {
    /** The text `get_weather_data` returns. */
    function Label(): string {
      match this
      case Rainy => "Rainy"
      case Sunny => "Sunny"
      case PartlyCloudy => "Partly Cloudy"
      case Cloudy => "Cloudy"
    }
  }

  /** The `if/elif/else` chain on the first hour's forecast. */
  function Classify(precipitation: int, cloudCover: int): (c: Condition)
    ensures c == Rainy <==> precipitation > 50
    ensures c == Sunny <==> precipitation <= 50 && cloudCover < 30
    ensures c == PartlyCloudy <==> precipitation <= 50 && 30 <= cloudCover <= 70
    ensures c == Cloudy <==> precipitation <= 50 && cloudCover > 70
  {
    if precipitation > 50 then Rainy
    else if cloudCover < 30 then Sunny
    else if cloudCover >= 30 && cloudCover <= 70 then PartlyCloudy
    else Cloudy
  }

  /** The `hourly` series of a response; a series the response lacks is empty,
      as `hourly_data.get(name, [])` makes it. */
  datatype Hourly = Hourly(times: seq<string>, temperatures: seq<real>, precipitation: seq<int>, cloudCover: seq<int>)

  datatype Response = Response(status: int, hourly: Hourly)

  /** `get_weather_data`: `None` for a status other than 200; an `IndexError`
      escapes (here `Err`) when any of the four series is empty; otherwise the
      label for the first hour. */
  function GetWeatherData(r: Response): (w: Result<Option<string>, string>)
    ensures r.status != 200 ==> w == Ok(None)
    ensures w.Err? <==> (r.status == 200 &&
      (r.hourly.times == [] || r.hourly.temperatures == [] || r.hourly.precipitation == [] || r.hourly.cloudCover == []))
    ensures w.Ok? && w.value.Some? ==>
      w.value.value == Classify(r.hourly.precipitation[0], r.hourly.cloudCover[0]).Label()
    ensures r.status == 200 && r.hourly.times != [] && r.hourly.temperatures != []
            && r.hourly.precipitation != [] && r.hourly.cloudCover != [] ==>
      w == Ok(Some(Classify(r.hourly.precipitation[0], r.hourly.cloudCover[0]).Label()))
  {
    if r.status != 200 then Ok(None)
    else
      var h := r.hourly;
      if h.times == [] || h.temperatures == [] || h.precipitation == [] || h.cloudCover == [] then
        Err("IndexError: list index out of range")
      else Ok(Some(Classify(h.precipitation[0], h.cloudCover[0]).Label()))
  }

  /** Only the first hour counts: two responses that agree on it get the same tag. */
  lemma FirstHourDecides(r1: Response, r2: Response)
    requires r1.status == r2.status == 200
    requires r1.hourly.times != [] && r1.hourly.temperatures != []
    requires r2.hourly.times != [] && r2.hourly.temperatures != []
    requires r1.hourly.precipitation != [] && r1.hourly.cloudCover != []
    requires r2.hourly.precipitation != [] && r2.hourly.cloudCover != []
    requires r1.hourly.precipitation[0] == r2.hourly.precipitation[0]
    requires r1.hourly.cloudCover[0] == r2.hourly.cloudCover[0]
    ensures GetWeatherData(r1) == GetWeatherData(r2)
  {
  }

  /** The four labels are distinct, so the tag names its condition. */
  lemma LabelsDistinct(c1: Condition, c2: Condition)
    ensures c1.Label() == c2.Label() ==> c1 == c2
  {
  }
}
