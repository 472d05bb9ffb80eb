/** The weather panel: the weather-type classifier behind the activity
    suggestions, the severity and icon mappings, the five-day forecast data,
    and the city search with its delayed completion. */
module WeatherAI {
  import opened Text

  datatype Kind = Sunny | Rainy | Cloudy

  /** The weather type of a condition: rain first, then cloud, else sunny. */
  function WeatherType(condition: string): (k: Kind)
    ensures k == Rainy <==> Contains(Lower(condition), "rain")
    ensures k == Cloudy <==> !Contains(Lower(condition), "rain") && Contains(Lower(condition), "cloud")
    ensures k in Activities
  {
    var c := Lower(condition);
    if Contains(c, "rain") then Rainy
    else if Contains(c, "cloud") then Cloudy
    else Sunny
  }

  /** Suggested activities per weather type. */
  const Activities: map<Kind, seq<string>> := map[
    Sunny := ["Visit outdoor monuments", "Hill station day trips", "Beach activities"],
    Rainy := ["Museum tours", "Shopping malls", "Palace interiors"],
    Cloudy := ["Heritage walks", "Garden visits", "Local experiences"]]

  /** The suggestions shown for a condition; every weather type has three. */
  function SuggestionsFor(condition: string): (r: seq<string>)
    ensures |r| == 3
    ensures r == Activities[WeatherType(condition)]
  {
    Activities[WeatherType(condition)]
  }

  const CurrentCondition: string := "Partly Cloudy"

  lemma LowerCurrent()
    ensures Lower(CurrentCondition) == "partly cloudy"
  {
    LowerIs(CurrentCondition, "partly cloudy");
  }

  lemma PartlyCloudyWords()
    ensures !Contains("partly cloudy", "rain") && Contains("partly cloudy", "cloud")
  {
    MissingCharNotContained("partly cloudy", "rain", 2);
    assert OccursAt("partly cloudy", "cloud", 7);
  }

  /** "Partly Cloudy" has no "rain" and has "cloud": the panel suggests cloudy-day activities. */
  lemma CurrentIsCloudy()
    ensures WeatherType(CurrentCondition) == Cloudy
  {
    LowerCurrent();
    PartlyCloudyWords();
  }

  datatype Style = RedStyle | OrangeStyle | GreenStyle | GrayStyle

  /** Style of an advice item by severity; anything unrecognised is gray. */
  function SeverityColor(severity: string): (s: Style)
    ensures severity == "high" <==> s == RedStyle
    ensures severity == "medium" <==> s == OrangeStyle
    ensures severity == "low" <==> s == GreenStyle
  {
    match severity
    case "high" => RedStyle
    case "medium" => OrangeStyle
    case "low" => GreenStyle
    case _ => GrayStyle
  }

  datatype Icon = SunIcon | LightCloudIcon | GrayCloudIcon | RainIcon | HeavyRainIcon

  /** Icon of a forecast entry; an unknown type shows the sun. */
  function WeatherIcon(iconType: string): (i: Icon)
    ensures iconType !in {"partly-cloudy", "cloudy", "rain", "heavy-rain"} ==> i == SunIcon
    ensures i == SunIcon ==> iconType !in {"partly-cloudy", "cloudy", "rain", "heavy-rain"}
  {
    match iconType
    case "sunny" => SunIcon
    case "partly-cloudy" => LightCloudIcon
    case "cloudy" => GrayCloudIcon
    case "rain" => RainIcon
    case "heavy-rain" => HeavyRainIcon
    case _ => SunIcon
  }

  datatype ForecastDay = ForecastDay(day: string, min: int, max: int, condition: string, icon: string, rainChance: int)

  const Forecast: seq<ForecastDay> := [
    ForecastDay("Today", 24, 30, "Partly Cloudy", "partly-cloudy", 20),
    ForecastDay("Tomorrow", 23, 29, "Light Rain", "rain", 60),
    ForecastDay("Thu", 22, 27, "Heavy Rain", "heavy-rain", 85),
    ForecastDay("Fri", 24, 28, "Cloudy", "cloudy", 40),
    ForecastDay("Sat", 25, 31, "Sunny", "sunny", 10)]

  predicate WellFormed(d: ForecastDay) {
    d.min <= d.max && 0 <= d.rainChance <= 100
  }

  /** Every forecast day has its minimum below its maximum and a rain chance that is a percentage. */
  lemma ForecastWellFormed()
    ensures |Forecast| == 5
    ensures forall k | 0 <= k < |Forecast| :: WellFormed(Forecast[k])
  {
  }

  /** The panel's search and day-selection state. */
  class WeatherPanel {
    var location: string
    var customCity: string
    var isLoading: bool
    /** Cities whose simulated lookup has not yet completed, oldest first. */
    var pending: seq<string>
    var selectedDay: nat

    predicate Valid()
      reads this
    {
      selectedDay < |Forecast| && (pending == [] ==> !isLoading)
    }

    constructor ()
      ensures Valid()
      ensures location == "Kerala, India" && customCity == "" && !isLoading && pending == [] && selectedDay == 0
    {
      location := "Kerala, India";
      customCity := "";
      isLoading := false;
      pending := [];
      selectedDay := 0;
    }

    /** Typing in the box, or a quick-city button. */
    method SetCity(city: string)
      requires Valid()
      modifies this
      ensures Valid()
      ensures customCity == city
      ensures location == old(location) && isLoading == old(isLoading) && pending == old(pending) && selectedDay == old(selectedDay)
    {
      customCity := city;
    }

    /** `isLoading || !customCity.trim()`: the search button is disabled while
        loading, or when the box holds only whitespace, the input the search
        itself ignores. */
    predicate SearchDisabled()
      reads this
      ensures SearchDisabled() <==> isLoading || IsBlank(customCity)
    {
      TrimEmptyIffBlank(customCity);
      isLoading || Trim(customCity) == []
    }

    /** Starts a search: blank input does nothing; otherwise loading starts
        for the city as typed. */
    method HandleCitySearch()
      requires Valid()
      modifies this
      ensures Valid()
      ensures IsBlank(old(customCity)) ==>
        isLoading == old(isLoading) && pending == old(pending) && customCity == old(customCity)
      ensures !IsBlank(old(customCity)) ==>
        isLoading && pending == old(pending) + [old(customCity)] && customCity == old(customCity)
      ensures location == old(location) && selectedDay == old(selectedDay)
    {
      if !IsBlank(customCity) {
        isLoading := true;
        pending := pending + [customCity];
      }
    }

    /** The delayed completion of the oldest search. */
    method FinishSearch()
      requires Valid() && pending != []
      modifies this
      ensures Valid()
      ensures location == old(pending)[0] && customCity == "" && !isLoading
      ensures pending == old(pending)[1..] && selectedDay == old(selectedDay)
    {
      location := pending[0];
      customCity := "";
      isLoading := false;
      pending := pending[1..];
    }

    /** Clicking a forecast row. */
    method SelectDay(index: nat)
      requires Valid() && index < |Forecast|
      modifies this
      ensures Valid()
      ensures selectedDay == index
      ensures location == old(location) && customCity == old(customCity) && isLoading == old(isLoading) && pending == old(pending)
    {
      selectedDay := index;
    }
  }

  /** Searching for Mumbai: loading while pending, then the location switches. */
  method SearchMumbai() returns (midway: bool, location: string, cleared: bool)
    ensures midway && location == "Mumbai" && cleared
  {
    var p := new WeatherPanel();
    p.SetCity("Mumbai");
    assert !IsSpace("Mumbai"[0]);
    p.HandleCitySearch();
    midway := p.isLoading && p.SearchDisabled();
    p.FinishSearch();
    location := p.location;
    cleared := p.customCity == "" && !p.isLoading;
  }
}
