/** The crowd predictor: the attraction table with its fallback, and the
    mappings from a crowd level or status to a colour or trend icon. */
module CrowdPredictor {

  datatype Slot = Slot(hour: string, level: int, status: string)

  datatype CrowdData = CrowdData(level: int, status: string, waitTime: string, hourly: seq<Slot>, bestTime: string)

  const TajMahal: CrowdData := CrowdData(75, "high", "45-60 min", [
    Slot("6 AM", 15, "low"), Slot("8 AM", 35, "medium"), Slot("10 AM", 70, "high"),
    Slot("12 PM", 85, "very-high"), Slot("2 PM", 90, "very-high"), Slot("4 PM", 65, "high"),
    Slot("6 PM", 25, "low")], "6-7 AM or 5-6 PM")

  const RedFort: CrowdData := CrowdData(45, "medium", "15-25 min", [
    Slot("9 AM", 20, "low"), Slot("11 AM", 45, "medium"), Slot("1 PM", 75, "high"),
    Slot("3 PM", 80, "very-high"), Slot("5 PM", 35, "medium")], "9-10 AM")

  const Gateway: CrowdData := CrowdData(60, "high", "20-30 min", [
    Slot("8 AM", 25, "low"), Slot("10 AM", 50, "medium"), Slot("12 PM", 70, "high"),
    Slot("2 PM", 85, "very-high"), Slot("4 PM", 90, "very-high"), Slot("6 PM", 75, "high"),
    Slot("8 PM", 45, "medium")], "8-9 AM")

  const Table: map<string, CrowdData> := map[
    "Taj Mahal" := TajMahal,
    "Red Fort" := RedFort,
    "Gateway of India" := Gateway]

  /** The data shown for an attraction; an unknown one shows the Taj Mahal's. */
  function DataFor(attraction: string): (d: CrowdData)
    ensures attraction in Table ==> d == Table[attraction]
    ensures attraction !in Table ==> d == TajMahal
    ensures d in Table.Values
  {
    if attraction in Table then Table[attraction] else Table["Taj Mahal"]
  }

  /** A level usable as a percentage width. */
  predicate Percentage(level: int) {
    0 <= level <= 100
  }

  predicate LevelsInRange(d: CrowdData) {
    Percentage(d.level) && forall k | 0 <= k < |d.hourly| :: Percentage(d.hourly[k].level)
  }

  /** Every level the panel can show, current or hourly, is between 0 and 100. */
  lemma DataLevelsInRange(attraction: string)
    ensures LevelsInRange(DataFor(attraction))
  {
    assert LevelsInRange(TajMahal);
    assert LevelsInRange(RedFort);
    assert LevelsInRange(Gateway);
  }

  datatype Band = Green | Yellow | Orange | Red

  function Rank(b: Band): nat {
    match b
    case Green => 0
    case Yellow => 1
    case Orange => 2
    case Red => 3
  }

  /** Colour of a crowd bar: green up to 30, yellow up to 60, orange up to 80, red above. */
  function ProgressColor(level: int): (b: Band)
    ensures b == Green <==> level <= 30
    ensures b == Yellow <==> 30 < level <= 60
    ensures b == Orange <==> 60 < level <= 80
    ensures b == Red <==> 80 < level
  {
    if level <= 30 then Green
    else if level <= 60 then Yellow
    else if level <= 80 then Orange
    else Red
  }

  /** A busier level never gets a calmer colour. */
  lemma ProgressColorMonotone(a: int, b: int)
    requires a <= b
    ensures Rank(ProgressColor(a)) <= Rank(ProgressColor(b))
  {
  }

  datatype Style = GreenStyle | YellowStyle | OrangeStyle | RedStyle | GrayStyle

  /** Badge style by status; an unrecognised status is gray. */
  function StatusColor(status: string): (s: Style)
    ensures status == "low" <==> s == GreenStyle
    ensures status == "medium" <==> s == YellowStyle
    ensures status == "high" <==> s == OrangeStyle
    ensures status == "very-high" <==> s == RedStyle
  {
    match status
    case "low" => GreenStyle
    case "medium" => YellowStyle
    case "high" => OrangeStyle
    case "very-high" => RedStyle
    case _ => GrayStyle
  }

  datatype Trend = Down | Flat | Up

  /** Trend icon by status; an unrecognised status shows the flat icon. */
  function StatusIcon(status: string): (t: Trend)
    ensures t == Down <==> status == "low"
    ensures t == Up <==> status == "high" || status == "very-high"
  {
    match status
    case "low" => Down
    case "medium" => Flat
    case "high" => Up
    case "very-high" => Up
    case _ => Flat
  }

  /** The badge and the bar are coloured by different rules, and the table's
      labels do not always agree with the level: the Gateway of India is
      labelled high at level 60, which the bar shows yellow, not orange. */
  lemma BadgeAndBarCanDisagree()
    ensures StatusColor(Gateway.status) == OrangeStyle && ProgressColor(Gateway.level) == Yellow
  {
  }
}
