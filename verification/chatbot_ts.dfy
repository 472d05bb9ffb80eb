/** The reply chain of the TypeScript chat assistant: twelve keyword rules
    over the lower-cased message, checked in order, and a default reply. */
module ChatbotTs {
  import opened Text
  import opened KeywordRules
  import opened ChatLog

  /** The fixed replies, one per rule plus the default. */
  datatype Reply =
    | Destinations | BudgetPlanning | ItineraryHelp | BestTime | Cuisine | History
    | KeralaInfo | RajasthanInfo | GoaInfo | HimachalInfo | Documents | Transport
    | Default

  const Rules: seq<Rule<Reply>> := [
    Rule(["destination", "place"], Destinations),
    Rule(["budget", "cost", "price"], BudgetPlanning),
    Rule(["itinerary", "plan"], ItineraryHelp),
    Rule(["weather", "season", "when to visit"], BestTime),
    Rule(["food", "cuisine"], Cuisine),
    Rule(["history", "historical", "heritage"], History),
    Rule(["kerala"], KeralaInfo),
    Rule(["rajasthan"], RajasthanInfo),
    Rule(["goa"], GoaInfo),
    Rule(["himachal", "mountains", "himalayas"], HimachalInfo),
    Rule(["documents", "id", "passport"], Documents),
    Rule(["transport", "travel", "how to reach"], Transport)]

  /** The assistant's answer to one message: the first rule with a keyword in
      the lower-cased message answers; the default answers exactly when no
      rule has a keyword in it. */
  function BotResponse(input: string): (r: Reply)
    ensures forall i | 0 <= i < |Rules| && Matches(Lower(input), Rules[i]) &&
      (forall j | 0 <= j < i :: !Matches(Lower(input), Rules[j])) :: r == Rules[i].reply
    ensures r == Default <==> forall j | 0 <= j < |Rules| :: !Matches(Lower(input), Rules[j])
  {
    var text := Lower(input);
    FirstMatchWinsAll(Rules, text, Default);
    NoRuleRepliesDefault();
    FallbackIffNoMatch(Rules, text, Default);
    FirstMatch(Rules, text, Default)
  }

  /** The default reply belongs to no rule. */
  lemma NoRuleRepliesDefault()
    ensures forall j | 0 <= j < |Rules| :: Rules[j].reply != Default
  {
  }

  /** The reply depends only on the lower-cased message. */
  lemma ReplyIgnoresCase(input: string)
    ensures BotResponse(Upper(input)) == BotResponse(input)
  {
    LowerForgetsCase(input);
  }

  lemma KeralaBudgetSkips()
    ensures !Matches("kerala budget", Rules[0])
  {
    MissingCharNotContained("kerala budget", "destination", 5);
    MissingCharNotContained("kerala budget", "place", 0);
  }

  lemma KeralaBudgetHits()
    ensures Matches("kerala budget", Rules[1])
  {
    assert OccursAt("kerala budget", "budget", 7);
  }

  lemma KeralaBudgetFirst()
    ensures FirstMatch(Rules, "kerala budget", Default) == BudgetPlanning
  {
    KeralaBudgetSkips();
    KeralaBudgetHits();
  }

  lemma LowerKeralaBudget()
    ensures Lower("Kerala budget") == "kerala budget"
  {
    LowerIs("Kerala budget", "kerala budget");
  }

  /** The budget rule comes before the place rules. */
  lemma KeralaBudget()
    ensures BotResponse("Kerala budget") == BudgetPlanning
  {
    LowerKeralaBudget();
    KeralaBudgetFirst();
  }

  lemma KeralaPlacesHits()
    ensures FirstMatch(Rules, "kerala places", Default) == Destinations
  {
    assert OccursAt("kerala places", "place", 7);
    assert Matches("kerala places", Rules[0]);
  }

  lemma LowerKeralaPlaces()
    ensures Lower("kerala places") == "kerala places"
  {
    LowerKeepsLowercase("kerala places");
  }

  /** The destination rule comes first of all. */
  lemma KeralaPlaces()
    ensures BotResponse("kerala places") == Destinations
  {
    LowerKeralaPlaces();
    KeralaPlacesHits();
  }

  lemma AirplaneSkips()
    ensures !Matches("airplane", Rules[0]) && !Matches("airplane", Rules[1])
  {
    MissingCharNotContained("airplane", "destination", 2);
    MissingCharNotContained("airplane", "place", 3);
    MissingCharNotContained("airplane", "budget", 0);
    MissingCharNotContained("airplane", "cost", 0);
    MissingCharNotContained("airplane", "price", 3);
  }

  lemma AirplaneHits()
    ensures Matches("airplane", Rules[2])
  {
    assert OccursAt("airplane", "plan", 3);
  }

  /** Keywords match inside words: "plan" occurs in "airplane". */
  lemma Airplane()
    ensures BotResponse("airplane") == ItineraryHelp
  {
    LowerKeepsLowercase("airplane");
    AirplaneSkips();
    AirplaneHits();
  }

  lemma HolidaySkipsFirst()
    ensures forall j | 0 <= j < 5 :: !Matches("holiday", Rules[j])
  {
    MissingCharNotContained("holiday", "destination", 1);
    MissingCharNotContained("holiday", "place", 0);
    MissingCharNotContained("holiday", "budget", 0);
    MissingCharNotContained("holiday", "cost", 0);
    MissingCharNotContained("holiday", "price", 0);
    MissingCharNotContained("holiday", "itinerary", 1);
    MissingCharNotContained("holiday", "plan", 0);
    MissingCharNotContained("holiday", "weather", 0);
    MissingCharNotContained("holiday", "season", 0);
    MissingCharNotContained("holiday", "when to visit", 0);
    MissingCharNotContained("holiday", "food", 0);
    MissingCharNotContained("holiday", "cuisine", 0);
  }

  lemma HolidaySkipsRest()
    ensures forall j | 5 <= j < 10 :: !Matches("holiday", Rules[j])
  {
    MissingCharNotContained("holiday", "history", 2);
    MissingCharNotContained("holiday", "historical", 2);
    MissingCharNotContained("holiday", "heritage", 1);
    MissingCharNotContained("holiday", "kerala", 0);
    MissingCharNotContained("holiday", "rajasthan", 0);
    MissingCharNotContained("holiday", "goa", 0);
    MissingCharNotContained("holiday", "himachal", 2);
    MissingCharNotContained("holiday", "mountains", 0);
    MissingCharNotContained("holiday", "himalayas", 2);
  }

  lemma HolidayHits()
    ensures Matches("holiday", Rules[10])
  {
    assert OccursAt("holiday", "id", 3);
  }

  /** "id" occurs in "holiday", so it gets the documents reply. */
  lemma Holiday()
    ensures BotResponse("holiday") == Documents
  {
    LowerKeepsLowercase("holiday");
    HolidaySkipsFirst();
    HolidaySkipsRest();
    HolidayHits();
    FirstMatchWins(Rules, "holiday", Default, 10);
  }

  /** A message with no keyword gets the default reply. */
  lemma NoKeyword()
    ensures BotResponse("hey") == Default
  {
    LowerKeepsLowercase("hey");
    forall j | 0 <= j < |Rules| ensures !Matches("hey", Rules[j]) {
      forall k | 0 <= k < |Rules[j].keywords| ensures !Contains("hey", Rules[j].keywords[k]) {
        var w := Rules[j].keywords[k];
        if |w| <= 3 {
          assert w == "goa" || w == "id";
          MissingCharNotContained("hey", w, 0);
        }
      }
    }
    NoMatchFallback(Rules, "hey", Default);
  }
}
