/** The reply chain of the JavaScript chat assistant: six keyword rules in a
    different order from the TypeScript assistant (place names before the
    budget rule), and a default reply. */
module ChatbotJsx {
  import opened Text
  import opened KeywordRules
  import opened ChatLog

  datatype Reply = KeralaReply | RajasthanReply | BudgetReply | GoaReply | HimachalReply | HelpReply | Default

  const Rules: seq<Rule<Reply>> := [
    Rule(["kerala"], KeralaReply),
    Rule(["rajasthan"], RajasthanReply),
    Rule(["budget"], BudgetReply),
    Rule(["goa"], GoaReply),
    Rule(["himachal", "mountains"], HimachalReply),
    Rule(["help", "assist"], HelpReply)]

  /** The assistant's answer to one message: the first rule with a keyword in
      the lower-cased message answers; the default answers exactly when no
      rule has a keyword in it. */
  function BotResponse(input: string): (r: Reply)
    ensures forall i | 0 <= i < |Rules| && Matches(Lower(input), Rules[i]) &&
      (forall j | 0 <= j < i :: !Matches(Lower(input), Rules[j])) :: r == Rules[i].reply
    ensures r == Default <==> forall j | 0 <= j < |Rules| :: !Matches(Lower(input), Rules[j])
  {
    var text := Lower(input);
    FirstMatchWinsAll(Rules, text, Default);
    NoRuleRepliesDefault();
    FallbackIffNoMatch(Rules, text, Default);
    FirstMatch(Rules, text, Default)
  }

  /** The default reply belongs to no rule. */
  lemma NoRuleRepliesDefault()
    ensures forall j | 0 <= j < |Rules| :: Rules[j].reply != Default
  {
  }

  /** The reply depends only on the lower-cased message. */
  lemma ReplyIgnoresCase(input: string)
    ensures BotResponse(Upper(input)) == BotResponse(input)
  {
    LowerForgetsCase(input);
  }

  /** Any message naming Kerala gets the Kerala reply, whatever else it asks. */
  lemma KeralaFirst(input: string)
    requires Contains(Lower(input), "kerala")
    ensures BotResponse(input) == KeralaReply
  {
    assert Matches(Lower(input), Rules[0]) by {
      assert Rules[0].keywords[0] == "kerala";
    }
  }

  lemma LowerKeralaBudget()
    ensures Lower("kerala budget") == "kerala budget"
  {
    LowerKeepsLowercase("kerala budget");
  }

  lemma KeralaBudgetHits()
    ensures Contains("kerala budget", "kerala")
  {
    assert OccursAt("kerala budget", "kerala", 0);
  }

  /** Here the place name wins over the budget rule. */
  lemma KeralaBudget()
    ensures BotResponse("kerala budget") == KeralaReply
  {
    LowerKeralaBudget();
    KeralaBudgetHits();
    KeralaFirst("kerala budget");
  }

  lemma GoaBudgetSkips()
    ensures !Matches("goa budget", Rules[0]) && !Matches("goa budget", Rules[1])
  {
    MissingCharNotContained("goa budget", "kerala", 0);
    MissingCharNotContained("goa budget", "rajasthan", 0);
  }

  lemma GoaBudgetHits()
    ensures FirstMatch(Rules, "goa budget", Default) == BudgetReply
  {
    GoaBudgetSkips();
    assert OccursAt("goa budget", "budget", 4);
    assert Matches("goa budget", Rules[2]);
  }

  lemma LowerGoaBudget()
    ensures Lower("goa budget") == "goa budget"
  {
    LowerKeepsLowercase("goa budget");
  }

  /** The budget rule comes before Goa. */
  lemma GoaBudget()
    ensures BotResponse("goa budget") == BudgetReply
  {
    LowerGoaBudget();
    GoaBudgetHits();
  }

  lemma HelpfulSkips()
    ensures forall j | 0 <= j < 5 :: !Matches("helpful", Rules[j])
  {
    MissingCharNotContained("helpful", "kerala", 0);
    MissingCharNotContained("helpful", "rajasthan", 0);
    MissingCharNotContained("helpful", "budget", 0);
    MissingCharNotContained("helpful", "goa", 0);
    MissingCharNotContained("helpful", "himachal", 1);
    MissingCharNotContained("helpful", "mountains", 0);
  }

  lemma HelpfulHits()
    ensures Matches("helpful", Rules[5])
  {
    assert OccursAt("helpful", "help", 0);
  }

  lemma LowerHelpful()
    ensures Lower("helpful") == "helpful"
  {
    LowerKeepsLowercase("helpful");
  }

  /** "help" matches inside "helpful". */
  lemma Helpful()
    ensures BotResponse("helpful") == HelpReply
  {
    LowerHelpful();
    HelpfulSkips();
    HelpfulHits();
    FirstMatchWins(Rules, "helpful", Default, 5);
  }
}
