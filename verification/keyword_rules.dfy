/** Ordered keyword rules as both chat responders use them: each rule lists
    keywords and a reply, the first rule with a keyword occurring anywhere in
    the text decides the reply, and a fixed reply answers when none does. */
module KeywordRules {
  import opened Text

  datatype Rule<R> = Rule(keywords: seq<string>, reply: R)

  /** Some keyword of the list occurs as a substring of the text. */
  predicate AnyKeyword(text: string, keywords: seq<string>) {
    exists k | 0 <= k < |keywords| :: Contains(text, keywords[k])
  }

  /** The reply of the first matching rule, or the fallback. */
  function FirstMatch<R>(rules: seq<Rule<R>>, text: string, fallback: R): (r: R)
    ensures r == fallback || exists i | 0 <= i < |rules| :: r == rules[i].reply
  {
    if rules == [] then fallback
    else if Matches(text, rules[0]) then rules[0].reply
    else
      var r := FirstMatch(rules[1..], text, fallback);
      assert r != fallback ==> exists i | 0 <= i < |rules[1..]| :: r == rules[1..][i].reply;
      r
  }

  predicate Matches<R>(text: string, rule: Rule<R>) {
    MatchesFrom(text, rule.keywords)
  }

  /** Left-to-right `||` over the keywords of one rule. */
  predicate MatchesFrom(text: string, keywords: seq<string>)
    ensures MatchesFrom(text, keywords) <==> AnyKeyword(text, keywords)
  {
    if keywords == [] then false
    else
      assert forall k | 1 <= k < |keywords| :: keywords[k] == keywords[1..][k - 1];
      Contains(text, keywords[0]) || MatchesFrom(text, keywords[1..])
  }

  /** The rule at `i` answers when it matches and no earlier rule does. */
  lemma {:induction false} FirstMatchWins<R>(rules: seq<Rule<R>>, text: string, fallback: R, i: nat)
    requires i < |rules| && Matches(text, rules[i])
    requires forall j | 0 <= j < i :: !Matches(text, rules[j])
    ensures FirstMatch(rules, text, fallback) == rules[i].reply
  {
    if i > 0 {
      assert !Matches(text, rules[0]);
      FirstMatchWins(rules[1..], text, fallback, i - 1);
    }
  }

  /** Without a matching rule the fallback answers. */
  lemma {:induction false} NoMatchFallback<R>(rules: seq<Rule<R>>, text: string, fallback: R)
    requires forall j | 0 <= j < |rules| :: !Matches(text, rules[j])
    ensures FirstMatch(rules, text, fallback) == fallback
  {
    if rules != [] {
      assert !Matches(text, rules[0]);
      NoMatchFallback(rules[1..], text, fallback);
    }
  }

  /** Conversely, a reply other than the fallback comes from a matching rule
      that no earlier rule pre-empts. */
  lemma {:induction false} ReplyHasWinningRule<R>(rules: seq<Rule<R>>, text: string, fallback: R)
    requires FirstMatch(rules, text, fallback) != fallback
    ensures exists i | 0 <= i < |rules| ::
      Matches(text, rules[i]) && FirstMatch(rules, text, fallback) == rules[i].reply &&
      forall j | 0 <= j < i :: !Matches(text, rules[j])
  {
    if !Matches(text, rules[0]) {
      ReplyHasWinningRule(rules[1..], text, fallback);
      var i :| 0 <= i < |rules[1..]| &&
        Matches(text, rules[1..][i]) && FirstMatch(rules[1..], text, fallback) == rules[1..][i].reply &&
        forall j | 0 <= j < i :: !Matches(text, rules[1..][j]);
      assert forall j | 0 <= j < i + 1 :: !Matches(text, rules[j]) by {
        forall j | 0 <= j < i + 1 ensures !Matches(text, rules[j]) {
          if j > 0 {
            assert rules[j] == rules[1..][j - 1];
          }
        }
      }
      assert rules[i + 1] == rules[1..][i];
    } else {
      assert Matches(text, rules[0]);
    }
  }

  /** With replies that all differ from the fallback, a matching rule keeps the fallback out. */
  lemma {:induction false} SomeMatchAnswers<R>(rules: seq<Rule<R>>, text: string, fallback: R, i: nat)
    requires i < |rules| && Matches(text, rules[i])
    requires forall j | 0 <= j < |rules| :: rules[j].reply != fallback
    ensures FirstMatch(rules, text, fallback) != fallback
    decreases i
  {
    if forall j | 0 <= j < i :: !Matches(text, rules[j]) {
      FirstMatchWins(rules, text, fallback, i);
    } else {
      var j :| 0 <= j < i && Matches(text, rules[j]);
      SomeMatchAnswers(rules, text, fallback, j);
    }
  }

  /** With replies that all differ from the fallback, the fallback answers
      exactly when no rule matches. */
  lemma FallbackIffNoMatch<R>(rules: seq<Rule<R>>, text: string, fallback: R)
    requires forall j | 0 <= j < |rules| :: rules[j].reply != fallback
    ensures FirstMatch(rules, text, fallback) == fallback <==> forall j | 0 <= j < |rules| :: !Matches(text, rules[j])
  {
    if forall j | 0 <= j < |rules| :: !Matches(text, rules[j]) {
      NoMatchFallback(rules, text, fallback);
    } else {
      var i :| 0 <= i < |rules| && Matches(text, rules[i]);
      SomeMatchAnswers(rules, text, fallback, i);
    }
  }

  /** FirstMatchWins for every rule at once. */
  lemma FirstMatchWinsAll<R>(rules: seq<Rule<R>>, text: string, fallback: R)
    ensures forall i | 0 <= i < |rules| && Matches(text, rules[i]) && (forall j | 0 <= j < i :: !Matches(text, rules[j])) ::
      FirstMatch(rules, text, fallback) == rules[i].reply
  {
    forall i | 0 <= i < |rules| && Matches(text, rules[i]) && (forall j | 0 <= j < i :: !Matches(text, rules[j]))
      ensures FirstMatch(rules, text, fallback) == rules[i].reply
    {
      FirstMatchWins(rules, text, fallback, i);
    }
  }
}
