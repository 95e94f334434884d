/** An ordered keyword rule table: a list of (keywords, response) pairs tried in order, the
    first rule with a keyword occurring in the text wins, and a default answers everything else.
    The if/elif response chains of both programs are proved equal to such tables. */
module KeywordRules {
  import opened Text

  datatype Rule = Rule(keywords: seq<string>, response: string)

  predicate Matches(rule: Rule, text: string) {
    AnyContains(text, rule.keywords)
  }

  /** The index of the first matching rule, or `|rules|` when none matches. */
  function FirstMatchIndex(rules: seq<Rule>, text: string): (i: nat)
    ensures i <= |rules|
    ensures i < |rules| ==> Matches(rules[i], text)
    ensures forall j :: 0 <= j < i ==> !Matches(rules[j], text)
    decreases |rules|
  {
    if rules == [] then 0
    else if Matches(rules[0], text) then 0
    else 1 + FirstMatchIndex(rules[1..], text)
  }

  /** The response of the first matching rule, or `default`. */
  function FirstMatch(rules: seq<Rule>, text: string, default: string): (r: string)
    ensures r == default || exists i :: 0 <= i < |rules| && r == rules[i].response
    ensures (forall j :: 0 <= j < |rules| ==> !Matches(rules[j], text)) ==> r == default
  {
    var i := FirstMatchIndex(rules, text);
    if i < |rules| then rules[i].response else default
  }

  /** First match wins: when rule `i` is the earliest rule that matches, its response is chosen. */
  lemma FirstMatchChooses(rules: seq<Rule>, text: string, default: string, i: nat)
    requires i < |rules| && Matches(rules[i], text)
    requires forall j :: 0 <= j < i ==> !Matches(rules[j], text)
    ensures FirstMatch(rules, text, default) == rules[i].response
  {
  }

  /** Unfolding the table one rule at a time. */
  lemma FirstMatchStep(rules: seq<Rule>, text: string, default: string)
    requires rules != []
    ensures FirstMatch(rules, text, default) ==
      if Matches(rules[0], text) then rules[0].response else FirstMatch(rules[1..], text, default)
  {
    if !Matches(rules[0], text) {
      var k := FirstMatchIndex(rules[1..], text);
      assert FirstMatchIndex(rules, text) == 1 + k;
    }
  }

  /** A rule with one keyword matches exactly when that keyword occurs. */
  lemma MatchesOne(w: string, response: string, text: string)
    ensures Matches(Rule([w], response), text) <==> Contains(text, w)
  {
    assert [w][0] == w;
  }

  /** A rule with two keywords matches exactly when one of them occurs. */
  lemma MatchesTwo(w1: string, w2: string, response: string, text: string)
    ensures Matches(Rule([w1, w2], response), text) <==> Contains(text, w1) || Contains(text, w2)
  {
    assert [w1, w2][0] == w1 && [w1, w2][1] == w2;
  }

  /** A rule with three keywords matches exactly when one of them occurs. */
  lemma MatchesThree(w1: string, w2: string, w3: string, response: string, text: string)
    ensures Matches(Rule([w1, w2, w3], response), text)
        <==> Contains(text, w1) || Contains(text, w2) || Contains(text, w3)
  {
    assert [w1, w2, w3][0] == w1 && [w1, w2, w3][1] == w2 && [w1, w2, w3][2] == w3;
  }
}
