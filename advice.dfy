/** `generate_recommendations` (app.py:220-244): one piece of advice for each of the
    five best-ranked features, picked by the first keyword its lowercased name
    contains, then two pieces of advice given always. */
module Advice {
  import opened Wrappers
  import opened Strings
  import opened Ranking

  const ContractAdvice := "Offer longer-term contracts with discounts to boost loyalty."
  const TenureAdvice := "Introduce loyalty programs for long-term customers."
  const PricingAdvice := "Optimize pricing with competitive or tiered plans."
  const SpendingAdvice := "Provide discounts for high-spending customers."
  const EngageAdvice := "Engage at-risk customers with personalized offers."
  const OnboardingAdvice := "Streamline onboarding to highlight product value."

  const ContractKey := "contract"
  const TenureKey := "tenure"
  const MonthlyKey := "monthlycharges"
  const TotalKey := "totalcharges"

  /** The advice for a feature none of the keywords matches. */
  function FeedbackAdvice(name: string): string {
    "Optimize " + name + " based on customer feedback."
  }

  /** The keyword table, checked in order; the first keyword the name contains wins. */
  function AdviceFor(name: string): string {
    if Contains(name, ContractKey) then ContractAdvice
    else if Contains(name, TenureKey) then TenureAdvice
    else if Contains(name, MonthlyKey) then PricingAdvice
    else if Contains(name, TotalKey) then SpendingAdvice
    else FeedbackAdvice(name)
  }

  /** The feedback advice for a name is none of the keyword pieces of advice: it ends
      in "k." and each of them in "y." or "s.". */
  lemma FeedbackIsNoKeywordAdvice(name: string)
    ensures FeedbackAdvice(name) !in {ContractAdvice, TenureAdvice, PricingAdvice, SpendingAdvice}
  {
    var f := FeedbackAdvice(name);
    assert f[|f| - 2] == 'k';
    assert ContractAdvice[|ContractAdvice| - 2] == 'y';
    assert TenureAdvice[|TenureAdvice| - 2] == 's';
    assert PricingAdvice[|PricingAdvice| - 2] == 's';
    assert SpendingAdvice[|SpendingAdvice| - 2] == 's';
  }

  /** Each piece of advice is given exactly when its rule is the first that applies;
      the feedback advice exactly when no keyword occurs in the name. */
  lemma AdviceIffFirstMatch(name: string)
    ensures AdviceFor(name) == ContractAdvice <==> Contains(name, ContractKey)
    ensures AdviceFor(name) == TenureAdvice <==> !Contains(name, ContractKey) && Contains(name, TenureKey)
    ensures AdviceFor(name) == PricingAdvice <==>
              !Contains(name, ContractKey) && !Contains(name, TenureKey) && Contains(name, MonthlyKey)
    ensures AdviceFor(name) == SpendingAdvice <==>
              !Contains(name, ContractKey) && !Contains(name, TenureKey) && !Contains(name, MonthlyKey)
              && Contains(name, TotalKey)
    ensures AdviceFor(name) == FeedbackAdvice(name) <==>
              !Contains(name, ContractKey) && !Contains(name, TenureKey) && !Contains(name, MonthlyKey)
              && !Contains(name, TotalKey)
  {
    FeedbackIsNoKeywordAdvice(name);
    // The four keyword pieces of advice differ in length.
    assert |ContractAdvice| == 60 && |TenureAdvice| == 51 && |PricingAdvice| == 50 && |SpendingAdvice| == 46;
  }

  /** A name holding a keyword inside it, such as "contract_type", gets that keyword's advice. */
  lemma KeywordInsideName(pre: string, post: string)
    ensures AdviceFor(pre + ContractKey + post) == ContractAdvice
  {
    assert StartsWith(ContractKey, ContractKey);
    ContainsInContext(pre, ContractKey, post, ContractKey);
  }

  /** What `generate_recommendations` returns: the advice for each of the first
      five features, then the two fixed pieces of advice; `[]` when there is no
      ranking (slicing `None` raises and the handler returns an empty list). */
  function Recommendations(ranking: Option<seq<Ranked>>): seq<string> {
    match ranking
    case None => []
    case Some(r) =>
      var top := Top(r, TopCount);
      seq(|top|, i requires 0 <= i < |top| => AdviceFor(Lower(top[i].feature))) + [EngageAdvice, OnboardingAdvice]
  }

  /** The list holds `min(5, n) + 2` entries: the i-th is fixed by the i-th ranked
      feature's lowercased name, and the last two are always the same. */
  lemma RecommendationsShape(ranking: seq<Ranked>)
    ensures var recs := Recommendations(Some(ranking)); var n := Min(TopCount, |ranking|);
      && |recs| == n + 2
      && (forall i :: 0 <= i < n ==> recs[i] == AdviceFor(Lower(ranking[i].feature)))
      && recs[n] == EngageAdvice && recs[n + 1] == OnboardingAdvice
  {
  }

  /** The loop of lines 224-240. */
  method GenerateRecommendations(ranking: Option<seq<Ranked>>) returns (recs: seq<string>)
    ensures recs == Recommendations(ranking)
  {
    if ranking.None? {
      return [];
    }
    var top := Top(ranking.value, TopCount);
    recs := [];
    var i := 0;
    while i < |top|
      invariant 0 <= i <= |top|
      invariant recs == seq(i, k requires 0 <= k < i => AdviceFor(Lower(top[k].feature)))
    {
      var name := Lower(top[i].feature);
      var advice;
      if Contains(name, ContractKey) {
        advice := ContractAdvice;
      } else if Contains(name, TenureKey) {
        advice := TenureAdvice;
      } else if Contains(name, MonthlyKey) {
        advice := PricingAdvice;
      } else if Contains(name, TotalKey) {
        advice := SpendingAdvice;
      } else {
        advice := FeedbackAdvice(name);
      }
      recs := recs + [advice];
      i := i + 1;
    }
    recs := recs + [EngageAdvice, OnboardingAdvice];
  }
}
