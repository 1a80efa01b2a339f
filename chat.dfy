/** The chat handler (app.py:586-641): a keyword dispatch over the lowercased query,
    answered from the stored state, which it never changes (its revenue figure is a
    local variable). */
module Chat {
  import opened Wrappers
  import opened Strings
  import opened Frame
  import opened Metrics
  import opened Ranking
  import opened Advice
  import opened Pipeline

  /** The questions the dispatch tells apart, in the order it tests them. */
  datatype Intent =
    | AskChurnRate
    | AskRevenue
    | AskReasons
    | AskRecommendations
    | AskAccuracy
    | AskTrend
    | AskSegments
    | Unrecognised

  const Order: seq<Intent> :=
    [AskChurnRate, AskRevenue, AskReasons, AskRecommendations, AskAccuracy, AskTrend, AskSegments]

  /** The phrases each branch of lines 606-636 looks for. */
  function Keywords(i: Intent): seq<string> {
    match i
    case AskChurnRate => ["churn rate"]
    case AskRevenue => ["revenue", "loss"]
    case AskReasons => ["reasons", "factors"]
    case AskRecommendations => ["reduce churn", "recommendations"]
    case AskAccuracy => ["model accuracy", "accuracy", "accurate"]
    case AskTrend => ["trend"]
    case AskSegments => ["segment"]
    case Unrecognised => []
  }

  predicate Mentions(q: string, i: Intent) {
    exists k :: 0 <= k < |Keywords(i)| && Contains(q, Keywords(i)[k])
  }

  /** The `if`/`elif` chain: the first intent one of whose phrases the query holds. */
  function Classify(q: string): Intent {
    if Mentions(q, AskChurnRate) then AskChurnRate
    else if Mentions(q, AskRevenue) then AskRevenue
    else if Mentions(q, AskReasons) then AskReasons
    else if Mentions(q, AskRecommendations) then AskRecommendations
    else if Mentions(q, AskAccuracy) then AskAccuracy
    else if Mentions(q, AskTrend) then AskTrend
    else if Mentions(q, AskSegments) then AskSegments
    else Unrecognised
  }

  /** A query is unrecognised exactly when it holds no phrase at all; otherwise its
      intent is one it mentions, and it mentions no intent the chain checks earlier. */
  lemma ClassifyIsFirstMention(q: string)
    ensures Classify(q) == Unrecognised <==> forall k :: 0 <= k < |Order| ==> !Mentions(q, Order[k])
    ensures Classify(q) != Unrecognised ==>
      exists k :: 0 <= k < |Order| && Order[k] == Classify(q) && Mentions(q, Order[k])
        && forall l :: 0 <= l < k ==> !Mentions(q, Order[l])
  {
    var c := Classify(q);
    if c != Unrecognised {
      var k := match c
        case AskChurnRate => 0 case AskRevenue => 1 case AskReasons => 2 case AskRecommendations => 3
        case AskAccuracy => 4 case AskTrend => 5 case _ => 6;
      assert Order[k] == c && Mentions(q, Order[k]);
      assert forall l :: 0 <= l < k ==> !Mentions(q, Order[l]);
    } else {
      assert forall k :: 0 <= k < |Order| ==> !Mentions(q, Order[k]);
    }
  }

  /** "churn rate" wins wherever it occurs, even inside "reduce churn rate", which
      therefore never reaches the recommendations. */
  lemma ChurnRatePhraseWins(pre: string, post: string)
    ensures Classify(pre + "churn rate" + post) == AskChurnRate
    ensures Classify(pre + "reduce churn rate" + post) == AskChurnRate
  {
    var phrase := "churn rate";
    assert StartsWith(phrase, phrase);
    ContainsInContext(pre, phrase, post, phrase);
    assert Keywords(AskChurnRate)[0] == phrase;
    var longer := "reduce " + phrase;
    assert longer == "reduce churn rate";
    ContainsInContext(pre + "reduce ", phrase, post, phrase);
    assert pre + "reduce " + phrase + post == pre + longer + post;
  }

  // ---------------------------------------------------------------------------
  // Replies

  datatype Reply =
    | PleaseUpload
    | ChurnRateIs(rate: real)
    | NoRevenueLoss
    | RevenueImpact(monthly: real, yearly: real)
    | TopFactors(factors: seq<Ranked>)
    | RecommendationsAre(recs: seq<string>)
    | AccuracyIs(accuracy: real)
    | TrendIs(rate: real)
    | SegmentByContract(churnColumn: string)
    | SegmentUnavailable
    | Help
    /** A stored value the branch needs was never set, so the branch raised. */
    | ChatError

  const ContractColumn := "contract"
  const FactorCount: nat := 3

  /** Lines 628-635: grouping by "contract" and averaging the stored churn column,
      which raises when no churn column is known, when the frame lacks it, or when it
      holds text (the mean of strings) or dates (a mean timestamp times 100). */
  function SegmentReply(s: State): Reply
    requires s.data.Some?
  {
    var t := s.data.value;
    if ColumnIndex(t.columns, ContractColumn).None? then SegmentUnavailable
    else match s.churnColumn
      case None => ChatError
      case Some(col) =>
        match ColumnIndex(t.columns, col)
        case None => ChatError
        case Some(k) =>
          if t.columns[k].kind == Categorical || t.columns[k].kind == Datetime then ChatError
          else SegmentByContract(col)
  }

  /** The handler; an absent query is the empty string. */
  function Answer(s: State, query: string, revenueField: RevenueInput): Reply {
    if s.data.None? then PleaseUpload
    else AnswerIntent(s, Classify(Lower(query)), ClampRevenue(revenueField))
  }

  /** The branch of lines 606-636 for the query's intent. */
  function AnswerIntent(s: State, intent: Intent, revenue: real): Reply
    requires s.data.Some?
  {
    match intent
    case AskChurnRate => if s.churnRate.Some? then ChurnRateIs(s.churnRate.value) else ChatError
    case AskRevenue =>
      if revenue == 0.0 then NoRevenueLoss
      else if s.churnRate.Some? then RevenueImpact(revenue * s.churnRate.value, revenue * s.churnRate.value * 12.0)
      else ChatError
    case AskReasons => if s.importance.Some? then TopFactors(Top(s.importance.value, FactorCount)) else ChatError
    case AskRecommendations => RecommendationsAre(Recommendations(s.importance))
    case AskAccuracy => if s.accuracy.Some? then AccuracyIs(s.accuracy.value) else ChatError
    case AskTrend => if s.churnRate.Some? then TrendIs(s.churnRate.value) else ChatError
    case AskSegments => SegmentReply(s)
    case Unrecognised => Help
  }

  /** The query's case does not matter. */
  lemma QueryCaseIgnored(s: State, query: string, revenueField: RevenueInput)
    ensures Answer(s, Lower(query), revenueField) == Answer(s, query, revenueField)
  {
    LowerIdempotent(query);
  }

  /** A reply is an error exactly when the branch the query selects needs a value no
      handler has stored yet: the churn rate (for a positive revenue, in the revenue
      branch), the ranking, the accuracy, or a numeric or boolean churn column beside a
      "contract" column. */
  lemma ChatErrorIff(s: State, query: string, revenueField: RevenueInput)
    ensures Answer(s, query, revenueField) == ChatError <==>
      s.data.Some? && var t := s.data.value;
        match Classify(Lower(query))
          case AskChurnRate => s.churnRate.None?
          case AskTrend => s.churnRate.None?
          case AskRevenue => ClampRevenue(revenueField) != 0.0 && s.churnRate.None?
          case AskReasons => s.importance.None?
          case AskAccuracy => s.accuracy.None?
          case AskSegments =>
            && ColumnIndex(t.columns, ContractColumn).Some?
            && (|| s.churnColumn.None?
                || ColumnIndex(t.columns, s.churnColumn.value).None?
                || t.columns[ColumnIndex(t.columns, s.churnColumn.value).value].kind in {Categorical, Datetime})
          case _ => false
  {
  }

  /** The revenue branch reports the upload's revenue at risk for the same figure. */
  lemma ChatRevenueIsLoss(s: State, query: string, revenueField: RevenueInput)
    requires s.data.Some? && s.churnRate.Some? && Classify(Lower(query)) == AskRevenue
    ensures var revenue := ClampRevenue(revenueField); var loss := RevenueLoss(revenue, s.churnRate.value);
      Answer(s, query, revenueField) ==
        if revenue == 0.0 then NoRevenueLoss else RevenueImpact(loss.monthly, loss.yearly)
  {
    var revenue := ClampRevenue(revenueField);
    assert Answer(s, query, revenueField) == AnswerIntent(s, AskRevenue, revenue);
    RevenueReplyIsLoss(s, revenue);
  }

  lemma RevenueReplyIsLoss(s: State, revenue: real)
    requires s.data.Some? && s.churnRate.Some? && revenue >= 0.0
    ensures var loss := RevenueLoss(revenue, s.churnRate.value);
      AnswerIntent(s, AskRevenue, revenue) ==
        if revenue == 0.0 then NoRevenueLoss else RevenueImpact(loss.monthly, loss.yearly)
  {
    if revenue != 0.0 {
      var monthly := revenue * s.churnRate.value;
      assert RevenueLoss(revenue, s.churnRate.value) == Loss(monthly, monthly * 12.0, "");
    }
  }

  /** The reasons are the first three entries of the stored ranking, each scoring at
      least as high as every entry left out. */
  lemma ChatReasonsAreBest(s: State, query: string, revenueField: RevenueInput)
    requires Valid(s) && s.data.Some? && s.importance.Some? && Classify(Lower(query)) == AskReasons
    ensures var r := s.importance.value;
      && Answer(s, query, revenueField) == TopFactors(r[..Min(FactorCount, |r|)])
      && forall i, j :: 0 <= i < Min(FactorCount, |r|) <= j < |r| ==> r[i].importance >= r[j].importance
  {
  }

  /** A churn column of text labels ("yes"/"no") makes every segment question fail
      once the frame has a "contract" column. */
  lemma SegmentsFailOnTextLabels(s: State, query: string, revenueField: RevenueInput, k: nat)
    requires s.data.Some? && s.churnColumn.Some? && Classify(Lower(query)) == AskSegments
    requires ColumnIndex(s.data.value.columns, ContractColumn).Some?
    requires ColumnIndex(s.data.value.columns, s.churnColumn.value) == Some(k)
    requires s.data.value.columns[k].kind == Categorical
    ensures Answer(s, query, revenueField) == ChatError
  {
  }
}
