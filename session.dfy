/** The process-wide globals of app.py:33-39 as one object, and the handlers as its
    methods, written as the source runs them: each field is overwritten at the point
    the handler assigns its global. Each method is proved to leave the object in the
    state its step function in `Pipeline` computes and to give the same answer. */
module Dashboard {
  import opened Wrappers
  import opened Strings
  import opened Frame
  import opened Cleaning
  import opened Metrics
  import opened Ranking
  import opened Advice
  import opened Pipeline
  import opened PipelineProperties
  import opened Chat

  class Session {
    var data: Option<Table>
    var model: Option<Classifier>
    var importance: Option<seq<Ranked>>
    var accuracy: Option<real>
    var churnRate: Option<real>
    var churnColumn: Option<string>
    var revenue: real

    function Snapshot(): State
      reads this
    {
      State(data, model, importance, accuracy, churnRate, churnColumn, revenue)
    }

    /** The stored frame is cleaned and the stored ranking ordered. */
    predicate Valid()
      reads this
    {
      Pipeline.Valid(Snapshot())
    }

    /** Every global starts out unset; the revenue at 0. */
    constructor()
      ensures Snapshot() == Initial && Valid()
    {
      data := None;
      model := None;
      importance := None;
      accuracy := None;
      churnRate := None;
      churnColumn := None;
      revenue := 0.0;
    }

    /** `upload_file`. */
    method Upload(file: FileField, revenueField: RevenueInput, csv: Option<Table>, trainer: Trainer)
      returns (response: UploadResponse)
      requires csv.Some? ==> WellFormed(csv.value)
      requires Valid()
      modifies this
      ensures Snapshot() == UploadStep(old(Snapshot()), file, revenueField, csv, trainer).state
      ensures response == UploadStep(old(Snapshot()), file, revenueField, csv, trainer).response
      ensures Valid()
    {
      ghost var s := Snapshot();
      UploadKeepsValid(s, file, revenueField, csv, trainer);
      if file.NoPart? {
        return NoFilePart;
      }
      if file.filename == "" {
        return NoSelectedFile;
      }
      if !EndsWith(file.filename, ".csv") {
        return InvalidFileFormat;
      }
      revenue := ClampRevenue(revenueField);
      response := LoadAndAnalyse(csv, trainer);
    }

    /** Lines 331-441 of `upload_file`, once the revenue is stored. */
    method LoadAndAnalyse(csv: Option<Table>, trainer: Trainer) returns (response: UploadResponse)
      requires csv.Some? ==> WellFormed(csv.value)
      modifies this
      ensures Snapshot() == UploadFrame(old(Snapshot()), csv, trainer).state
      ensures response == UploadFrame(old(Snapshot()), csv, trainer).response
    {
      if csv.None? {
        return AnalysisFailed(Unreadable);
      }
      var cleaned := CleanData(csv.value);
      if cleaned.Err? {
        return AnalysisFailed(Cleaning(cleaned.error));
      }
      var t := cleaned.value.table;
      data := Some(t);
      var info := InfoOf(t, cleaned.value.quality);
      var j := ChurnColumnIndex(t.columns);
      if j.None? {
        return NoChurnColumn(info);
      }
      churnColumn := Some(t.columns[j.value].name);
      response := Analyse(t, info, j.value, trainer);
    }

    /** Lines 359-441 of `upload_file`, on the stored frame `t` and its churn column `j`. */
    method Analyse(t: Table, info: DataInfo, j: nat, trainer: Trainer) returns (response: UploadResponse)
      requires WellFormed(t) && j < |t.columns|
      modifies this
      ensures Snapshot() == UploadAnalysis(old(Snapshot()), t, info, j, trainer).state
      ensures response == UploadAnalysis(old(Snapshot()), t, info, j, trainer).response
    {
      var col := t.columns[j].name;
      var rate := ChurnRate(t.columns[j].cells);
      if rate.Err? {
        return if rate.error == NoLabels then ChurnInvalid else AnalysisFailed(Labels);
      }
      churnRate := Some(rate.value);
      var features := FeatureNames(t.columns, col);
      if t.rows == 0 || |features| == 0 {
        return NoUploadFeatures;
      }
      if TrainSize(t.rows) == 0 {
        return AnalysisFailed(EmptyTrainSet);
      }
      if TrainSize(t.rows) < 5 || TestSize(t.rows) < 2 {
        return TooSmall;
      }
      var fit := trainer(t, col, UploadGrid);
      if fit.None? {
        return AnalysisFailed(Training);
      }
      model := Some(fit.value.model);
      if fit.value.accuracy.None? {
        return AnalysisFailed(Scoring);
      }
      accuracy := fit.value.accuracy;
      if fit.value.importances.None? {
        return AnalysisFailed(Permutation);
      }
      var scores := fit.value.importances.value;
      if |scores| != |features| {
        return AnalysisFailed(ImportanceMismatch);
      }
      var ranking := RankByImportance(Zip(features, scores));
      importance := Some(ranking);
      response := Analysed(info, InsightsOf(rate.value, accuracy.value, revenue, ranking), MessageOf(revenue));
    }

    /** `filter_by_date`; the mask of line 469 is built row by row. */
    method FilterByDate(month: Option<int>, year: Option<int>, signupDate: Cell -> Option<Moment>,
                        revenueForm: Option<string>, trainer: Trainer)
      returns (response: FilterResponse)
      requires Valid()
      modifies this
      ensures Snapshot() == FilterStep(old(Snapshot()), month, year, signupDate, revenueForm, trainer).state
      ensures response == FilterStep(old(Snapshot()), month, year, signupDate, revenueForm, trainer).response
      ensures Valid()
    {
      ghost var s := Snapshot();
      FilterKeepsValid(s, month, year, signupDate, revenueForm, trainer);
      if month.None? || year.None? || month.value == 0 || year.value == 0 {
        return MissingMonthOrYear;
      }
      if data.None? {
        return FilterFailed(NoData);
      }
      var t := data.value;
      var j := ColumnIndex(t.columns, SignupDate);
      if j.None? {
        return NoSignupDate;
      }
      var dates := SignupDates(t, j.value, signupDate);
      FilterReachesPeriod(s, month, year, signupDate, revenueForm, trainer);
      response := SelectPeriodAndRefit(t, j.value, dates, YearMonth(year.value, month.value), revenueForm, trainer);
    }

    /** Lines 465-541, on the stored frame `t` and the parsed dates of its signup
        column `j`. */
    method SelectPeriodAndRefit(t: Table, j: nat, dates: seq<Option<Moment>>, target: YearMonth,
                                revenueForm: Option<string>, trainer: Trainer)
      returns (response: FilterResponse)
      requires WellFormed(t) && j < |t.columns| && |dates| == t.rows
      modifies this
      ensures Snapshot() == FilterPeriod(old(Snapshot()), t, j, dates, target, revenueForm, trainer).state
      ensures response == FilterPeriod(old(Snapshot()), t, j, dates, target, revenueForm, trainer).response
    {
      if forall i :: 0 <= i < |dates| ==> dates[i].None? {
        return InvalidDates;
      }
      var keep := SelectPeriod(dates, target);
      if |keep| == 0 {
        return NoMatchingRows;
      }
      response := StoreSelection(SelectParsed(t, j, dates, keep), revenueForm, trainer);
    }

    /** Lines 476-541 of `filter_by_date`: the selection replaces the stored frame. */
    method StoreSelection(sub: Table, revenueForm: Option<string>, trainer: Trainer) returns (response: FilterResponse)
      requires WellFormed(sub)
      modifies this
      ensures Snapshot() == FilterSelection(old(Snapshot()), sub, revenueForm, trainer).state
      ensures response == FilterSelection(old(Snapshot()), sub, revenueForm, trainer).response
    {
      data := Some(sub);
      var cleaned := CleanData(sub);
      if cleaned.Err? {
        return FilterFailed(Cleaning(cleaned.error));
      }
      response := Refit(sub, InfoOf(sub, cleaned.value.quality), revenueForm, trainer);
    }

    /** The positions whose date is in the requested month, in order. */
    static method SelectPeriod(dates: seq<Option<Moment>>, target: YearMonth) returns (keep: seq<nat>)
      ensures keep == MatchingRows(dates, target)
    {
      keep := [];
      var i := 0;
      while i < |dates|
        invariant 0 <= i <= |dates|
        invariant keep == MatchingRows(dates[..i], target)
      {
        assert dates[..i + 1][..i] == dates[..i];
        if InPeriod(dates[i], target) {
          keep := keep + [i];
        }
        i := i + 1;
      }
      assert dates[..i] == dates;
    }

    /** Lines 482-541 of `filter_by_date`, on the stored selection `t`. */
    method Refit(t: Table, info: DataInfo, revenueForm: Option<string>, trainer: Trainer) returns (response: FilterResponse)
      requires WellFormed(t)
      modifies this
      ensures Snapshot() == FilterAnalysis(old(Snapshot()), t, info, revenueForm, trainer).state
      ensures response == FilterAnalysis(old(Snapshot()), t, info, revenueForm, trainer).response
    {
      if churnColumn.None? {
        return FilterFailed(ChurnColumnMissing);
      }
      var col := churnColumn.value;
      var k := ColumnIndex(t.columns, col);
      if k.None? {
        return FilterFailed(ChurnColumnMissing);
      }
      var rate := ChurnRate(t.columns[k.value].cells);
      if rate.Err? {
        return FilterFailed(Labels);
      }
      churnRate := Some(rate.value);
      var features := FeatureNames(t.columns, col);
      if |features| == 0 {
        return NoFilterFeatures;
      }
      if TrainSize(t.rows) == 0 {
        return FilterFailed(EmptyTrainSet);
      }
      var fit := trainer(t, col, FilterGrid);
      if fit.None? {
        return FilterFailed(Training);
      }
      response := StoreRefit(features, fit.value, rate.value, info, revenueForm);
    }

    /** Lines 501-541 of `filter_by_date`, once the search has returned its best estimator. */
    method StoreRefit(features: seq<string>, fit: Fit, rate: real, info: DataInfo, revenueForm: Option<string>)
      returns (response: FilterResponse)
      modifies this
      ensures Snapshot() == FilterFitted(old(Snapshot()), features, fit, rate, info, revenueForm).state
      ensures response == FilterFitted(old(Snapshot()), features, fit, rate, info, revenueForm).response
    {
      model := Some(fit.model);
      if fit.accuracy.None? {
        return FilterFailed(Scoring);
      }
      accuracy := fit.accuracy;
      if fit.importances.None? {
        return FilterFailed(Permutation);
      }
      var scores := fit.importances.value;
      if |scores| != |features| {
        return FilterFailed(ImportanceMismatch);
      }
      var ranking := RankByImportance(Zip(features, scores));
      importance := Some(ranking);
      var r := FormRevenue(revenueForm);
      if r.None? {
        return FilterFailed(BadRevenue);
      }
      revenue := r.value;
      response := Filtered(info, InsightsOf(rate, accuracy.value, r.value, ranking), MessageOf(r.value));
    }

    /** `predict_revenue`. */
    method PredictRevenue(revenueField: RevenueInput) returns (response: PredictResponse)
      requires Valid()
      modifies this
      ensures Snapshot() == PredictStep(old(Snapshot()), revenueField).state
      ensures response == PredictStep(old(Snapshot()), revenueField).response
      ensures Valid()
    {
      revenue := ClampRevenue(revenueField);
      if revenue == 0.0 {
        return Forecasted(ForecastRevenue(0.0, 0.0));
      }
      if churnRate.None? {
        return PredictionFailed;
      }
      response := Forecasted(ForecastRevenue(revenue, churnRate.value));
    }

    /** `chat`: answers from the globals and changes none of them. */
    method Ask(query: string, revenueField: RevenueInput) returns (reply: Reply)
      ensures reply == Answer(Snapshot(), query, revenueField)
    {
      if data.None? {
        return PleaseUpload;
      }
      var r := ClampRevenue(revenueField);
      var intent := Classify(Lower(query));
      reply := AnswerTo(intent, r);
    }

    /** Lines 606-636: the branch for the query's intent, with the request's revenue. */
    method AnswerTo(intent: Intent, r: real) returns (reply: Reply)
      requires data.Some?
      ensures reply == AnswerIntent(Snapshot(), intent, r)
    {
      match intent
      case AskChurnRate =>
        reply := if churnRate.Some? then ChurnRateIs(churnRate.value) else ChatError;
      case AskRevenue =>
        if r == 0.0 {
          reply := NoRevenueLoss;
        } else if churnRate.Some? {
          var monthly := r * churnRate.value;
          reply := RevenueImpact(monthly, monthly * 12.0);
        } else {
          reply := ChatError;
        }
      case AskReasons =>
        reply := if importance.Some? then TopFactors(Top(importance.value, FactorCount)) else ChatError;
      case AskRecommendations =>
        var recs := GenerateRecommendations(importance);
        reply := RecommendationsAre(recs);
      case AskAccuracy =>
        reply := if accuracy.Some? then AccuracyIs(accuracy.value) else ChatError;
      case AskTrend =>
        reply := if churnRate.Some? then TrendIs(churnRate.value) else ChatError;
      case AskSegments =>
        reply := SegmentReply(Snapshot());
      case Unrecognised =>
        reply := Help;
    }
  }
}
