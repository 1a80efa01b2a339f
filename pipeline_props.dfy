/** What the three state-changing handlers promise, proved about the step functions
    of `Pipeline`: which responses leave the state alone, what a successful run
    stores, and that the stored frame and ranking stay well formed. */
module PipelineProperties {
  import opened Wrappers
  import opened Strings
  import opened Frame
  import opened Cleaning
  import opened CleaningProperties
  import opened Metrics
  import opened Ranking
  import opened Pipeline

  // ---------------------------------------------------------------------------
  // upload_file

  /** A rejected file name answers with its error and changes nothing; an accepted
      one stores the clamped revenue before anything else can fail. */
  lemma UploadFileGate(s: State, file: FileField, revenueField: RevenueInput, csv: Option<Table>, trainer: Trainer)
    requires csv.Some? ==> WellFormed(csv.value)
    ensures var o := UploadStep(s, file, revenueField, csv, trainer);
      && (!FileAccepted(file) <==> o.response.NoFilePart? || o.response.NoSelectedFile? || o.response.InvalidFileFormat?)
      && (!FileAccepted(file) ==> o.state == s)
      && (FileAccepted(file) ==> o.state.revenue == ClampRevenue(revenueField))
  {
    if FileAccepted(file) {
      UploadFrameKeeps(s.(revenue := ClampRevenue(revenueField)), csv, trainer);
      UploadFrameAnswers(s.(revenue := ClampRevenue(revenueField)), csv, trainer);
    }
  }

  /** Past the file checks the upload keeps the revenue it stored, replaces the frame
      exactly when it is read and cleaned, by the cleaned frame. */
  lemma UploadFrameKeeps(s: State, csv: Option<Table>, trainer: Trainer)
    requires csv.Some? ==> WellFormed(csv.value)
    ensures UploadFrame(s, csv, trainer).state.revenue == s.revenue
    ensures UploadFrame(s, csv, trainer).state.data ==
      if csv.Some? && Clean(csv.value).Ok? then Some(Clean(csv.value).value.table) else s.data
  {
    if csv.Some? && Clean(csv.value).Ok? {
      var c := Clean(csv.value).value;
      match ChurnColumnIndex(c.table.columns)
      case None =>
      case Some(j) =>
        var st := s.(data := Some(c.table), churnColumn := Some(c.table.columns[j].name));
        UploadAnalysisKeepsData(st, c.table, InfoOf(c.table, c.quality), j, trainer);
    }
  }

  /** Past the file checks the upload never answers with a file error, and any
      ranking it stores is ordered. */
  lemma UploadFrameAnswers(s: State, csv: Option<Table>, trainer: Trainer)
    requires csv.Some? ==> WellFormed(csv.value)
    ensures var r := UploadFrame(s, csv, trainer).response;
      !r.NoFilePart? && !r.NoSelectedFile? && !r.InvalidFileFormat?
    ensures var o := UploadFrame(s, csv, trainer);
      o.state.importance.Some? ==> o.state.importance == s.importance || SortedDesc(o.state.importance.value)
    ensures var o := UploadFrame(s, csv, trainer);
      o.state.churnColumn == s.churnColumn || (o.state.churnColumn.Some? && Lower(o.state.churnColumn.value) == ChurnName)
  {
    if csv.Some? && Clean(csv.value).Ok? {
      var c := Clean(csv.value).value;
      match ChurnColumnIndex(c.table.columns)
      case None =>
      case Some(j) =>
        var st := s.(data := Some(c.table), churnColumn := Some(c.table.columns[j].name));
        UploadAnalysisKeepsData(st, c.table, InfoOf(c.table, c.quality), j, trainer);
    }
  }

  /** The state once the cleaned frame and its churn column are stored. */
  function Stored(s: State, revenueField: RevenueInput, t: Table, col: string): State {
    s.(revenue := ClampRevenue(revenueField), data := Some(t), churnColumn := Some(col))
  }

  /** Past the file checks, the cleaning and the churn column lookup, the upload is
      its analysis part on the stored state. */
  lemma UploadReachesAnalysis(s: State, name: string, revenueField: RevenueInput, raw: Table, trainer: Trainer, j: nat)
    requires WellFormed(raw) && FileAccepted(Part(name)) && Clean(raw).Ok?
    requires ChurnColumnIndex(Clean(raw).value.table.columns) == Some(j)
    ensures var c := Clean(raw).value;
      UploadStep(s, Part(name), revenueField, Some(raw), trainer) ==
        UploadAnalysis(Stored(s, revenueField, c.table, c.table.columns[j].name), c.table, InfoOf(c.table, c.quality), j, trainer)
  {
  }

  /** The stored frame is replaced exactly when the file is accepted, read and
      cleaned, and then by the cleaned frame. */
  lemma UploadStoresCleanedFrame(s: State, file: FileField, revenueField: RevenueInput, csv: Option<Table>, trainer: Trainer)
    requires csv.Some? ==> WellFormed(csv.value)
    ensures UploadStep(s, file, revenueField, csv, trainer).state.data ==
      if FileAccepted(file) && csv.Some? && Clean(csv.value).Ok? then Some(Clean(csv.value).value.table) else s.data
  {
    if FileAccepted(file) {
      UploadFrameKeeps(s.(revenue := ClampRevenue(revenueField)), csv, trainer);
    }
  }

  /** The analysis part changes neither the stored frame, nor the churn column, nor
      the revenue, and stores an ordered ranking. */
  lemma UploadAnalysisKeepsData(s: State, t: Table, info: DataInfo, j: nat, trainer: Trainer)
    requires WellFormed(t) && j < |t.columns|
    ensures var o := UploadAnalysis(s, t, info, j, trainer);
      && o.state.data == s.data && o.state.churnColumn == s.churnColumn && o.state.revenue == s.revenue
      && (o.state.importance.Some? ==> o.state.importance == s.importance || SortedDesc(o.state.importance.value))
      && !o.response.NoFilePart? && !o.response.NoSelectedFile? && !o.response.InvalidFileFormat?
  {
  }

  /** A file of fewer than ten rows is refused by the cleaning step; only the revenue
      is stored. */
  lemma UploadOfSmallFileFails(s: State, name: string, revenueField: RevenueInput, raw: Table, trainer: Trainer)
    requires WellFormed(raw) && 0 < raw.rows < MinRows && |raw.columns| > 0
    requires name != "" && EndsWith(name, ".csv")
    ensures UploadStep(s, Part(name), revenueField, Some(raw), trainer) ==
      Outcome(s.(revenue := ClampRevenue(revenueField)), AnalysisFailed(Cleaning(TooFewRows)))
  {
    SizeRejections(raw);
  }

  /** Without a column called "churn" in any case the upload stores the cleaned frame
      and answers with its overview only. */
  lemma UploadWithoutChurnColumn(s: State, name: string, revenueField: RevenueInput, raw: Table, trainer: Trainer)
    requires WellFormed(raw) && Clean(raw).Ok? && name != "" && EndsWith(name, ".csv")
    ensures var c := Clean(raw).value; var o := UploadStep(s, Part(name), revenueField, Some(raw), trainer);
      o.response.NoChurnColumn? <==> forall j :: 0 <= j < |c.table.columns| ==> Lower(c.table.columns[j].name) != ChurnName
    ensures var c := Clean(raw).value; var o := UploadStep(s, Part(name), revenueField, Some(raw), trainer);
      o.response.NoChurnColumn? ==>
        && o.state == s.(revenue := ClampRevenue(revenueField), data := Some(c.table))
        && o.response.info.names == Names(c.table.columns) + ["All"]
        && o.response.info.rows == c.table.rows
  {
    var c := Clean(raw).value;
    match ChurnColumnIndex(c.table.columns)
    case None =>
    case Some(j) =>
      UploadReachesAnalysis(s, name, revenueField, raw, trainer, j);
      UploadAnalysisResponses(Stored(s, revenueField, c.table, c.table.columns[j].name), c.table,
        InfoOf(c.table, c.quality), j, trainer);
  }

  /** The responses of the analysis part, by the condition that selects each: the
      labels, the features, the split sizes and the learner. */
  lemma UploadAnalysisResponses(s: State, t: Table, info: DataInfo, j: nat, trainer: Trainer)
    requires WellFormed(t) && j < |t.columns|
    ensures var o := UploadAnalysis(s, t, info, j, trainer); var rate := ChurnRate(t.columns[j].cells);
      var col := t.columns[j].name; var features := FeatureNames(t.columns, col);
      && !o.response.NoChurnColumn?
      && (o.response == ChurnInvalid <==> rate == Err(NoLabels))
      && (o.response == AnalysisFailed(Labels) <==> rate == Err(UnmappedLabels))
      && (o.response == NoUploadFeatures <==> rate.Ok? && (t.rows == 0 || |features| == 0))
      && (o.response == AnalysisFailed(EmptyTrainSet) <==> rate.Ok? && t.rows == 1 && |features| > 0)
      && (o.response == TooSmall <==> rate.Ok? && 2 <= t.rows < 7 && |features| > 0)
      && var trained := rate.Ok? && 7 <= t.rows && |features| > 0;
         var fit := trainer(t, col, UploadGrid);
         && (o.response == AnalysisFailed(Training) <==> trained && fit.None?)
         && (o.response == AnalysisFailed(Scoring) <==> trained && fit.Some? && fit.value.accuracy.None?)
         && (o.response == AnalysisFailed(Permutation) <==>
               trained && fit.Some? && fit.value.accuracy.Some? && fit.value.importances.None?)
         && (o.response == AnalysisFailed(ImportanceMismatch) <==>
               trained && fit.Some? && fit.value.accuracy.Some? && fit.value.importances.Some?
               && |fit.value.importances.value| != |features|)
         && (o.response.Analysed? <==> trained && fit.Some? && Scored(fit.value, features))
  {
    UploadEarlyResponses(s, t, info, j, trainer);
    UploadLearnerResponses(s, t, info, j, trainer);
  }

  lemma UploadEarlyResponses(s: State, t: Table, info: DataInfo, j: nat, trainer: Trainer)
    requires WellFormed(t) && j < |t.columns|
    ensures var o := UploadAnalysis(s, t, info, j, trainer); var rate := ChurnRate(t.columns[j].cells);
      var col := t.columns[j].name; var features := FeatureNames(t.columns, col);
      && !o.response.NoChurnColumn?
      && (o.response == ChurnInvalid <==> rate == Err(NoLabels))
      && (o.response == AnalysisFailed(Labels) <==> rate == Err(UnmappedLabels))
      && (o.response == NoUploadFeatures <==> rate.Ok? && (t.rows == 0 || |features| == 0))
      && (o.response == AnalysisFailed(EmptyTrainSet) <==> rate.Ok? && t.rows == 1 && |features| > 0)
      && (o.response == TooSmall <==> rate.Ok? && 2 <= t.rows < 7 && |features| > 0)
  {
    SplitLargeEnoughIff(t.rows);
  }

  lemma UploadLearnerResponses(s: State, t: Table, info: DataInfo, j: nat, trainer: Trainer)
    requires WellFormed(t) && j < |t.columns|
    ensures var o := UploadAnalysis(s, t, info, j, trainer); var rate := ChurnRate(t.columns[j].cells);
      var col := t.columns[j].name; var features := FeatureNames(t.columns, col);
      var trained := rate.Ok? && 7 <= t.rows && |features| > 0;
      var fit := trainer(t, col, UploadGrid);
      && (o.response == AnalysisFailed(Training) <==> trained && fit.None?)
      && (o.response == AnalysisFailed(Scoring) <==> trained && fit.Some? && fit.value.accuracy.None?)
      && (o.response == AnalysisFailed(Permutation) <==>
            trained && fit.Some? && fit.value.accuracy.Some? && fit.value.importances.None?)
      && (o.response == AnalysisFailed(ImportanceMismatch) <==>
            trained && fit.Some? && fit.value.accuracy.Some? && fit.value.importances.Some?
            && |fit.value.importances.value| != |features|)
      && (o.response.Analysed? <==> trained && fit.Some? && Scored(fit.value, features))
  {
    var rate := ChurnRate(t.columns[j].cells);
    var col := t.columns[j].name;
    var features := FeatureNames(t.columns, col);
    var fit := trainer(t, col, UploadGrid);
    SplitLargeEnoughIff(t.rows);
    if rate.Ok? && 7 <= t.rows && |features| > 0 && fit.Some? {
      UploadFittedResponses(s.(churnRate := Some(rate.value)), features, fit.value, rate.value, info);
    }
  }

  /** The answers once the search has returned, by the step that raised. */
  lemma UploadFittedResponses(s1: State, features: seq<string>, fit: Fit, rate: real, info: DataInfo)
    ensures var o := UploadFitted(s1, features, fit, rate, info);
      && (o.response == AnalysisFailed(Scoring) <==> fit.accuracy.None?)
      && (o.response == AnalysisFailed(Permutation) <==> fit.accuracy.Some? && fit.importances.None?)
      && (o.response == AnalysisFailed(ImportanceMismatch) <==>
            fit.accuracy.Some? && fit.importances.Some? && |fit.importances.value| != |features|)
      && (o.response.Analysed? <==> Scored(fit, features))
      && o.response != AnalysisFailed(Training)
  {
  }

  /** What a learner that raises part of the way leaves behind: the model as soon as
      the search returned it, and its accuracy once that was computed. */
  lemma UploadStagedFailures(s: State, t: Table, info: DataInfo, j: nat, trainer: Trainer)
    requires WellFormed(t) && j < |t.columns|
    ensures var o := UploadAnalysis(s, t, info, j, trainer); var col := t.columns[j].name;
      var rate := ChurnRate(t.columns[j].cells); var fit := trainer(t, col, UploadGrid);
      && (o.response == AnalysisFailed(Training) ==> rate.Ok? && o.state == s.(churnRate := Some(rate.value)))
      && (o.response == AnalysisFailed(Scoring) ==>
            rate.Ok? && fit.Some? && o.state == s.(churnRate := Some(rate.value), model := Some(fit.value.model)))
      && (o.response == AnalysisFailed(Permutation) || o.response == AnalysisFailed(ImportanceMismatch) ==>
            && rate.Ok? && fit.Some?
            && o.state == s.(churnRate := Some(rate.value), model := Some(fit.value.model), accuracy := fit.value.accuracy))
  {
  }

  /** A full analysis sets the model, its accuracy, the ranking (a non-increasing
      permutation of the feature scores) and the churn rate; its insights list the
      five best features and the revenue at risk, with the message exactly when the
      revenue is 0. */
  lemma UploadAnalysedResult(s: State, t: Table, info: DataInfo, j: nat, trainer: Trainer)
    requires WellFormed(t) && j < |t.columns|
    requires UploadAnalysis(s, t, info, j, trainer).response.Analysed?
    ensures var o := UploadAnalysis(s, t, info, j, trainer); var col := t.columns[j].name;
      && ChurnRate(t.columns[j].cells).Ok? && trainer(t, col, UploadGrid).Some?
      && var rate := ChurnRate(t.columns[j].cells).value; var fit := trainer(t, col, UploadGrid).value;
         && Scored(fit, FeatureNames(t.columns, col))
         && o.state == s.(model := Some(fit.model), accuracy := fit.accuracy, churnRate := Some(rate),
                          importance := o.state.importance)
         && o.state.importance.Some? && SortedDesc(o.state.importance.value)
         && multiset(o.state.importance.value) == multiset(Zip(FeatureNames(t.columns, col), fit.importances.value))
         && o.response.info == info
         && o.response.insights.top == Top(o.state.importance.value, TopCount)
         && o.response.insights.churnRate == rate && o.response.insights.accuracy == fit.accuracy.value
         && o.response.insights.monthlyLoss == RevenueLoss(s.revenue, rate).monthly
         && o.response.insights.yearlyLoss == 12.0 * o.response.insights.monthlyLoss
         && (o.response.revenueMessage.Some? <==> s.revenue == 0.0)
  {
    var rate := ChurnRate(t.columns[j].cells).value;
    if s.revenue > 0.0 {
      LossIsChurnedShare(s.revenue, rate);
    }
  }

  /** A full analysis of an upload replaces every part of the state: the cleaned
      frame, the trained model and its accuracy, the ranking, the churn rate and
      column and the clamped revenue. It happens exactly when the file is accepted,
      the labels can be averaged, there are features and at least seven rows, and
      the learner succeeds with one score per feature. */
  lemma UploadAnalysed(s: State, name: string, revenueField: RevenueInput, raw: Table, trainer: Trainer, j: nat)
    requires WellFormed(raw) && FileAccepted(Part(name)) && Clean(raw).Ok?
    requires ChurnColumnIndex(Clean(raw).value.table.columns) == Some(j)
    ensures var t := Clean(raw).value.table; var col := t.columns[j].name;
      var o := UploadStep(s, Part(name), revenueField, Some(raw), trainer);
      var features := FeatureNames(t.columns, col);
      && (o.response.Analysed? <==>
            ChurnRate(t.columns[j].cells).Ok? && 7 <= t.rows && |features| > 0 && trainer(t, col, UploadGrid).Some?
            && Scored(trainer(t, col, UploadGrid).value, features))
      && (o.response.Analysed? ==>
            var fit := trainer(t, col, UploadGrid).value;
            && o.state == State(Some(t), Some(fit.model), o.state.importance, fit.accuracy,
                                Some(ChurnRate(t.columns[j].cells).value), Some(col), ClampRevenue(revenueField))
            && o.state.importance.Some? && SortedDesc(o.state.importance.value)
            && multiset(o.state.importance.value) == multiset(Zip(features, fit.importances.value))
            && o.response.info == InfoOf(t, Clean(raw).value.quality))
  {
    var c := Clean(raw).value;
    var st := Stored(s, revenueField, c.table, c.table.columns[j].name);
    var info := InfoOf(c.table, c.quality);
    UploadReachesAnalysis(s, name, revenueField, raw, trainer, j);
    UploadAnalysisResponses(st, c.table, info, j, trainer);
    if UploadAnalysis(st, c.table, info, j, trainer).response.Analysed? {
      UploadAnalysedResult(st, c.table, info, j, trainer);
    }
  }

  /** An upload keeps the stored frame cleaned and the stored ranking ordered. */
  lemma UploadKeepsValid(s: State, file: FileField, revenueField: RevenueInput, csv: Option<Table>, trainer: Trainer)
    requires csv.Some? ==> WellFormed(csv.value)
    requires Valid(s)
    ensures Valid(UploadStep(s, file, revenueField, csv, trainer).state)
  {
    if FileAccepted(file) {
      UploadFrameKeeps(s.(revenue := ClampRevenue(revenueField)), csv, trainer);
      UploadFrameAnswers(s.(revenue := ClampRevenue(revenueField)), csv, trainer);
    }
  }

  // ---------------------------------------------------------------------------
  // filter_by_date

  /** The answers given before the stored frame is replaced. */
  predicate EarlyFilterAnswer(r: FilterResponse) {
    || r.MissingMonthOrYear? || (r.FilterFailed? && r.why.NoData?) || r.NoSignupDate?
    || r.InvalidDates? || r.NoMatchingRows?
  }

  /** The requested period; meaningful once month and year are given. */
  function Period(month: Option<int>, year: Option<int>): YearMonth
    requires month.Some? && year.Some?
  {
    YearMonth(year.value, month.value)
  }

  /** An early answer leaves the state as it was. */
  lemma FilterEarlyKeepsState(s: State, month: Option<int>, year: Option<int>, signupDate: Cell -> Option<Moment>,
                              revenueForm: Option<string>, trainer: Trainer)
    requires Valid(s)
    ensures var o := FilterStep(s, month, year, signupDate, revenueForm, trainer);
      EarlyFilterAnswer(o.response) ==> o.state == s
  {
    if month.Some? && year.Some? && month.value != 0 && year.value != 0 && s.data.Some? {
      var t := s.data.value;
      match ColumnIndex(t.columns, SignupDate)
      case None =>
      case Some(j) =>
        FilterReachesPeriod(s, month, year, signupDate, revenueForm, trainer);
        FilterPeriodSelects(s, t, j, SignupDates(t, j, signupDate), Period(month, year), revenueForm, trainer);
    }
  }

  /** Past the checks of lines 457-463 the handler is the period selection on the
      stored frame's dates. */
  lemma FilterReachesPeriod(s: State, month: Option<int>, year: Option<int>, signupDate: Cell -> Option<Moment>,
                            revenueForm: Option<string>, trainer: Trainer)
    requires Valid(s) && month.Some? && year.Some? && month.value != 0 && year.value != 0 && s.data.Some?
    requires ColumnIndex(s.data.value.columns, SignupDate).Some?
    ensures var t := s.data.value; var j := ColumnIndex(t.columns, SignupDate).value;
      FilterStep(s, month, year, signupDate, revenueForm, trainer) ==
        FilterPeriod(s, t, j, SignupDates(t, j, signupDate), Period(month, year), revenueForm, trainer)
  {
  }

  /** The frame the filter stores: the rows whose signup date falls in the requested
      month, their signup column holding the parsed dates. */
  function PeriodFrame(t: Table, j: nat, signupDate: Cell -> Option<Moment>, target: YearMonth): Table
    requires WellFormed(t) && j < |t.columns|
  {
    var dates := SignupDates(t, j, signupDate);
    SelectParsed(t, j, dates, MatchingRows(dates, target))
  }

  /** Past the early answers the stored frame is the selection of the rows whose
      signup date falls in the requested month, with the parsed dates in the signup
      column, whatever happens next. */
  lemma FilterSelectsPeriod(s: State, month: Option<int>, year: Option<int>, signupDate: Cell -> Option<Moment>,
                            revenueForm: Option<string>, trainer: Trainer)
    requires Valid(s)
    ensures var o := FilterStep(s, month, year, signupDate, revenueForm, trainer);
      !EarlyFilterAnswer(o.response) ==>
        && month.Some? && year.Some? && s.data.Some? && ColumnIndex(s.data.value.columns, SignupDate).Some?
        && var t := s.data.value; var j := ColumnIndex(t.columns, SignupDate).value;
           && 0 < |MatchingRows(SignupDates(t, j, signupDate), Period(month, year))|
           && o.state.data == Some(PeriodFrame(t, j, signupDate, Period(month, year)))
  {
    if month.Some? && year.Some? && month.value != 0 && year.value != 0 && s.data.Some? {
      var t := s.data.value;
      match ColumnIndex(t.columns, SignupDate)
      case None =>
      case Some(j) =>
        FilterReachesPeriod(s, month, year, signupDate, revenueForm, trainer);
        FilterPeriodSelects(s, t, j, SignupDates(t, j, signupDate), Period(month, year), revenueForm, trainer);
    }
  }

  /** The selected rows are exactly those whose signup date is in the requested
      month, in their original order, and the selection has one row for each: its
      signup cell is that row's parsed date and every other cell is the row's own. */
  lemma SelectionIsPeriod(t: Table, j: nat, signupDate: Cell -> Option<Moment>, target: YearMonth)
    requires WellFormed(t) && j < |t.columns|
    ensures var keep := MatchingRows(SignupDates(t, j, signupDate), target); var r := PeriodFrame(t, j, signupDate, target);
      && r.rows == |keep| && Names(r.columns) == Names(t.columns) && r.columns[j].kind == Datetime
      && (forall k :: 0 <= k < |keep| ==> keep[k] < t.rows && InPeriod(signupDate(t.columns[j].cells[keep[k]]), target))
      && (forall i :: 0 <= i < t.rows && InPeriod(signupDate(t.columns[j].cells[i]), target) ==> i in keep)
      && (forall k, l :: 0 <= k < l < |keep| ==> keep[k] < keep[l])
      && (forall k :: 0 <= k < |keep| ==> r.columns[j].cells[k] == Stamp(signupDate(t.columns[j].cells[keep[k]]).value))
      && (forall k, l :: 0 <= k < |keep| && 0 <= l < |t.columns| && l != j ==> Row(r, k)[l] == Row(t, keep[k])[l])
  {
    var dates := SignupDates(t, j, signupDate);
    var keep := MatchingRows(dates, target);
    var sub := SelectRows(t, keep);
    var r := PeriodFrame(t, j, signupDate, target);
    forall k, l | 0 <= k < |keep| && 0 <= l < |t.columns| && l != j ensures Row(r, k)[l] == Row(t, keep[k])[l] {
      assert Row(r, k)[l] == r.columns[l].cells[k] == sub.columns[l].cells[k] == Row(sub, k)[l];
    }
  }

  /** The parsed selection of a frame without missing cells has none either: every
      selected row has a date. */
  lemma SelectParsedNoMissing(t: Table, j: nat, dates: seq<Option<Moment>>, keep: seq<nat>)
    requires WellFormed(t) && NoMissing(t) && j < |t.columns| && |dates| == t.rows
    requires forall k :: 0 <= k < |keep| ==> keep[k] < t.rows && dates[keep[k]].Some?
    ensures NoMissing(SelectParsed(t, j, dates, keep))
  {
    var r := SelectParsed(t, j, dates, keep);
    SelectKeepsNoMissing(t, keep);
    forall l | 0 <= l < |r.columns| ensures NoMissingCells(r.columns[l].cells) {
      if l != j {
        assert r.columns[l] == SelectRows(t, keep).columns[l];
      }
    }
  }

  /** The same, once the dates are known: past the date checks the stored frame is
      the parsed selection, whatever happens next. */
  lemma FilterPeriodSelects(s: State, t: Table, j: nat, dates: seq<Option<Moment>>, target: YearMonth,
                            revenueForm: Option<string>, trainer: Trainer)
    requires WellFormed(t) && j < |t.columns| && |dates| == t.rows
    ensures var o := FilterPeriod(s, t, j, dates, target, revenueForm, trainer);
      var keep := MatchingRows(dates, target);
      && (EarlyFilterAnswer(o.response) ==> o.state == s)
      && (!EarlyFilterAnswer(o.response) ==> |keep| > 0 && o.state.data == Some(SelectParsed(t, j, dates, keep)))
      && o.state.churnColumn == s.churnColumn
      && (o.state.importance.Some? ==> o.state.importance == s.importance || SortedDesc(o.state.importance.value))
      && (o.response.Filtered? ==>
            var sub := SelectParsed(t, j, dates, keep);
            && Clean(sub).Ok?
            && o == FilterAnalysis(s.(data := Some(sub)), sub, InfoOf(sub, Clean(sub).value.quality), revenueForm, trainer))
  {
    var keep := MatchingRows(dates, target);
    if !(forall i :: 0 <= i < |dates| ==> dates[i].None?) && |keep| > 0 {
      var sub := SelectParsed(t, j, dates, keep);
      match Clean(sub)
      case Err(_) =>
      case Ok(c) => FilterAnalysisKeepsData(s.(data := Some(sub)), sub, InfoOf(sub, c.quality), revenueForm, trainer);
    }
  }

  /** The analysis part of the filter never touches the stored frame or the churn
      column, never gives an early answer, and replaces the revenue only on a full
      answer. */
  lemma FilterAnalysisKeepsData(s: State, t: Table, info: DataInfo, revenueForm: Option<string>, trainer: Trainer)
    requires WellFormed(t)
    ensures var o := FilterAnalysis(s, t, info, revenueForm, trainer);
      && o.state.data == s.data && o.state.churnColumn == s.churnColumn
      && !EarlyFilterAnswer(o.response)
      && (!o.response.Filtered? ==> o.state.revenue == s.revenue)
      && (o.state.importance.Some? ==> o.state.importance == s.importance || SortedDesc(o.state.importance.value))
  {
    if s.churnColumn.Some? && ColumnIndex(t.columns, s.churnColumn.value).Some? {
      var col := s.churnColumn.value;
      var k := ColumnIndex(t.columns, col).value;
      var rate := ChurnRate(t.columns[k].cells);
      var features := FeatureNames(t.columns, col);
      if rate.Ok? && |features| > 0 && TrainSize(t.rows) > 0 && trainer(t, col, FilterGrid).Some? {
        FilterFittedKeepsData(s.(churnRate := Some(rate.value)), features, trainer(t, col, FilterGrid).value,
                              rate.value, info, revenueForm);
      }
    }
  }

  lemma FilterFittedKeepsData(s1: State, features: seq<string>, fit: Fit, rate: real, info: DataInfo,
                              revenueForm: Option<string>)
    ensures var o := FilterFitted(s1, features, fit, rate, info, revenueForm);
      && o.state.data == s1.data && o.state.churnColumn == s1.churnColumn
      && !EarlyFilterAnswer(o.response)
      && (!o.response.Filtered? ==> o.state.revenue == s1.revenue)
      && (o.state.importance.Some? ==> o.state.importance == s1.importance || SortedDesc(o.state.importance.value))
  {
  }

  /** Once the search returned, a scoring that raises leaves the model stored, and
      one that raises in the permutation importances the accuracy too; a revenue
      field `float()` refuses comes after the ranking is stored. */
  lemma FilterStagedFailures(s1: State, features: seq<string>, fit: Fit, rate: real, info: DataInfo,
                             revenueForm: Option<string>)
    ensures var o := FilterFitted(s1, features, fit, rate, info, revenueForm);
      && (o.response == FilterFailed(Scoring) <==> fit.accuracy.None?)
      && (o.response == FilterFailed(Scoring) ==> o.state == s1.(model := Some(fit.model)))
      && (o.response == FilterFailed(Permutation) <==> fit.accuracy.Some? && fit.importances.None?)
      && (o.response == FilterFailed(Permutation) || o.response == FilterFailed(ImportanceMismatch) ==>
            o.state == s1.(model := Some(fit.model), accuracy := fit.accuracy))
      && (o.response == FilterFailed(BadRevenue) <==> Scored(fit, features) && FormRevenue(revenueForm).None?)
      && (o.response == FilterFailed(BadRevenue) ==>
            && o.state.importance == Some(RankByImportance(Zip(features, fit.importances.value)))
            && o.state == s1.(model := Some(fit.model), accuracy := fit.accuracy, importance := o.state.importance))
  {
  }

  /** A period holding fewer than ten customers still replaces the stored frame, and
      then fails in the cleaning step of the quality score. */
  lemma FilterFewRowsFails(s: State, month: Option<int>, year: Option<int>, signupDate: Cell -> Option<Moment>,
                           revenueForm: Option<string>, trainer: Trainer)
    requires Valid(s) && month.Some? && year.Some? && month.value != 0 && year.value != 0
    requires s.data.Some? && ColumnIndex(s.data.value.columns, SignupDate).Some?
    requires var t := s.data.value; var j := ColumnIndex(t.columns, SignupDate).value;
      0 < |MatchingRows(SignupDates(t, j, signupDate), Period(month, year))| < MinRows
    ensures var t := s.data.value; var j := ColumnIndex(t.columns, SignupDate).value;
      FilterStep(s, month, year, signupDate, revenueForm, trainer) ==
        Outcome(s.(data := Some(PeriodFrame(t, j, signupDate, Period(month, year)))), FilterFailed(Cleaning(TooFewRows)))
  {
    var t := s.data.value;
    var j := ColumnIndex(t.columns, SignupDate).value;
    var dates := SignupDates(t, j, signupDate);
    var keep := MatchingRows(dates, Period(month, year));
    assert dates[keep[0]].Some?;
    FilterReachesPeriod(s, month, year, signupDate, revenueForm, trainer);
    SizeRejections(SelectParsed(t, j, dates, keep));
  }

  /** A full answer of the analysis part stores the revenue of the form as read, the
      churn rate of the frame, the new model and its accuracy and a ranking that is a
      non-increasing permutation of the new scores; its insights list the five best
      features and the revenue at risk. */
  lemma FilteredResult(s: State, t: Table, info: DataInfo, revenueForm: Option<string>, trainer: Trainer)
    requires WellFormed(t)
    requires FilterAnalysis(s, t, info, revenueForm, trainer).response.Filtered?
    ensures var o := FilterAnalysis(s, t, info, revenueForm, trainer);
      && s.churnColumn.Some? && ColumnIndex(t.columns, s.churnColumn.value).Some?
      && var col := s.churnColumn.value; var rate := ChurnRate(t.columns[ColumnIndex(t.columns, col).value].cells);
         && rate.Ok? && trainer(t, col, FilterGrid).Some? && FormRevenue(revenueForm).Some?
         && var fit := trainer(t, col, FilterGrid).value;
            && Scored(fit, FeatureNames(t.columns, col))
            && o.state == s.(churnRate := Some(rate.value), model := Some(fit.model), accuracy := fit.accuracy,
                             importance := o.state.importance, revenue := FormRevenue(revenueForm).value)
            && o.state.importance.Some? && SortedDesc(o.state.importance.value)
            && multiset(o.state.importance.value) == multiset(Zip(FeatureNames(t.columns, col), fit.importances.value))
            && o.response.info == info
            && o.response.insights.top == Top(o.state.importance.value, TopCount)
            && o.response.insights.churnRate == rate.value && o.response.insights.accuracy == fit.accuracy.value
            && o.response.insights.monthlyLoss == RevenueLoss(o.state.revenue, rate.value).monthly
            && (o.response.revenueMessage.Some? <==> o.state.revenue == 0.0)
  {
  }

  /** A full filter answer is the analysis part run on the parsed selection. */
  lemma FilteredState(s: State, month: Option<int>, year: Option<int>, signupDate: Cell -> Option<Moment>,
                      revenueForm: Option<string>, trainer: Trainer)
    requires Valid(s)
    requires FilterStep(s, month, year, signupDate, revenueForm, trainer).response.Filtered?
    ensures month.Some? && year.Some? && s.data.Some? && ColumnIndex(s.data.value.columns, SignupDate).Some?
    ensures var t := s.data.value; var j := ColumnIndex(t.columns, SignupDate).value;
      var sub := PeriodFrame(t, j, signupDate, Period(month, year));
      && Clean(sub).Ok?
      && FilterStep(s, month, year, signupDate, revenueForm, trainer) ==
           FilterAnalysis(s.(data := Some(sub)), sub, InfoOf(sub, Clean(sub).value.quality), revenueForm, trainer)
  {
    FilterSelectsPeriod(s, month, year, signupDate, revenueForm, trainer);
    var t := s.data.value;
    var j := ColumnIndex(t.columns, SignupDate).value;
    var dates := SignupDates(t, j, signupDate);
    FilterReachesPeriod(s, month, year, signupDate, revenueForm, trainer);
    FilterPeriodSelects(s, t, j, dates, Period(month, year), revenueForm, trainer);
  }

  /** Some feature column of `t` (any column but the churn column `col`) holds
      timestamps. */
  predicate HasDateFeature(t: Table, col: string) {
    exists l :: 0 <= l < |t.columns| && t.columns[l].kind == Datetime && t.columns[l].name != col
  }

  /** A learner that, like `StandardScaler.fit_transform` at lines 379-380 and 494-495,
      cannot turn a datetime feature into floats and raises. */
  ghost predicate RefusesDates(trainer: Trainer) {
    forall t, col, grid :: HasDateFeature(t, col) ==> trainer(t, col, grid).None?
  }

  /** The refit of the filter sees the parsed signup column among its features: the
      frame handed to the learner is the stored one, whose signup column holds
      timestamps. So with a learner that refuses dates, as scikit-learn's scaler
      does, the filter never reaches a full answer. */
  lemma FilterRefitSeesDates(s: State, month: Option<int>, year: Option<int>, signupDate: Cell -> Option<Moment>,
                             revenueForm: Option<string>, trainer: Trainer)
    requires Valid(s)
    ensures var o := FilterStep(s, month, year, signupDate, revenueForm, trainer);
      !EarlyFilterAnswer(o.response) ==> o.state.data.Some? && s.churnColumn.Some? ==>
        HasDateFeature(o.state.data.value, s.churnColumn.value)
    ensures RefusesDates(trainer) ==> !FilterStep(s, month, year, signupDate, revenueForm, trainer).response.Filtered?
  {
    var o := FilterStep(s, month, year, signupDate, revenueForm, trainer);
    if s.churnColumn.Some? {
      assert |Lower(s.churnColumn.value)| == |ChurnName| != |SignupDate|;
    }
    if !EarlyFilterAnswer(o.response) {
      FilterSelectsPeriod(s, month, year, signupDate, revenueForm, trainer);
      var t := s.data.value;
      var j := ColumnIndex(t.columns, SignupDate).value;
      var sub := PeriodFrame(t, j, signupDate, Period(month, year));
      assert sub.columns[j].name == Names(sub.columns)[j] == Names(t.columns)[j] == SignupDate;
      if s.churnColumn.Some? {
        assert HasDateFeature(sub, s.churnColumn.value);
      }
      if o.response.Filtered? {
        FilteredState(s, month, year, signupDate, revenueForm, trainer);
        FilteredResult(s.(data := Some(sub)), sub, InfoOf(sub, Clean(sub).value.quality), revenueForm, trainer);
        assert HasDateFeature(sub, s.churnColumn.value);
      }
    }
  }

  /** Unlike the other two handlers, the filter keeps a negative revenue figure as it
      reads it. */
  lemma FilterKeepsNegativeRevenue(n: nat)
    requires n > 0
    ensures FormRevenue(Some("-" + FormatNat(n))) == Some(-(n as real))
    ensures ClampRevenue(Words("-" + FormatNat(n))) == 0.0
  {
    FormatParsesNegated(n, Python);
  }

  /** The filter keeps the stored frame cleaned and the stored ranking ordered. */
  lemma FilterKeepsValid(s: State, month: Option<int>, year: Option<int>, signupDate: Cell -> Option<Moment>,
                         revenueForm: Option<string>, trainer: Trainer)
    requires Valid(s)
    ensures Valid(FilterStep(s, month, year, signupDate, revenueForm, trainer).state)
  {
    if month.Some? && year.Some? && month.value != 0 && year.value != 0 && s.data.Some? {
      var t := s.data.value;
      match ColumnIndex(t.columns, SignupDate)
      case None =>
      case Some(j) =>
        var dates := SignupDates(t, j, signupDate);
        var keep := MatchingRows(dates, Period(month, year));
        SelectParsedNoMissing(t, j, dates, keep);
        FilterReachesPeriod(s, month, year, signupDate, revenueForm, trainer);
        FilterPeriodSelects(s, t, j, dates, Period(month, year), revenueForm, trainer);
    }
  }

  // ---------------------------------------------------------------------------
  // predict_revenue

  /** The forecast stores the clamped revenue and nothing else; it fails only for a
      positive revenue before any churn rate is known, and otherwise forecasts from
      the stored rate. */
  lemma PredictSpec(s: State, revenueField: RevenueInput)
    ensures var o := PredictStep(s, revenueField); var r := ClampRevenue(revenueField);
      && o.state == s.(revenue := r)
      && (o.response.PredictionFailed? <==> r != 0.0 && s.churnRate.None?)
      && (o.response.Forecasted? ==>
            o.response.forecast == ForecastRevenue(r, if s.churnRate.Some? then s.churnRate.value else 0.0))
      && (Valid(s) ==> Valid(o.state))
  {
  }

  /** After a full analysis, a forecast for a positive revenue uses the churn rate the
      analysis reported: it loses that share monthly and twelve times it in a year. */
  lemma PredictAfterUpload(s: State, name: string, revenueField: RevenueInput, raw: Table, trainer: Trainer, j: nat, x: real)
    requires WellFormed(raw) && FileAccepted(Part(name)) && Clean(raw).Ok?
    requires ChurnColumnIndex(Clean(raw).value.table.columns) == Some(j)
    requires UploadStep(s, Part(name), revenueField, Some(raw), trainer).response.Analysed?
    requires x > 0.0
    ensures var o := UploadStep(s, Part(name), revenueField, Some(raw), trainer); var rate := o.response.insights.churnRate;
      var p := PredictStep(o.state, Number(x));
      && p.response == Forecasted(ForecastRevenue(x, rate))
      && p.response.forecast.monthly == x * rate
      && p.response.forecast.future == x - 12.0 * (x * rate)
  {
    var c := Clean(raw).value;
    var st := Stored(s, revenueField, c.table, c.table.columns[j].name);
    UploadReachesAnalysis(s, name, revenueField, raw, trainer, j);
    var o := UploadAnalysis(st, c.table, InfoOf(c.table, c.quality), j, trainer);
    UploadAnalysedResult(st, c.table, InfoOf(c.table, c.quality), j, trainer);
    assert o.state.churnRate == Some(o.response.insights.churnRate);
    PredictWithRate(o.state, x, o.response.insights.churnRate);
  }

  lemma PredictWithRate(s: State, x: real, rate: real)
    requires s.churnRate == Some(rate) && x > 0.0
    ensures var p := PredictStep(s, Number(x));
      && p.response == Forecasted(ForecastRevenue(x, rate))
      && p.response.forecast.monthly == x * rate
      && p.response.forecast.future == x - 12.0 * (x * rate)
  {
  }
}
