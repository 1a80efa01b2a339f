/** The process-wide state of the dashboard (app.py:33-39) and what each handler
    does to it: `upload_file` (app.py:305-444), `filter_by_date` (app.py:446-544) and
    `predict_revenue` (app.py:546-584), each as a function from the state before to
    the state after and the response. The `Session` class runs these steps on its
    fields and is proved to follow them. */
module Pipeline {
  import opened Wrappers
  import opened Strings
  import opened Frame
  import opened Cleaning
  import opened Metrics
  import opened Ranking

  // ---------------------------------------------------------------------------
  // The learner, seen from outside

  /** One point of a `GridSearchCV` parameter grid. */
  datatype GridPoint = GridPoint(estimators: nat, maxDepth: Option<nat>, minSamplesSplit: nat)

  /** The best estimator the search returns, known by its parameters. */
  datatype Classifier = Classifier(params: GridPoint)

  /** What training yields, step by step: the best estimator of the search, then its
      test accuracy (`None` when scoring raised), then the permutation importances
      (`None` when they raised; not computed when the accuracy was not). */
  datatype Fit = Fit(model: Classifier, accuracy: Option<real>, importances: Option<seq<real>>)

  /** Encoding, scaling, splitting and the grid search, then the scoring, given the
      frame, the churn column and the grid; `None` when a step before the search
      returned raised. */
  type Trainer = (Table, string, seq<GridPoint>) -> Option<Fit>

  /** Scoring got through, with one importance per feature. */
  predicate Scored(fit: Fit, features: seq<string>) {
    fit.accuracy.Some? && fit.importances.Some? && |fit.importances.value| == |features|
  }

  /** The upload's grid (app.py:388-392): 2 x 3 x 2 points. */
  const UploadGrid: seq<GridPoint> := [
    GridPoint(100, Some(10), 2), GridPoint(100, Some(10), 5),
    GridPoint(100, Some(20), 2), GridPoint(100, Some(20), 5),
    GridPoint(100, None, 2), GridPoint(100, None, 5),
    GridPoint(200, Some(10), 2), GridPoint(200, Some(10), 5),
    GridPoint(200, Some(20), 2), GridPoint(200, Some(20), 5),
    GridPoint(200, None, 2), GridPoint(200, None, 5)]

  /** The filter's grid (app.py:499): `min_samples_split` keeps its default of 2. */
  const FilterGrid: seq<GridPoint> := [
    GridPoint(100, Some(10), 2), GridPoint(100, Some(20), 2), GridPoint(100, None, 2),
    GridPoint(200, Some(10), 2), GridPoint(200, Some(20), 2), GridPoint(200, None, 2)]

  predicate InUploadGrid(g: GridPoint) {
    && (g.estimators == 100 || g.estimators == 200)
    && (g.maxDepth == Some(10) || g.maxDepth == Some(20) || g.maxDepth == None)
    && (g.minSamplesSplit == 2 || g.minSamplesSplit == 5)
  }

  /** The upload's grid is every combination of the listed values, each once; the
      filter's grid is the part of it with the default split size. */
  lemma GridsAreProducts()
    ensures |UploadGrid| == 12 && forall i, j :: 0 <= i < j < |UploadGrid| ==> UploadGrid[i] != UploadGrid[j]
    ensures forall g :: g in UploadGrid <==> InUploadGrid(g)
    ensures forall g :: g in FilterGrid <==> InUploadGrid(g) && g.minSamplesSplit == 2
  {
  }

  // ---------------------------------------------------------------------------
  // State and responses

  /** `global_data`, `global_model`, `feature_importance`, `model_accuracy`,
      `churn_rate`, `is_churn` and `current_revenue`. */
  datatype State = State(
    data: Option<Table>,
    model: Option<Classifier>,
    importance: Option<seq<Ranked>>,
    accuracy: Option<real>,
    churnRate: Option<real>,
    churnColumn: Option<string>,
    revenue: real)

  const Initial: State := State(None, None, None, None, None, None, 0.0)

  /** The stored frame is a cleaned one, the stored ranking is ordered, and the
      stored churn column is called "churn" in some case. */
  predicate Valid(s: State) {
    && (s.data.Some? ==> WellFormed(s.data.value) && NoMissing(s.data.value))
    && (s.importance.Some? ==> SortedDesc(s.importance.value))
    && (s.churnColumn.Some? ==> Lower(s.churnColumn.value) == ChurnName)
  }

  /** `data_info`: the frame's size, its missing cells, its column names with "All"
      appended, and the quality score. */
  datatype DataInfo = DataInfo(rows: nat, columns: nat, missing: nat, names: seq<string>, quality: Quality)

  function InfoOf(t: Table, q: Quality): (info: DataInfo)
    ensures info.names == Names(t.columns) + ["All"]
  {
    DataInfo(t.rows, |t.columns|, MissingCount(t.columns), Names(t.columns) + ["All"], q)
  }

  datatype Insights = Insights(churnRate: real, accuracy: real, monthlyLoss: real, yearlyLoss: real, top: seq<Ranked>)

  /** What raised inside a handler's `try`. */
  datatype Failure =
    | Unreadable
    | Cleaning(error: CleanError)
    | Labels
    | EmptyTrainSet
    | Training
    | Scoring
    | Permutation
    | ImportanceMismatch
    | NoData
    | ChurnColumnMissing
    | BadRevenue

  /** `request.files`: no `file` part, or a file with its name. */
  datatype FileField = NoPart | Part(filename: string)

  datatype UploadResponse =
    | NoFilePart
    | NoSelectedFile
    | InvalidFileFormat
    | AnalysisFailed(why: Failure)
    | NoChurnColumn(info: DataInfo)
    | ChurnInvalid
    | NoUploadFeatures
    | TooSmall
    | Analysed(info: DataInfo, insights: Insights, revenueMessage: Option<string>)

  datatype YearMonth = YearMonth(year: int, month: int)

  /** A parsed signup date (NaT is `None`) falls in the requested month. */
  predicate InPeriod(d: Option<Moment>, target: YearMonth) {
    d.Some? && d.value.year == target.year && d.value.month == target.month
  }

  datatype FilterResponse =
    | MissingMonthOrYear
    | FilterFailed(why: Failure)
    | NoSignupDate
    | InvalidDates
    | NoMatchingRows
    | NoFilterFeatures
    | Filtered(info: DataInfo, insights: Insights, revenueMessage: Option<string>)

  datatype PredictResponse = Forecasted(forecast: Forecast) | PredictionFailed

  datatype Outcome<R> = Outcome(state: State, response: R)

  const ChurnName := "churn"
  const SignupDate := "signupdate"

  // ---------------------------------------------------------------------------
  // Column lookups

  /** `[col for col in df.columns if col.lower() == 'churn'][0]`. */
  function ChurnColumnIndex(cols: seq<Column>): (r: Option<nat>)
    ensures r.Some? ==> r.value < |cols| && Lower(cols[r.value].name) == ChurnName
    ensures r.Some? ==> forall j :: 0 <= j < r.value ==> Lower(cols[j].name) != ChurnName
    ensures r.None? <==> forall j :: 0 <= j < |cols| ==> Lower(cols[j].name) != ChurnName
  {
    if |cols| == 0 then None
    else if Lower(cols[0].name) == ChurnName then Some(0)
    else match ChurnColumnIndex(cols[1..])
      case Some(k) => Some(k + 1)
      case None => None
  }

  /** Which columns `df.drop(is_churn, axis=1)` keeps: every one not named `target`. */
  function FeatureMask(cols: seq<Column>, target: string): (m: seq<bool>)
    ensures |m| == |cols|
  {
    seq(|cols|, j requires 0 <= j < |cols| => cols[j].name != target)
  }

  /** The columns of `X = df.drop(is_churn, axis=1)`: every name but the target's, in
      order, as `FeatureNamesInOrder` states: entry k is the name at the k-th kept
      position, which is what pairs it with the k-th importance. */
  function FeatureNames(cols: seq<Column>, target: string): (r: seq<string>)
    ensures |r| <= |cols|
    ensures forall k :: 0 <= k < |r| ==> r[k] != target && r[k] in Names(cols)
    ensures forall j :: 0 <= j < |cols| && cols[j].name != target ==> cols[j].name in r
  {
    if |cols| == 0 then []
    else
      var rest := FeatureNames(cols[1..], target);
      assert forall j :: 1 <= j < |cols| ==> cols[j] == cols[1..][j - 1];
      assert forall k :: 0 <= k < |rest| ==> rest[k] in Names(cols) by {
        forall k | 0 <= k < |rest| ensures rest[k] in Names(cols) {
          var j :| 0 <= j < |cols[1..]| && Names(cols[1..])[j] == rest[k];
          assert Names(cols)[j + 1] == rest[k];
        }
      }
      if cols[0].name == target then rest else [cols[0].name] + rest
  }

  /** The features keep the column order: entry k is the name at the k-th position
      not named `target`, so no name is moved or repeated. */
  lemma FeatureNamesInOrder(cols: seq<Column>, target: string)
    ensures var keep := Positions(FeatureMask(cols, target));
      var r := FeatureNames(cols, target);
      |r| == |keep| && forall k :: 0 <= k < |keep| ==> r[k] == cols[keep[k]].name
  {
    FeatureNamesArePick(cols, target);
    PickInOrder(Names(cols), FeatureMask(cols, target));
  }

  lemma {:induction false} FeatureNamesArePick(cols: seq<Column>, target: string)
    ensures FeatureNames(cols, target) == Pick(Names(cols), FeatureMask(cols, target))
  {
    if |cols| > 0 {
      FeatureNamesArePick(cols[1..], target);
      assert Names(cols)[1..] == Names(cols[1..]);
      assert FeatureMask(cols, target)[1..] == FeatureMask(cols[1..], target);
    }
  }

  /** The boolean mask of line 469: the positions whose date has the requested year
      and month, in order. */
  function MatchingRows(dates: seq<Option<Moment>>, target: YearMonth): (keep: seq<nat>)
    ensures forall k :: 0 <= k < |keep| ==> keep[k] < |dates| && InPeriod(dates[keep[k]], target)
    ensures forall k, l :: 0 <= k < l < |keep| ==> keep[k] < keep[l]
    ensures forall i :: 0 <= i < |dates| && InPeriod(dates[i], target) ==> i in keep
  {
    if |dates| == 0 then []
    else
      var front := dates[..|dates| - 1];
      var rest := MatchingRows(front, target);
      assert forall i :: 0 <= i < |front| ==> front[i] == dates[i];
      rest + (if InPeriod(dates[|dates| - 1], target) then [|dates| - 1] else [])
  }

  /** Lines 465-469 together: the rows of the mask, with the signup column `j` holding
      the parsed dates that line 465 wrote back over the strings. */
  function SelectParsed(t: Table, j: nat, dates: seq<Option<Moment>>, keep: seq<nat>): (r: Table)
    requires WellFormed(t) && j < |t.columns| && |dates| == t.rows
    requires forall k :: 0 <= k < |keep| ==> keep[k] < t.rows && dates[keep[k]].Some?
    ensures WellFormed(r) && r.rows == |keep| && |r.columns| == |t.columns|
    ensures Names(r.columns) == Names(t.columns)
    ensures r.columns[j].kind == Datetime
    ensures forall k :: 0 <= k < |keep| ==> r.columns[j].cells[k] == Stamp(dates[keep[k]].value)
    ensures forall l :: 0 <= l < |t.columns| && l != j ==> r.columns[l] == SelectRows(t, keep).columns[l]
  {
    var sub := SelectRows(t, keep);
    var parsed := Column(t.columns[j].name, Datetime,
                         seq(|keep|, k requires 0 <= k < |keep| => Stamp(dates[keep[k]].value)));
    var r := Table(sub.columns[j := parsed], sub.rows);
    assert WellFormed(r) by {
      forall l | 0 <= l < |r.columns| ensures ColumnFits(r.columns[l], r.rows) {
        if l != j {
          assert r.columns[l] == sub.columns[l];
        }
      }
    }
    assert Names(r.columns) == Names(t.columns) by {
      forall l | 0 <= l < |t.columns| ensures Names(r.columns)[l] == Names(t.columns)[l] {
        assert Names(sub.columns)[l] == Names(t.columns)[l];
      }
    }
    r
  }

  // ---------------------------------------------------------------------------
  // upload_file

  /** `monthly_loss`, `yearly_loss` and the revenue message of lines 413-426. */
  function InsightsOf(rate: real, accuracy: real, revenue: real, ranking: seq<Ranked>): Insights {
    var loss := RevenueLoss(revenue, rate);
    Insights(rate, accuracy, loss.monthly, loss.yearly, Top(ranking, TopCount))
  }

  function MessageOf(revenue: real): (m: Option<string>)
    ensures m.Some? <==> revenue == 0.0
  {
    var loss := RevenueLoss(revenue, 0.0);
    if loss.message == "" then None else Some(loss.message)
  }

  /** Lines 359-441, once the cleaned frame `t` is stored and its churn column `j`
      found. */
  function UploadAnalysis(s: State, t: Table, info: DataInfo, j: nat, trainer: Trainer): Outcome<UploadResponse>
    requires WellFormed(t) && j < |t.columns|
  {
    var col := t.columns[j].name;
    match ChurnRate(t.columns[j].cells)
    case Err(NoLabels) => Outcome(s, ChurnInvalid)
    case Err(UnmappedLabels) => Outcome(s, AnalysisFailed(Labels))
    case Ok(rate) =>
      var s1 := s.(churnRate := Some(rate));
      var features := FeatureNames(t.columns, col);
      if t.rows == 0 || |features| == 0 then Outcome(s1, NoUploadFeatures)
      else if TrainSize(t.rows) == 0 then Outcome(s1, AnalysisFailed(EmptyTrainSet))
      else if TrainSize(t.rows) < 5 || TestSize(t.rows) < 2 then Outcome(s1, TooSmall)
      else match trainer(t, col, UploadGrid)
        case None => Outcome(s1, AnalysisFailed(Training))
        case Some(fit) => UploadFitted(s1, features, fit, rate, info)
  }

  /** Lines 395-441, once the search has returned its best estimator. */
  function UploadFitted(s1: State, features: seq<string>, fit: Fit, rate: real, info: DataInfo): Outcome<UploadResponse> {
    var s2 := s1.(model := Some(fit.model));
    match fit.accuracy
    case None => Outcome(s2, AnalysisFailed(Scoring))
    case Some(accuracy) =>
      var s3 := s2.(accuracy := Some(accuracy));
      match fit.importances
      case None => Outcome(s3, AnalysisFailed(Permutation))
      case Some(scores) =>
        if |scores| != |features| then Outcome(s3, AnalysisFailed(ImportanceMismatch))
        else
          var ranking := RankByImportance(Zip(features, scores));
          var s4 := s3.(importance := Some(ranking));
          Outcome(s4, Analysed(info, InsightsOf(rate, accuracy, s4.revenue, ranking), MessageOf(s4.revenue)))
  }

  /** The file passes the three checks of lines 313-321. */
  predicate FileAccepted(file: FileField) {
    file.Part? && file.filename != "" && EndsWith(file.filename, ".csv")
  }

  /** The whole handler; `csv` is the frame `pd.read_csv` produced, `None` when it raised. */
  function UploadStep(s: State, file: FileField, revenueField: RevenueInput, csv: Option<Table>, trainer: Trainer): Outcome<UploadResponse>
    requires csv.Some? ==> WellFormed(csv.value)
  {
    match file
    case NoPart => Outcome(s, NoFilePart)
    case Part(name) =>
      if name == "" then Outcome(s, NoSelectedFile)
      else if !EndsWith(name, ".csv") then Outcome(s, InvalidFileFormat)
      else UploadFrame(s.(revenue := ClampRevenue(revenueField)), csv, trainer)
  }

  /** Lines 331-441, once the revenue is stored. */
  function UploadFrame(s: State, csv: Option<Table>, trainer: Trainer): Outcome<UploadResponse>
    requires csv.Some? ==> WellFormed(csv.value)
  {
    match csv
    case None => Outcome(s, AnalysisFailed(Unreadable))
    case Some(raw) =>
      match Clean(raw)
      case Err(e) => Outcome(s, AnalysisFailed(Cleaning(e)))
      case Ok(c) =>
        var s1 := s.(data := Some(c.table));
        var info := InfoOf(c.table, c.quality);
        match ChurnColumnIndex(c.table.columns)
        case None => Outcome(s1, NoChurnColumn(info))
        case Some(j) => UploadAnalysis(s1.(churnColumn := Some(c.table.columns[j].name)), c.table, info, j, trainer)
  }

  // ---------------------------------------------------------------------------
  // filter_by_date

  /** Lines 482-541 on the selected and stored frame `t`. */
  function FilterAnalysis(s: State, t: Table, info: DataInfo, revenueForm: Option<string>, trainer: Trainer): Outcome<FilterResponse>
    requires WellFormed(t)
  {
    match s.churnColumn
    case None => Outcome(s, FilterFailed(ChurnColumnMissing))
    case Some(col) =>
      match ColumnIndex(t.columns, col)
      case None => Outcome(s, FilterFailed(ChurnColumnMissing))
      case Some(k) =>
        match ChurnRate(t.columns[k].cells)
        case Err(_) => Outcome(s, FilterFailed(Labels))
        case Ok(rate) =>
          var s1 := s.(churnRate := Some(rate));
          var features := FeatureNames(t.columns, col);
          if |features| == 0 then Outcome(s1, NoFilterFeatures)
          else if TrainSize(t.rows) == 0 then Outcome(s1, FilterFailed(EmptyTrainSet))
          else match trainer(t, col, FilterGrid)
            case None => Outcome(s1, FilterFailed(Training))
            case Some(fit) => FilterFitted(s1, features, fit, rate, info, revenueForm)
  }

  /** Lines 501-541, once the search has returned its best estimator. */
  function FilterFitted(s1: State, features: seq<string>, fit: Fit, rate: real, info: DataInfo,
                        revenueForm: Option<string>): Outcome<FilterResponse>
  {
    var s2 := s1.(model := Some(fit.model));
    match fit.accuracy
    case None => Outcome(s2, FilterFailed(Scoring))
    case Some(accuracy) =>
      var s3 := s2.(accuracy := Some(accuracy));
      match fit.importances
      case None => Outcome(s3, FilterFailed(Permutation))
      case Some(scores) =>
        if |scores| != |features| then Outcome(s3, FilterFailed(ImportanceMismatch))
        else
          var ranking := RankByImportance(Zip(features, scores));
          var s4 := s3.(importance := Some(ranking));
          match FormRevenue(revenueForm)
          case None => Outcome(s4, FilterFailed(BadRevenue))
          case Some(r) =>
            var s5 := s4.(revenue := r);
            Outcome(s5, Filtered(info, InsightsOf(rate, accuracy, r, ranking), MessageOf(r)))
  }

  /** Line 515: an absent or empty form field is 0; any other is `float(...)`, which
      may raise, and is kept even when negative. */
  function FormRevenue(field: Option<string>): Option<real> {
    match field
    case None => Some(0.0)
    case Some(w) => if w == "" then Some(0.0) else ParseFloat(w)
  }

  /** The whole handler; `signupDate` is what `pd.to_datetime(errors='coerce')` makes
      of a cell, `None` for NaT. A missing or zero month or year counts as not given. */
  function FilterStep(s: State, month: Option<int>, year: Option<int>, signupDate: Cell -> Option<Moment>,
                      revenueForm: Option<string>, trainer: Trainer): Outcome<FilterResponse>
    requires Valid(s)
  {
    if month.None? || year.None? || month.value == 0 || year.value == 0 then Outcome(s, MissingMonthOrYear)
    else match s.data
      case None => Outcome(s, FilterFailed(NoData))
      case Some(t) =>
        match ColumnIndex(t.columns, SignupDate)
        case None => Outcome(s, NoSignupDate)
        case Some(j) =>
          FilterPeriod(s, t, j, SignupDates(t, j, signupDate), YearMonth(year.value, month.value), revenueForm, trainer)
  }

  /** Lines 465-480: the signup column `j` is parsed, the rows dated in the requested
      month, with their parsed dates, replace the stored frame, and the quality score
      cleans that frame again. */
  function FilterPeriod(s: State, t: Table, j: nat, dates: seq<Option<Moment>>, target: YearMonth,
                        revenueForm: Option<string>, trainer: Trainer): Outcome<FilterResponse>
    requires WellFormed(t) && j < |t.columns| && |dates| == t.rows
  {
    if forall i :: 0 <= i < |dates| ==> dates[i].None? then Outcome(s, InvalidDates)
    else
      var keep := MatchingRows(dates, target);
      if |keep| == 0 then Outcome(s, NoMatchingRows)
      else FilterSelection(s, SelectParsed(t, j, dates, keep), revenueForm, trainer)
  }

  /** Lines 476-541: the selection `sub` is stored, scored and analysed. */
  function FilterSelection(s: State, sub: Table, revenueForm: Option<string>, trainer: Trainer): Outcome<FilterResponse>
    requires WellFormed(sub)
  {
    var s1 := s.(data := Some(sub));
    match Clean(sub)
    case Err(e) => Outcome(s1, FilterFailed(Cleaning(e)))
    case Ok(c) => FilterAnalysis(s1, sub, InfoOf(sub, c.quality), revenueForm, trainer)
  }

  function SignupDates(t: Table, j: nat, signupDate: Cell -> Option<Moment>): (dates: seq<Option<Moment>>)
    requires WellFormed(t) && j < |t.columns|
    ensures |dates| == t.rows
    ensures forall i :: 0 <= i < t.rows ==> dates[i] == signupDate(t.columns[j].cells[i])
  {
    assert ColumnFits(t.columns[j], t.rows);
    seq(t.rows, i requires 0 <= i < t.rows => signupDate(t.columns[j].cells[i]))
  }

  // ---------------------------------------------------------------------------
  // predict_revenue

  function PredictStep(s: State, revenueField: RevenueInput): Outcome<PredictResponse> {
    var r := ClampRevenue(revenueField);
    var s1 := s.(revenue := r);
    if r == 0.0 then Outcome(s1, Forecasted(ForecastRevenue(0.0, 0.0)))
    else match s.churnRate
      case None => Outcome(s1, PredictionFailed)
      case Some(rate) => Outcome(s1, Forecasted(ForecastRevenue(r, rate)))
  }
}
