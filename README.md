# Customer churn dashboard — a verified model of its analytics core

The dashboard is a small Flask service (`app.py`). A user uploads a CSV file of
customers. The service:

- cleans the frame;
- finds the churn column and computes the churn rate;
- hands the frame to a random-forest grid search;
- ranks the features by permutation importance;
- turns the top five into recommendations;
- reports the revenue at risk for a revenue figure the user typed in.

The service keeps its results in process-wide globals. Later requests read and change them:

- a filter that narrows the stored frame to one signup month and refits;
- a revenue forecast;
- a keyword chat bot.

This project models that core in Dafny and proves what the code promises about it.

**Modules.**

- `Wrappers` holds `Option` and `Result`.
- `Strings` covers ASCII lowercasing, substring search, a lexicographic order, whitespace trimming, and the plain decimals two readers accept:
  - `pd.to_numeric` strips C white space and reads plain digits;
  - Python's `float()` strips Unicode white space (such as the no-break space) and also allows an underscore between two digits (`1_000`).
- `Frame` models a pandas frame, stored column by column:
  - a column has a name, a kind and one cell per row;
  - the kinds are numeric (`int64`/`float64`), object, bool and `datetime64`;
  - a cell is a number, a string, a boolean, a timestamp or missing;
  - the cell operations are row access, missing-cell counts and row selection.
- `Stats` holds the median and the mode the cleaning fills with.
- `Cleaning` is `clean_data`, in two forms:
  - a function per step: the size checks, lowercasing (which raises on an object column that holds booleans and no string), the two fill loops, duplicate removal, charge coercion, the float casts, the id-column drop and the quality score;
  - the methods `LowerCategoricalColumns`, `FillColumnsOfKind` and `CleanData`, which run the step loops as the source does. Each is proved equal to its function.
- `CleaningProperties` holds the properties of a cleaned frame, its rejection conditions and its score.
- `Metrics` holds:
  - churn-label mapping and the churn rate;
  - revenue clamping, the revenue loss and the forecast;
  - the sizes `train_test_split(test_size=0.2)` produces.
- `Ranking` sorts the importance pairs in descending order and truncates them to the top five.
- `Advice` is `generate_recommendations`: a function, and a method with the source's loop.
- `Pipeline` models the globals as a `State` value and each handler as a step function from state to state plus response: `upload_file`, `filter_by_date` and `predict_revenue`.
- `PipelineProperties` holds what those handlers promise.
- `Chat` is the chat handler's keyword dispatch and its replies.
- `Dashboard` holds the class `Session`:
  - its fields are the globals;
  - its methods overwrite them in the order the handlers assign them;
  - every method is proved to end in the state, and give the response, that its step function computes.

**Learning is a parameter.** Label encoding, scaling, the split, the grid search, the accuracy
score and the permutation importances together form a `Trainer`. The `Trainer` is a function
argument. It returns `None` when a step before the search raises. Otherwise it returns the
best estimator, then the accuracy, then the importances, and each of the last two is `None`
when its step raises. The two parameter grids are kept as constants.
`pd.read_csv` is replaced by an optional frame. `pd.to_datetime` is replaced by a function from
cell to optional timestamp, with `None` for NaT. A timestamp has a year, a month and the rest of
the instant.

**Where the model follows the code closely.** Where the description of the system and the code differ, the code is followed.

- The missing-value ratio in the quality score is computed after the fill loops have run
  (app.py:101), not on the raw frame. A cleaned frame has no missing cell, so the score is
  `100 * (1 - removed / initial_rows / 2)`. `ScoreWithoutMissing` proves this.
- Duplicates are dropped before the charge coercion and before the id columns are dropped.
  A cleaned frame can therefore hold two identical rows. `DuplicatesSurviveIdDrop` exhibits
  one: two customers who differ only in their id.
- `filter_by_date` assigns `global_data` (app.py:473) before cleaning the selection and
  refitting. Later failures leave the selection stored, and the model reproduces that.
- Line 465 writes the parsed dates back into the frame, so the stored selection's
  `signupdate` column holds timestamps, not the uploaded strings. `SelectParsed` builds that
  frame, and `FilterSelectsPeriod` and `SelectionIsPeriod` state it.
- The refit hands that frame, with its timestamp column, to `StandardScaler.fit_transform`
  (app.py:494-495), which cannot turn timestamps into floats. The learner stays a parameter,
  so the model states this consequence conditionally. `FilterRefitSeesDates` proves that the
  learner always sees a datetime feature, and that with a learner refusing such features the
  filter never gives a full answer.
- Both handlers store the model (app.py:395, 501) and its accuracy (app.py:399, 504) before
  the permutation importances are computed. A later failure leaves them stored.
  `UploadStagedFailures` and `FilterStagedFailures` state what each failure leaves behind.
- The revenue of the upload and of the chat, and the filter's form figure, go through Python's
  `float()`. The charge columns go through `pd.to_numeric`, and the float casts through
  `float()` again. `PandasNumbersAreFloats` shows that the second reader accepts everything the
  first does, with the same value. `UnderscoresOnlyForFloat` and `NoBreakSpaceOnlyForFloat`
  give strings that only `float()` reads.
- The filter reads its revenue from a form field that a JSON request never sends. When the
  field is present, it is kept without clamping, so even a negative figure survives.
  `FilterKeepsNegativeRevenue` proves this.
- `chat` assigns `current_revenue` without a `global` statement, so the chat leaves the state
  untouched.

## Model

| member | source | states |
|---|---|---|
| Strings.Lower | app.py:53-56 | the result has the input's length and no upper-case ASCII letter; every upper-case letter becomes its lower-case partner, and every character already lower case is kept |
| Strings.LowerIdempotent | app.py:595 | lowering an already lowered string changes nothing |
| Strings.EndsWith | app.py:319 | the suffix test of `str.endswith`, used by the file gate `UploadFileGate` states |
| Strings.Contains | app.py:97 | Python's `in` on strings, characterised by `ContainsIff` |
| Strings.ContainsIff | app.py:97 | the recursive substring test holds exactly when the pattern occurs at some position |
| Strings.ContainsInContext | app.py:227 | a substring stays found whatever text is put before and after it |
| Strings.LexLessIrreflexive | app.py:68 | no string precedes itself in the order the mode uses to break ties |
| Strings.LexLessTransitive | app.py:68 | that order is transitive |
| Strings.LexLessTotal | app.py:68 | any two different strings are ordered one way or the other |
| Strings.Trim | app.py:325 | the trimmed string is no longer than the input, starts and ends with a character the reader does not strip, keeps a non-blank first or last character, and is the input when nothing is blank |
| Strings.UnsignedOfFormat | app.py:325 | the unsigned parser reads back the decimal digits of every natural number |
| Strings.FormatParses | app.py:325 | both readers read back the decimal digits of every natural number |
| Strings.FormatParsesNegated | app.py:325 | both read a leading minus sign as negation |
| Strings.BlankNeverParses | app.py:324-329 | for both readers, an empty or all-blank field is never a number |
| Strings.ParseDecimal | app.py:77 | the reader of `pd.to_numeric`; `FormatParses`, `BlankNeverParses` and `PandasNumbersAreFloats` state it |
| Strings.ParseFloat | app.py:325 | Python's `float()` on a plain decimal; `FormatParses`, `BlankNeverParses`, `UnderscoresOnlyForFloat` and `NoBreakSpaceOnlyForFloat` state it |
| Strings.PandasNumbersAreFloats | app.py:77-91 | every number `pd.to_numeric` reads, `float()` reads too, with the same value |
| Strings.UnderscoresOnlyForFloat | app.py:325 | `float()` reads "1_000" as 1000, and `pd.to_numeric` refuses it |
| Strings.NoBreakSpaceOnlyForFloat | app.py:325 | `float()` strips a leading no-break space, and `pd.to_numeric` refuses the string |
| Frame.Names | app.py:344 | the column names, in column order |
| Frame.ColumnIndex | app.py:76 | the position of the first column with the name, or none exactly when no column has it |
| Frame.Row | app.py:72 | row i holds cell i of every column |
| Frame.CountMissing | app.py:101 | the missing count is at most the cell count and is zero exactly when no cell is missing |
| Frame.MissingCountBound | app.py:101 | a frame's missing cells number at most rows × columns, and none exactly when every column is complete |
| Frame.SelectRows | app.py:469 | the selection is well formed, keeps names and kinds, has one row per index, and its row k is the source's row at index k |
| Frame.SelectKeepsNoMissing | app.py:469-473 | selecting rows of a complete frame gives a complete frame |
| Stats.InsertAsc | app.py:63 | inserting into a sorted sequence keeps it sorted and adds exactly that element |
| Stats.SortAsc | app.py:63 | the result is sorted ascending and a permutation of the input |
| Stats.Median | app.py:63 | the median lies between some value and some value of the column, and is one of them for an odd count |
| Stats.Mode | app.py:68 | the mode is a value of the column, no value occurs more often, and among equally frequent values it is the lexicographically least |
| Cleaning.LowerNames | app.py:53 | every column keeps its cells and kind and gets its lowercased name |
| Cleaning.LowerCell | app.py:56 | on a column `.str` accepts, `.str.lower()` lowercases strings and turns every non-string into a missing value |
| Cleaning.LowerValues | app.py:54-56 | object columns `.str` accepts have every cell lowered; other columns are unchanged |
| Cleaning.LowerAll | app.py:54-56 | every column is lowered that way |
| Cleaning.FirstBooleanObject | app.py:54-56 | the first object column that holds a boolean and no string, or none when there is no such column |
| Cleaning.LowerPass | app.py:54-56 | the lowering loop succeeds exactly when no object column holds only booleans and blanks; it then yields the lowered columns, and otherwise the `NotText` error of the first such column |
| Cleaning.FillWith | app.py:63 | the result has no missing cell, holds the fill value at every missing position, and leaves the other cells as they were |
| Cleaning.FillPass | app.py:59-68 | one fill loop over the columns of one kind; `FillPassSpec` and `FillColumnsOfKind` state it |
| Cleaning.FillColumn | app.py:59-68 | fails with the column's name exactly when every cell is missing; otherwise keeps name, kind and length, leaves no missing cell and keeps every present cell |
| Cleaning.FillPassSpec | app.py:59-68 | a fill loop over the columns of one kind fails exactly when one of them is entirely missing, reports the first such column, and otherwise fills each column independently |
| Cleaning.FirstOccurrences | app.py:72 | the kept positions are increasing, each is the first row of its content, and every first occurrence is kept |
| Cleaning.Dedup | app.py:71-72 | duplicate removal keeps a well-formed frame with the same columns and kinds, no more rows, and no new missing cell |
| Cleaning.ToNumericCell | app.py:77 | `pd.to_numeric(errors='coerce')` yields a number or a missing value, and missing stays missing |
| Cleaning.AsFloatCell | app.py:91 | `astype(float)` fails exactly on a string `float()` cannot read or on a timestamp; missing stays missing |
| Cleaning.Convert | app.py:76-94 | a conversion keeps the name and length, makes object columns numeric (and datetime ones under the cast), only replaces cells by numbers, and reports the error of its kind |
| Cleaning.CoerceColumn | app.py:77-80 | a coerced charge column is numeric and complete; it fails only with "no valid charges" |
| Cleaning.AsFloatColumn | app.py:90-94 | the cast keeps numbers and missing cells and fails exactly when some string is unreadable or some cell is a timestamp |
| Cleaning.ConvertNamed | app.py:76-94 | converting a named column keeps rows, names and completeness, and is the identity when the column is absent |
| Cleaning.IsIdColumn | app.py:97 | a column is an id column when its lowered name contains `id`; `DropIdColumns` and `CleanedNames` state it |
| Cleaning.DropIdColumns | app.py:97-98 | exactly the columns whose name has no `id` inside survive; `DropIdInOrder` states their order |
| Cleaning.DropIdInOrder | app.py:98 | entry k of the result is the column at the k-th position, in increasing order, whose name has no `id`: `drop` keeps the column order and repeats nothing |
| Cleaning.QualityScore | app.py:100-103 | the score lies in (0, 100] and is 100 exactly when nothing is missing and nothing was removed |
| Cleaning.QualityOf | app.py:100-103 | the score of a finished frame; `QualityScore`, `ScoreWithoutMissing` and `CleanedSize` state it |
| Cleaning.PrepareOk | app.py:47-68 | after the checks and fills the frame keeps its rows (at least ten), has lowercase distinct names with the same kinds, and no missing cell |
| Cleaning.Prepare | app.py:47-68 | the size checks, lowercasing and fill loops; `PrepareOk`, `SizeRejections`, `BooleanObjectRejects`, `NotTextExactly` and `EntirelyMissingRejects` state it |
| Cleaning.Coerce | app.py:75-94 | the coercions keep rows, names and completeness, and fail only with one of the four charge or cast errors |
| Cleaning.Finish | app.py:70-106 | the finished frame is well formed, no longer than its input, and complete when its input was |
| Cleaning.DropIdKeepsCells | app.py:97-98 | dropping columns keeps the frame well formed and complete |
| Cleaning.Clean | app.py:41-110 | a cleaned frame is well formed, has no missing cell and no more rows than the upload |
| Cleaning.LowerCategoricalColumns | app.py:54-56 | the loop stops with `NotText` at the first object column of booleans and blanks, and otherwise lowers exactly the object columns (it equals `LowerPass`) |
| Cleaning.FillColumnsOfKind | app.py:59-68 | the loop that fills the columns of one kind in place ends in the fill pass's result, including its first error |
| Cleaning.CleanData | app.py:41-110 | the step-by-step cleaning gives exactly the cleaned frame or error |
| CleaningProperties.SizeRejections | app.py:47-50 | the empty-dataset error is raised exactly for a frame without rows or columns, the too-small error exactly for 1-9 rows |
| CleaningProperties.LowerNamesKeepsBooleanObjects | app.py:53-56 | lowercasing the column names changes neither which columns `.str` refuses nor the first of them |
| CleaningProperties.BooleanObjectRejects | app.py:54-56 | an object column of booleans and blanks makes cleaning fail with `NotText`, naming the first such column, at or before it |
| CleaningProperties.NotTextExactly | app.py:47-68 | past the size and name checks, cleaning fails with `NotText` exactly when some object column holds booleans and no string |
| CleaningProperties.EntirelyMissingRejects | app.py:54-68 | a numeric or object column with no value at all makes cleaning fail; the error is the missing-values one unless an object column of booleans made the lowering loop raise first, in which case it is `NotText` |
| CleaningProperties.CoercionRejectsOnlyWhenNothingParses | app.py:77-79 | coercion rejects a column exactly when no cell is readable, not when one is |
| CleaningProperties.CastRejectsUnreadableString | app.py:90-94 | the float cast rejects a column exactly when some string in it is one `float()` cannot read, or some cell is a timestamp; such a string is also one `pd.to_numeric` cannot read |
| CleaningProperties.FilledTextColumn | app.py:54-56 | an object column after filling holds only lowered strings of its own raw cells |
| CleaningProperties.UnreadableTotalChargesRejects | app.py:76-79 | a `totalcharges` text column with no readable string makes cleaning fail with "TotalCharges contains only invalid values" |
| CleaningProperties.UnreadableChargesFinish | app.py:76-79 | on the prepared frame, such a column makes the finishing steps fail that way |
| CleaningProperties.ScoreWithoutMissing | app.py:100-103 | for a complete frame the score is undefined exactly without columns, and is otherwise `100 * (1 - removed / initial / 2)` |
| CleaningProperties.FinishedFrame | app.py:70-103 | the finished frame is complete, has the deduplicated row count, only lowercase non-id names from its input, and the score of those counts |
| CleaningProperties.CleanedSize | app.py:70-103 | a cleaned frame has as many rows as the deduplicated prepared frame, at least one, and the score of those counts |
| CleaningProperties.CleanedNames | app.py:97-98 | every surviving name is lower case, has no `id` inside and is the lowered name of an uploaded column |
| CleaningProperties.ScoreHundredIff | app.py:103 | the score formula reaches 100 exactly when no row was removed |
| CleaningProperties.PerfectScoreIffNoDuplicates | app.py:71-103 | a cleaned frame with columns scores 100 exactly when the prepared frame had no duplicate rows |
| CleaningProperties.DedupDistinct | app.py:72 | after duplicate removal no two rows are equal |
| CleaningProperties.DedupKeepsEveryRow | app.py:72 | every row of the input is still present after duplicate removal |
| CleaningProperties.DedupKeepsARow | app.py:72 | a non-empty frame keeps at least one row |
| CleaningProperties.DedupRemovesNothingIff | app.py:71-72 | nothing is removed exactly when the rows are distinct, and then the frame is unchanged |
| CleaningProperties.DuplicatesSurviveIdDrop | app.py:71-98 | a frame of distinct rows that differ only in `customerid` has two equal rows once the id column is dropped |
| Metrics.ChurnLabel | app.py:360 | a cell has no label exactly when it is missing, and an unmapped one exactly when it is a string other than yes/no or a timestamp |
| Metrics.LabelCount | app.py:363 | the divisor of `mean()` is at most the cell count, and 0 exactly when no cell has a value label (a number, a boolean, yes or no) |
| Metrics.LabelCountCounts | app.py:363 | the divisor is the number of cells whose label is a value, the cells `mean()` does not skip |
| Metrics.ChurnRate | app.py:360-363 | the rate is invalid exactly when every label is missing, and fails exactly when some present label is unmapped |
| Metrics.BinarySums | app.py:360-363 | for yes/no/True/False labels the sum is the churned count and every cell counts |
| Metrics.ChurnRateIsChurnedShare | app.py:360-363 | for such labels the rate is churned customers over all customers, in [0, 1] |
| Metrics.CleanedLabelsNeverAllMissing | app.py:361-362 | a complete non-empty column never triggers the invalid-values answer |
| Metrics.ReadFloat | app.py:324-325 | `float()` of a form or JSON value; `ClampKeepsOnlyReadableNonNegative` and `ClampOfDigits` state it |
| Metrics.ClampRevenue | app.py:323-329 | the clamped revenue is never negative |
| Metrics.ClampKeepsOnlyReadableNonNegative | app.py:323-329 | a readable non-negative figure is kept, anything else becomes 0 |
| Metrics.ClampIdempotent | app.py:554-560 | clamping an already clamped figure changes nothing |
| Metrics.ClampOfDigits | app.py:323-329 | a typed natural number is kept and its negation becomes 0 |
| Metrics.RevenueLoss | app.py:413-415 | the message is present exactly when revenue is 0; with no revenue there is no loss |
| Metrics.LossIsChurnedShare | app.py:413-414 | for positive revenue the monthly loss is revenue × rate, the yearly loss twelve times that, and at most the revenue for a rate in [0, 1] |
| Metrics.LossLinear | app.py:413 | the loss scales with the revenue and grows with the rate |
| Metrics.ForecastRevenue | app.py:562-573 | the forecast carries a message exactly when revenue is 0 |
| Metrics.ForecastSpec | app.py:562-573 | zero revenue gives all-zero figures with the message; otherwise the monthly loss is revenue × rate, the yearly loss 12 × that and the future revenue what remains; it is not negative exactly when the rate is at most 1/12 |
| Metrics.ForecastAgreesWithLoss | app.py:571-573 | the forecast's losses equal those of lines 413-414, and the future revenue plus the yearly loss is the revenue |
| Metrics.TrainSize | app.py:382 | the training and test parts together are all rows |
| Metrics.TestSizeIsCeiling | app.py:382 | the test part is the ceiling of a fifth of the rows |
| Metrics.SplitLargeEnoughIff | app.py:383-384 | the split is large enough exactly from seven rows, and the training part is non-empty exactly from two |
| Advice.FeedbackIsNoKeywordAdvice | app.py:236 | the feedback advice is none of the four keyword pieces of advice |
| Advice.AdviceFor | app.py:226-236 | the advice for one lowered feature name; `AdviceIffFirstMatch`, `KeywordInsideName` and `FeedbackIsNoKeywordAdvice` state it |
| Advice.AdviceIffFirstMatch | app.py:226-236 | each piece of advice is given exactly when its keyword is the first of contract, tenure, monthlycharges, totalcharges the name contains |
| Advice.KeywordInsideName | app.py:227 | a name containing `contract` anywhere gets the contract advice |
| Advice.RecommendationsShape | app.py:224-240 | there are min(5, n) + 2 recommendations: one per top feature from its lowered name, then the two fixed ones |
| Advice.Recommendations | app.py:220-241 | the recommendation list; `RecommendationsShape` and `GenerateRecommendations` state it |
| Advice.GenerateRecommendations | app.py:220-241 | the loop builds exactly that list |
| Ranking.Zip | app.py:404-407 | entry i pairs feature i with score i |
| Ranking.InsertDesc | app.py:408 | inserting into a descending list keeps it descending and adds exactly that pair |
| Ranking.RankByImportance | app.py:408 | the ranking is in descending order of score and a permutation of its input |
| Ranking.Top | app.py:422-425 | the top entries are the first min(k, n) of the ranking |
| Ranking.TopAreTheBest | app.py:408-425 | the first min(5, n) ranked pairs come from the input and score at least as high as every pair left out |
| Ranking.RankingIsAPermutation | app.py:404-409 | every (feature, score) pair appears in the ranking, and every ranked entry is one of them |
| Ranking.RankingScoresDetermined | app.py:408 | any descending permutation has the same score at every position as this one, so only the order of ties is left open |
| Ranking.SortedSameMultisetSameScores | app.py:408 | two descending arrangements of the same pairs agree on the score at every position |
| Pipeline.GridsAreProducts | app.py:388-392 | the upload grid is the 12 distinct combinations of the listed values; the filter grid of line 499 is its part with split size 2 |
| Pipeline.InfoOf | app.py:351-357 | the reported column names are the frame's followed by "All" |
| Pipeline.ChurnColumnIndex | app.py:336-349 | the first column whose lowered name is `churn`, or none exactly when there is no such column |
| Pipeline.FeatureNames | app.py:372 | the features are every column name but the target's, and only those; `FeatureNamesInOrder` states their order |
| Pipeline.FeatureNamesInOrder | app.py:372-407 | entry k is the name at the k-th position, in increasing order, not named as the target: the column order of `X.columns` that pairs each feature with its importance at 404-407 |
| Pipeline.MatchingRows | app.py:469 | the kept positions are increasing, each is dated in the requested month, and every such position is kept |
| Pipeline.MessageOf | app.py:415 | the revenue message is present exactly when revenue is 0 |
| Pipeline.SignupDates | app.py:465 | one parsed date per row, the parse of that row's `signupdate` cell |
| Pipeline.SelectParsed | app.py:465-469 | the kept rows, in order, with the signup column holding their parsed dates as `datetime64` cells and every other column the row selection's |
| Pipeline.UploadStep | app.py:305-444 | the whole upload handler; `UploadFileGate`, `UploadStoresCleanedFrame`, `UploadAnalysed` and `UploadKeepsValid` state it |
| Pipeline.UploadFrame | app.py:331-441 | reading, cleaning and storing the frame, then finding the churn column; `UploadFrameKeeps`, `UploadFrameAnswers`, `UploadReachesAnalysis` and `UploadWithoutChurnColumn` state it |
| Pipeline.UploadAnalysis | app.py:359-441 | the churn rate, the feature and split checks and the staged fit; `UploadAnalysisResponses`, `UploadStagedFailures`, `UploadAnalysedResult` and `UploadAnalysisKeepsData` state it |
| Pipeline.UploadFitted | app.py:395-441 | the staged scoring and the ranking once the search returned; `UploadFittedResponses` and `UploadStagedFailures` state it |
| Pipeline.FilterStep | app.py:446-544 | the whole filter handler; `FilterEarlyKeepsState`, `FilterSelectsPeriod`, `FilteredState`, `FilterRefitSeesDates` and `FilterKeepsValid` state it |
| Pipeline.FilterPeriod | app.py:465-541 | the date checks, the selection and the refit; `FilterPeriodSelects` and `SelectionIsPeriod` state it |
| Pipeline.FilterSelection | app.py:473-541 | storing the selection, its quality score and the refit; `FilterFewRowsFails` and `FilterPeriodSelects` state it |
| Pipeline.FilterAnalysis | app.py:482-541 | the churn rate, the feature check and the search on the selection; `FilterAnalysisKeepsData` and `FilteredResult` state it |
| Pipeline.FilterFitted | app.py:501-541 | the staged scoring, the ranking and the form revenue; `FilterFittedKeepsData` and `FilterStagedFailures` state it |
| Pipeline.FormRevenue | app.py:515 | an absent or empty field is 0, any other goes through `float()` unclamped; `FilterKeepsNegativeRevenue` and `FilterStagedFailures` state it |
| Pipeline.PredictStep | app.py:546-584 | the forecast handler; `PredictSpec`, `PredictAfterUpload` and `PredictWithRate` state it |
| PipelineProperties.UploadFileGate | app.py:312-329 | the three file answers come exactly from a rejected file and leave the state alone; an accepted file stores the clamped revenue |
| PipelineProperties.UploadFrameKeeps | app.py:331-333 | after the file checks the stored frame is the cleaned upload when it cleans, else the old one; the revenue is untouched |
| PipelineProperties.UploadFrameAnswers | app.py:331-441 | past the file checks no file answer is given, and a stored ranking is the old one or a descending one |
| PipelineProperties.UploadReachesAnalysis | app.py:331-357 | a cleaned upload with a churn column stores the frame, the revenue and the column, then analyses |
| PipelineProperties.UploadStoresCleanedFrame | app.py:312-333 | the upload stores the cleaned frame exactly when the file is accepted and cleans; otherwise the frame is kept |
| PipelineProperties.UploadAnalysisKeepsData | app.py:359-441 | the analysis changes neither the frame, the churn column nor the revenue |
| PipelineProperties.UploadOfSmallFileFails | app.py:49-50 | a CSV of 1-9 rows fails with the too-small error, storing only the revenue |
| PipelineProperties.UploadWithoutChurnColumn | app.py:336-348 | the no-churn-column answer comes exactly when no column is named churn, storing the frame and reporting its size and names |
| PipelineProperties.UploadAnalysisResponses | app.py:359-441 | each answer of the analysis comes exactly under its condition: invalid labels, unmapped labels, no features, an empty or too small split, a search, scoring or importance step that raises, a length mismatch, a full fit |
| PipelineProperties.UploadFittedResponses | app.py:395-408 | after the search, the scoring failure, the importance failure, the length mismatch and the full answer each come exactly under their condition |
| PipelineProperties.UploadStagedFailures | app.py:393-407 | a failing search stores only the rate; a failing scoring also the model; a failing importance step or a length mismatch also the accuracy |
| PipelineProperties.UploadAnalysedResult | app.py:359-441 | a full analysis is a scored fit; it stores the model, the accuracy, the rate and a descending permutation of the importance pairs, and reports its top five, the rate, the accuracy and the revenue loss |
| PipelineProperties.UploadAnalysed | app.py:305-441 | a whole upload succeeds exactly under those conditions, and then the state is the cleaned frame, fit, ranking, rate, churn column and clamped revenue |
| PipelineProperties.UploadKeepsValid | app.py:305-444 | an upload keeps the stored frame complete and the stored ranking descending |
| PipelineProperties.FilterEarlyKeepsState | app.py:453-471 | every answer given before line 473 leaves the state unchanged |
| PipelineProperties.FilterReachesPeriod | app.py:453-465 | with a month, a year, a frame and a `signupdate` column the handler selects on the parsed dates |
| PipelineProperties.FilterSelectsPeriod | app.py:457-473 | past the early answers, the stored frame is the non-empty selection of the requested month, with the parsed signup dates |
| PipelineProperties.SelectionIsPeriod | app.py:465-469 | the selection holds exactly the rows dated in the requested month, in their order; its signup cells are their parsed dates and its other cells their own |
| PipelineProperties.SelectParsedNoMissing | app.py:465-473 | the parsed selection of a complete frame is complete, since every kept row has a date |
| PipelineProperties.FilterPeriodSelects | app.py:465-541 | early answers keep the state; otherwise the parsed selection is stored, the churn column is kept, and a full answer is the analysis of the cleaned selection |
| PipelineProperties.FilterAnalysisKeepsData | app.py:482-541 | the refit keeps the stored frame and churn column, stores a descending ranking, and changes the revenue only on success |
| PipelineProperties.FilterFittedKeepsData | app.py:501-541 | after the search, the frame and churn column stay, the stored ranking is descending, and the revenue changes only on a full answer |
| PipelineProperties.FilterStagedFailures | app.py:501-515 | a failing scoring stores the model, a failing importance step or mismatch also the accuracy, and an unreadable form figure comes after the ranking is stored |
| PipelineProperties.FilterFewRowsFails | app.py:473-478 | a parsed selection of 1-9 rows is stored and then fails with the too-small error |
| PipelineProperties.FilteredResult | app.py:482-541 | a full refit is a scored fit; it stores the rate, the model, the accuracy, a descending permutation of the importance pairs and the form's revenue, and reports them |
| PipelineProperties.FilteredState | app.py:446-541 | a full filter answer is the analysis of the cleaned parsed selection of the requested month |
| PipelineProperties.FilterRefitSeesDates | app.py:465-495 | past the early answers the frame handed to the refit has a timestamp column besides the churn column; so a learner that refuses timestamps, as the scaler of line 495 does, makes the filter never succeed |
| PipelineProperties.FilterKeepsNegativeRevenue | app.py:515 | a negative form figure is kept by the filter, though the upload's clamp turns it into 0 |
| PipelineProperties.FilterKeepsValid | app.py:446-544 | a filter keeps the stored frame complete and the stored ranking descending |
| PipelineProperties.PredictSpec | app.py:546-584 | the forecast stores the clamped revenue, fails exactly for positive revenue before any churn rate is known, and otherwise forecasts from the stored rate |
| PipelineProperties.PredictAfterUpload | app.py:546-573 | after a successful upload, the forecast for a positive revenue uses the upload's churn rate |
| PipelineProperties.PredictWithRate | app.py:571-573 | with a stored rate, the monthly loss, yearly loss and future revenue are the closed forms |
| Chat.ClassifyIsFirstMention | app.py:607-636 | a query is unrecognised exactly when it holds no phrase; otherwise its intent is one it mentions and no earlier branch's phrase occurs in it |
| Chat.Classify | app.py:606-636 | the `if`/`elif` chain of keyword tests; `ClassifyIsFirstMention` and `ChurnRatePhraseWins` state it |
| Chat.ChurnRatePhraseWins | app.py:607-620 | "churn rate" anywhere wins, even inside "reduce churn rate" |
| Chat.QueryCaseIgnored | app.py:595 | a query and its lowercase form get the same reply |
| Chat.Answer | app.py:587-641 | the chat handler on the stored state; `QueryCaseIgnored`, `ChatErrorIff` and `ChatRevenueIsLoss` state it |
| Chat.AnswerIntent | app.py:606-636 | the branch of the classified intent; `ChatErrorIff`, `RevenueReplyIsLoss` and `ChatReasonsAreBest` state it |
| Chat.ChatErrorIff | app.py:606-641 | a reply is an error exactly when the selected branch needs a value no handler has stored |
| Chat.ChatRevenueIsLoss | app.py:609-615 | the revenue reply is the upload's revenue loss for the same figure |
| Chat.RevenueReplyIsLoss | app.py:609-615 | the revenue branch gives no loss for revenue 0 and the loss pair otherwise |
| Chat.ChatReasonsAreBest | app.py:616-619 | the reasons are the first three ranked features, each scoring at least as high as every one left out |
| Chat.SegmentsFailOnTextLabels | app.py:627-629 | a text-labelled churn column makes the segment question fail once a `contract` column exists |
| Chat.SegmentReply | app.py:627-634 | the segment branch; `SegmentsFailOnTextLabels` and `ChatErrorIff` state it |
| Dashboard.Session.constructor | app.py:33-39 | the session starts with nothing stored and revenue 0 |
| Dashboard.Session.Upload | app.py:305-444 | the handler's field updates end in the upload step's state and give its response |
| Dashboard.Session.LoadAndAnalyse | app.py:331-441 | reading, cleaning and storing end in the upload step's state from line 331 on |
| Dashboard.Session.Analyse | app.py:359-441 | storing the rate, then the model, the accuracy and the ranking as each step succeeds, ends in the analysis step's state |
| Dashboard.Session.FilterByDate | app.py:446-544 | the handler's field updates end in the filter step's state and give its response |
| Dashboard.Session.SelectPeriodAndRefit | app.py:465-541 | selecting, storing and refitting end in the period step's state |
| Dashboard.Session.SelectPeriod | app.py:469 | the loop keeps exactly the positions dated in the requested month |
| Dashboard.Session.StoreSelection | app.py:473-541 | storing the selection and refitting end in the selection step's state |
| Dashboard.Session.Refit | app.py:482-541 | the refit's field updates end in the analysis step's state |
| Dashboard.Session.StoreRefit | app.py:501-541 | storing the model, the accuracy, the ranking and the form revenue as each step succeeds ends in the fitted step's state |
| Dashboard.Session.PredictRevenue | app.py:546-584 | the forecast stores the clamped revenue and answers as the predict step does |
| Dashboard.Session.Ask | app.py:586-641 | the chat answers from the stored fields and changes none of them |
| Dashboard.Session.AnswerTo | app.py:606-636 | the dispatch answers the intent's branch from the stored fields |

## Left out

- HTTP plumbing is left out as I/O: Flask routing, `request`, `jsonify` and `send_file`, logging, the index page, the browser launch and `static/js/script.js`. A handler's answer is a response datatype; the text of its messages is kept only where a property speaks of it.
- CSV parsing (`pd.read_csv`) is left out as I/O. The upload receives an optional frame whose column kinds are what pandas infers.
- The scikit-learn calls are left out as foreign code: `LabelEncoder`, `StandardScaler`, `train_test_split`'s shuffling, `GridSearchCV`, `RandomForestClassifier`, `accuracy_score` and `permutation_importance`. They are the `Trainer` parameter; only the split sizes and the grids are modelled.
- Charts (`generate_charts`) and the PDF report (`generate_pdf_report`, `download_report`) are rendering-library output and are not part of this model.
- `pd.to_datetime` is the `signupDate` parameter. The month and year arrive as optional integers, and a non-integer value is not modelled.
- A `datetime64` column of the model holds no NaT. The only one stored is the selection's signup column, whose rows all have a date.
- Concurrency is left out. Each handler is modelled as one `Session` method that runs to completion before the next request. Flask's development server (`app.run`, app.py:696) serves requests on threads, and the globals of app.py:33-39 have no lock, so interleaved requests (a filter copying the frame while an upload replaces it) are not modelled.
- Floating point is modelled with `real`. NaN results, rounding and the `:.2f` formatting are out.
- Strings.ParseFloat: `float()`'s exponents, `inf`, `nan` and non-ASCII digits are not modelled; such strings read as unreadable.
- Strings.ParseDecimal: likewise for `pd.to_numeric`'s exponents, `inf` and `nan`.
- Cleaning.Convert: `pd.to_numeric` on a `datetime64` column, which would give nanosecond counts, leaves the column as it is. The charge columns hold no dates in any path of the handlers.
- Pipeline.UploadAnalysis: the split sizes are checked before the learner runs, while the source scales first (app.py:379-384). The two orders differ only when the scaling raises on a frame whose split is also too small; the model then gives the split's answer instead of the scaler's error.
- PipelineProperties.FilterRefitSeesDates: the learner stays a parameter, so the scaler's refusal of timestamps is an assumption of the lemma, not a property of the model.
- Strings.Lower: lowercases ASCII letters only, with no Unicode case mapping.
- Chat.SegmentReply: the per-contract churn means are not computed. The reply names the churn column it would group.
- Cleaning.Prepare: reports two columns whose lowered names clash as one error. pandas raises or behaves case by case there.
- Cleaning.CleanData: returns a new frame. The in-place change to the caller's frame is not modelled; both callers pass a fresh or copied frame.
- A chat, filter or revenue-prediction request whose JSON body is missing, so that `request.json` is `None`, is not modelled; the handlers read absent fields as absent. In the source, `data.get` then raises: `predict_revenue` (app.py:553) answers "Revenue prediction failed" with `current_revenue` unchanged, and the other two answer their own failure messages.
- Ranking.RankByImportance: promises no order among equal scores, as pandas' default sort is not stable. `RankingScoresDetermined` shows the score sequence is fixed all the same.
- Stats.Mode: breaks ties by lexicographic order, as `mode()[0]` returns the least of the most frequent values.
