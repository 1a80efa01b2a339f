/** The arithmetic around the model: the churn rate (app.py:360-363), reading and
    clamping a revenue figure (app.py:323-329, 555-560), the revenue at risk
    (app.py:413-415), the revenue forecast (app.py:562-573) and the sizes of the
    80/20 train/test split the upload checks (app.py:382-384). */
module Metrics {
  import opened Wrappers
  import opened Strings
  import opened Frame

  // ---------------------------------------------------------------------------
  // Churn labels and the churn rate

  /** A churn cell after `replace({'yes': 1, 'no': 0, True: 1, False: 0})`: a number,
      NaN, or a value `mean()` cannot add up (a string the mapping does not know, a
      timestamp). */
  datatype Label = Value(v: real) | Absent | Unmapped

  function ChurnLabel(c: Cell): (l: Label)
    ensures l.Absent? <==> c.Missing?
    ensures l.Unmapped? <==> (c.Str? && c.s != "yes" && c.s != "no") || c.Stamp?
  {
    match c
    case Num(x) => Value(x)
    case Str(s) => if s == "yes" then Value(1.0) else if s == "no" then Value(0.0) else Unmapped
    case Flag(b) => Value(if b then 1.0 else 0.0)
    case Stamp(_) => Unmapped
    case Missing => Absent
  }

  /** Why no churn rate comes out: every label is NaN (the explicit check), or a
      label is a string, on which `mean()` raises. */
  datatype RateError = NoLabels | UnmappedLabels

  /** The sum and the number of the labels that are numbers (`mean` skips NaN). */
  function LabelSum(cells: seq<Cell>): real {
    if |cells| == 0 then 0.0
    else (match ChurnLabel(cells[0]) case Value(v) => v case _ => 0.0) + LabelSum(cells[1..])
  }

  /** For each cell, whether its label is a number `mean()` adds up. */
  function Labelled(cells: seq<Cell>): (m: seq<bool>)
    ensures |m| == |cells|
  {
    seq(|cells|, i requires 0 <= i < |cells| => ChurnLabel(cells[i]).Value?)
  }

  /** The divisor of `mean()`: the number of cells whose label is a number, as
      `LabelCountCounts` states. */
  function LabelCount(cells: seq<Cell>): (n: nat)
    ensures n <= |cells|
    ensures n == 0 <==> forall i :: 0 <= i < |cells| ==> !ChurnLabel(cells[i]).Value?
  {
    if |cells| == 0 then 0
    else
      assert forall i :: 1 <= i < |cells| ==> cells[i] == cells[1..][i - 1];
      (if ChurnLabel(cells[0]).Value? then 1 else 0) + LabelCount(cells[1..])
  }

  /** The count is how many cells have a number as their label. */
  lemma {:induction false} LabelCountCounts(cells: seq<Cell>)
    ensures LabelCount(cells) == multiset(Labelled(cells))[true]
  {
    if |cells| > 0 {
      LabelCountCounts(cells[1..]);
      assert Labelled(cells) == [ChurnLabel(cells[0]).Value?] + Labelled(cells[1..]);
    }
  }

  /** `churn_values.isna().all()` is an error; otherwise the mean, which raises when a
      string is left. */
  function ChurnRate(cells: seq<Cell>): (r: Result<real, RateError>)
    ensures r == Err(NoLabels) <==> forall i :: 0 <= i < |cells| ==> cells[i].Missing?
    ensures r == Err(UnmappedLabels) <==>
              (exists i :: 0 <= i < |cells| && !cells[i].Missing?) && exists i :: 0 <= i < |cells| && ChurnLabel(cells[i]).Unmapped?
  {
    if forall i :: 0 <= i < |cells| ==> cells[i].Missing? then Err(NoLabels)
    else if exists i :: 0 <= i < |cells| && ChurnLabel(cells[i]).Unmapped? then Err(UnmappedLabels)
    else
      assert LabelCount(cells) > 0 by {
        var i :| 0 <= i < |cells| && !cells[i].Missing?;
        assert ChurnLabel(cells[i]).Value?;
      }
      Ok(LabelSum(cells) / LabelCount(cells) as real)
  }

  /** A label of a churned customer: "yes", True, or the number 1. */
  predicate Churned(c: Cell) {
    c == Str("yes") || c == Flag(true) || c == Num(1.0)
  }

  /** A label that says churned or not: "yes"/"no", a boolean, or the number 0 or 1. */
  predicate BinaryLabel(c: Cell) {
    c == Str("yes") || c == Str("no") || c.Flag? || c == Num(0.0) || c == Num(1.0)
  }

  function ChurnedCount(cells: seq<Cell>): (n: nat)
    ensures n <= |cells|
  {
    if |cells| == 0 then 0 else (if Churned(cells[0]) then 1 else 0) + ChurnedCount(cells[1..])
  }

  lemma {:induction false} BinarySums(cells: seq<Cell>)
    requires forall i :: 0 <= i < |cells| ==> BinaryLabel(cells[i])
    ensures LabelSum(cells) == ChurnedCount(cells) as real && LabelCount(cells) == |cells|
  {
    if |cells| > 0 {
      assert forall i :: 1 <= i < |cells| ==> cells[i] == cells[1..][i - 1];
      BinarySums(cells[1..]);
    }
  }

  /** With every label yes/no, True/False or 0/1, the churn rate is the share of
      churned customers, a number between 0 and 1. */
  lemma ChurnRateIsChurnedShare(cells: seq<Cell>)
    requires |cells| > 0 && forall i :: 0 <= i < |cells| ==> BinaryLabel(cells[i])
    ensures ChurnRate(cells) == Ok(ChurnedCount(cells) as real / |cells| as real)
    ensures 0.0 <= ChurnRate(cells).value <= 1.0
  {
    BinarySums(cells);
    assert !cells[0].Missing?;
    assert forall i :: 0 <= i < |cells| ==> !ChurnLabel(cells[i]).Unmapped?;
    RatioInUnit(ChurnedCount(cells), |cells|);
  }

  lemma RatioInUnit(a: nat, b: nat)
    requires 0 < b && a <= b
    ensures 0.0 <= a as real / b as real <= 1.0
  {
  }

  /** A churn column of a cleaned frame has no missing cell, so the all-NaN check can
      never fire on it. */
  lemma CleanedLabelsNeverAllMissing(cells: seq<Cell>)
    requires |cells| > 0 && NoMissingCells(cells)
    ensures ChurnRate(cells) != Err(NoLabels)
  {
    assert !cells[0].Missing?;
  }

  // ---------------------------------------------------------------------------
  // Revenue input

  /** A revenue field as the request carries it: absent (the default 0 applies), a
      number, a string, a boolean, or anything else (`None`, a list). */
  datatype RevenueInput = NotGiven | Number(x: real) | Words(s: string) | Truth(b: bool) | Unconvertible

  /** `float(v)`, or `None` where it raises. */
  function ReadFloat(v: RevenueInput): Option<real> {
    match v
    case NotGiven => Some(0.0)
    case Number(x) => Some(x)
    case Words(s) => ParseFloat(s)
    case Truth(b) => Some(if b then 1.0 else 0.0)
    case Unconvertible => None
  }

  /** The revenue the handlers keep: the number read, or 0 when it is negative or
      cannot be read. */
  function ClampRevenue(v: RevenueInput): (r: real)
    ensures r >= 0.0
  {
    match ReadFloat(v)
    case Some(x) => if x < 0.0 then 0.0 else x
    case None => 0.0
  }

  /** Clamping keeps every readable non-negative figure and sends everything else to 0. */
  lemma ClampKeepsOnlyReadableNonNegative(v: RevenueInput)
    ensures ClampRevenue(v) != 0.0 ==> ReadFloat(v) == Some(ClampRevenue(v))
    ensures ReadFloat(v).Some? && ReadFloat(v).value >= 0.0 ==> ClampRevenue(v) == ReadFloat(v).value
    ensures ReadFloat(v).None? || ReadFloat(v).value <= 0.0 ==> ClampRevenue(v) == 0.0
  {
  }

  /** Clamping a clamped figure changes nothing. */
  lemma ClampIdempotent(v: RevenueInput)
    ensures ClampRevenue(Number(ClampRevenue(v))) == ClampRevenue(v)
  {
  }

  /** A field holding the decimal digits of `n` is read as `n`; one holding `-n` as 0. */
  lemma ClampOfDigits(n: nat)
    ensures ClampRevenue(Words(FormatNat(n))) == n as real
    ensures ClampRevenue(Words("-" + FormatNat(n))) == 0.0
  {
    FormatParses(n, Python);
    FormatParsesNegated(n, Python);
  }

  // ---------------------------------------------------------------------------
  // Revenue at risk

  const NoLossMessage := "Current Revenue is 0, no revenue loss predicted"

  datatype Loss = Loss(monthly: real, yearly: real, message: string)

  /** The monthly and yearly loss are only computed for a positive revenue; the message
      is shown for a revenue of exactly 0 (a negative one gets neither). */
  function RevenueLoss(revenue: real, rate: real): (l: Loss)
    ensures l.message != "" <==> revenue == 0.0
    ensures revenue <= 0.0 ==> l.monthly == 0.0 && l.yearly == 0.0
  {
    var monthly := if revenue > 0.0 then revenue * rate else 0.0;
    var yearly := if revenue > 0.0 then monthly * 12.0 else 0.0;
    Loss(monthly, yearly, if revenue == 0.0 then NoLossMessage else "")
  }

  /** For a positive revenue the loss is the churned share of it, a year is twelve
      months of it, and with a rate in [0, 1] it never exceeds the revenue. */
  lemma LossIsChurnedShare(revenue: real, rate: real)
    requires revenue > 0.0
    ensures RevenueLoss(revenue, rate).monthly == revenue * rate
    ensures RevenueLoss(revenue, rate).yearly == 12.0 * RevenueLoss(revenue, rate).monthly
    ensures 0.0 <= rate <= 1.0 ==> 0.0 <= RevenueLoss(revenue, rate).monthly <= revenue
  {
    if 0.0 <= rate <= 1.0 {
      assert revenue * rate <= revenue * 1.0;
    }
  }

  /** The loss scales with the revenue and grows with the rate. */
  lemma LossLinear(revenue: real, rate: real, c: real, rate2: real)
    requires revenue > 0.0 && c > 0.0 && rate <= rate2
    ensures RevenueLoss(c * revenue, rate).monthly == c * RevenueLoss(revenue, rate).monthly
    ensures RevenueLoss(revenue, rate).monthly <= RevenueLoss(revenue, rate2).monthly
  {
    assert c * revenue > 0.0;
    assert revenue * rate <= revenue * rate2;
  }

  // ---------------------------------------------------------------------------
  // Revenue forecast

  const NoForecastMessage := "Current Revenue is 0, no loss predicted"

  datatype Forecast = Forecast(monthly: real, yearly: real, future: real, message: Option<string>)

  function ForecastRevenue(revenue: real, rate: real): (f: Forecast)
    ensures f.message.Some? <==> revenue == 0.0
  {
    if revenue == 0.0 then Forecast(0.0, 0.0, 0.0, Some(NoForecastMessage))
    else
      var monthly := revenue * rate;
      var yearly := monthly * 12.0;
      Forecast(monthly, yearly, revenue - yearly, None)
  }

  /** A zero revenue forecasts nothing; any other revenue loses twelve months of churn,
      so the future revenue is `revenue * (1 - 12 * rate)`: no more than the revenue
      when the rate is not negative, and not negative exactly when the rate is at most
      one twelfth. */
  lemma ForecastSpec(revenue: real, rate: real)
    ensures var f := ForecastRevenue(revenue, rate);
      && (revenue == 0.0 ==> f == Forecast(0.0, 0.0, 0.0, Some(NoForecastMessage)))
      && (revenue != 0.0 ==> f.monthly == revenue * rate && f.yearly == 12.0 * f.monthly
                             && f.future == revenue * (1.0 - 12.0 * rate))
      && (revenue > 0.0 && rate >= 0.0 ==> f.future <= revenue)
      && (revenue > 0.0 ==> (f.future >= 0.0 <==> rate <= 1.0 / 12.0))
  {
    var f := ForecastRevenue(revenue, rate);
    if revenue > 0.0 {
      assert f.future == revenue * (1.0 - 12.0 * rate);
      if rate <= 1.0 / 12.0 {
        assert 1.0 - 12.0 * rate >= 0.0;
      } else {
        assert 1.0 - 12.0 * rate < 0.0;
        assert revenue * (1.0 - 12.0 * rate) < 0.0;
      }
      if rate >= 0.0 {
        assert revenue * (12.0 * rate) >= 0.0;
      }
    }
  }

  /** For a positive revenue the forecast's losses are the upload's revenue at risk. */
  lemma ForecastAgreesWithLoss(revenue: real, rate: real)
    requires revenue > 0.0
    ensures ForecastRevenue(revenue, rate).monthly == RevenueLoss(revenue, rate).monthly
    ensures ForecastRevenue(revenue, rate).yearly == RevenueLoss(revenue, rate).yearly
    ensures ForecastRevenue(revenue, rate).future + RevenueLoss(revenue, rate).yearly == revenue
  {
  }

  // ---------------------------------------------------------------------------
  // Train/test split sizes

  /** `train_test_split(test_size=0.2)`: the test part is `ceil(0.2 * n)` rows, the
      rest is the training part. */
  function TestSize(n: nat): nat {
    (n + 4) / 5
  }

  function TrainSize(n: nat): (r: nat)
    ensures r + TestSize(n) == n
  {
    n - TestSize(n)
  }

  /** The test part is the least whole number of rows at or above a fifth. */
  lemma TestSizeIsCeiling(n: nat)
    ensures 5 * TestSize(n) >= n
    ensures TestSize(n) == 0 || 5 * (TestSize(n) - 1) < n
  {
  }

  /** The split leaves at least five training and two test rows exactly from seven
      rows on, and a training part at all exactly from two rows on. */
  lemma SplitLargeEnoughIff(n: nat)
    ensures TrainSize(n) >= 5 && TestSize(n) >= 2 <==> n >= 7
    ensures TrainSize(n) > 0 <==> n >= 2
  {
    if n >= 7 {
      assert TestSize(n) >= 2;
      assert 5 * TestSize(n) <= n + 4;
    }
  }
}
