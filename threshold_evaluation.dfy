/**
 The scoring evaluation script (python/analysis/_threshold_evaluation.py): numeric
 coercion of the loaded columns, the confusion matrix and the guarded rates at
 one score threshold, the fixed-threshold drivers, the precision-recall sweep
 over every distinct score, and the top-10 high-risk destination accounts.
 Scores and rates are exact reals; printing, CSV output and plotting are not
 modelled.
 */
module ThresholdEvaluation {
  import opened Tally
  import opened Sorting

  // ---------------------------------------------------------------------
  // Input coercion (_threshold_evaluation.py:10-11)
  // ---------------------------------------------------------------------

  /** A CSV cell as `pd.to_numeric(..., errors='coerce')` sees it: a number, or anything else (empty cells included). */
  datatype Cell = Numeric(value: real) | NotNumeric

  datatype RawTransaction = RawTransaction(nameDest: string, fraudSignalScore: Cell, isFraud: Cell)

  /** One row after coercion: the score as a number, the label as an integer. */
  datatype Transaction = Transaction(nameDest: string, fraudSignalScore: real, isFraud: int)

  /** `astype(int)` on a float: drop the fractional part, rounding toward zero. */
  function TruncateTowardZero(x: real): (n: int)
    ensures 0.0 <= x ==> n as real <= x < n as real + 1.0
    ensures x < 0.0 ==> n as real - 1.0 < x <= n as real
  {
    if x >= 0.0 then x.Floor else -((-x).Floor)
  }

  /** `pd.to_numeric(errors='coerce').fillna(0)` */
  function CoerceScore(c: Cell): (r: real)
    ensures c.Numeric? ==> r == c.value
    ensures c.NotNumeric? ==> r == 0.0
  {
    match c
    case Numeric(v) => v
    case NotNumeric => 0.0
  }

  /** `pd.to_numeric(errors='coerce').fillna(0).astype(int)` */
  function CoerceLabel(c: Cell): (n: int)
    ensures c.NotNumeric? ==> n == 0
    ensures c.Numeric? && 0.0 <= c.value ==> 0 <= n && n as real <= c.value < n as real + 1.0
    ensures c.Numeric? && c.value < 0.0 ==> n <= 0 && n as real - 1.0 < c.value <= n as real
  {
    TruncateTowardZero(CoerceScore(c))
  }

  /** One row through both coercions; the account name is read as it is. */
  function Coerce(raw: RawTransaction): (t: Transaction)
    ensures t.nameDest == raw.nameDest
    ensures raw.fraudSignalScore.Numeric? ==> t.fraudSignalScore == raw.fraudSignalScore.value
    ensures raw.fraudSignalScore.NotNumeric? ==> t.fraudSignalScore == 0.0
    ensures raw.isFraud.Numeric? ==> t.isFraud == TruncateTowardZero(raw.isFraud.value)
    ensures raw.isFraud.NotNumeric? ==> t.isFraud == 0
  {
    Transaction(raw.nameDest, CoerceScore(raw.fraudSignalScore), CoerceLabel(raw.isFraud))
  }

  /** Both columns coerced cell by cell: the table keeps its rows, their order and the account names. */
  function CoerceTable(raws: seq<RawTransaction>): (rows: seq<Transaction>)
    ensures |rows| == |raws|
    ensures forall i :: 0 <= i < |raws| ==> rows[i].nameDest == raws[i].nameDest
    ensures forall i :: 0 <= i < |raws| ==>
      rows[i].fraudSignalScore == if raws[i].fraudSignalScore.Numeric? then raws[i].fraudSignalScore.value else 0.0
    ensures forall i :: 0 <= i < |raws| ==>
      rows[i].isFraud == if raws[i].isFraud.Numeric? then TruncateTowardZero(raws[i].isFraud.value) else 0
  {
    seq(|raws|, i requires 0 <= i < |raws| => Coerce(raws[i]))
  }

  /**
   An unparseable cell becomes 0; a parseable score is kept as it is; an
   integral label is kept as it is; a fractional label loses its fraction.
   */
  lemma CoercionOfCells(v: real, k: int)
    ensures CoerceScore(NotNumeric) == 0.0 && CoerceLabel(NotNumeric) == 0
    ensures CoerceScore(Numeric(v)) == v
    ensures CoerceLabel(Numeric(k as real)) == k
    ensures 0.0 <= v ==> 0 <= CoerceLabel(Numeric(v)) && CoerceLabel(Numeric(v)) as real <= v
    ensures v < 0.0 ==> CoerceLabel(Numeric(v)) <= 0 && v <= CoerceLabel(Numeric(v)) as real
  {
  }

  /** A coerced label is 0 or 1 exactly when the cell was unparseable or a number strictly between -1 and 2. */
  lemma CoercedLabelBinary(c: Cell)
    ensures CoerceLabel(c) == 0 || CoerceLabel(c) == 1 <==> c.NotNumeric? || -1.0 < c.value < 2.0
  {
  }

  // ---------------------------------------------------------------------
  // Confusion matrix at one threshold (_threshold_evaluation.py:27-34, 43)
  // ---------------------------------------------------------------------

  /** `y_pred`: scores at or above the threshold are predicted fraud. */
  function Flagged(t: Transaction, threshold: real): (r: bool)
    ensures t.fraudSignalScore == threshold ==> r
    ensures t.fraudSignalScore > threshold ==> r
    ensures t.fraudSignalScore < threshold ==> !r
  {
    t.fraudSignalScore >= threshold
  }

  predicate BinaryLabel(t: Transaction)
  {
    t.isFraud == 0 || t.isFraud == 1
  }

  predicate AllBinaryLabels(rows: seq<Transaction>)
  {
    forall i :: 0 <= i < |rows| ==> BinaryLabel(rows[i])
  }

  /** Rows with label `cls` whose prediction is `flagged`: one cell of the `y_true` x `y_pred` crossing. */
  function CellCount(rows: seq<Transaction>, threshold: real, cls: int, flagged: bool): (n: nat)
    ensures n <= LabelCount(rows, cls)
    ensures flagged ==> n <= FlaggedCount(rows, threshold)
    decreases |rows|
  {
    if rows == [] then 0
    else
      var m := |rows| - 1;
      CellCount(rows[..m], threshold, cls, flagged) +
        (if rows[m].isFraud == cls && Flagged(rows[m], threshold) == flagged then 1 else 0)
  }

  /** `y_pred.sum()` */
  function FlaggedCount(rows: seq<Transaction>, threshold: real): (n: nat)
    ensures n <= |rows|
    decreases |rows|
  {
    if rows == [] then 0
    else
      var m := |rows| - 1;
      FlaggedCount(rows[..m], threshold) + (if Flagged(rows[m], threshold) then 1 else 0)
  }

  /** Rows whose label is `cls`. */
  function LabelCount(rows: seq<Transaction>, cls: int): (n: nat)
    ensures n <= |rows|
    decreases |rows|
  {
    if rows == [] then 0
    else
      var m := |rows| - 1;
      LabelCount(rows[..m], cls) + (if rows[m].isFraud == cls then 1 else 0)
  }

  /** Rows whose label is neither 0 nor 1 (a coerced label can be any integer); `flaggedOnly` restricts to flagged rows. */
  function NonBinaryCount(rows: seq<Transaction>, threshold: real, flaggedOnly: bool): nat
    decreases |rows|
  {
    if rows == [] then 0
    else
      var m := |rows| - 1;
      NonBinaryCount(rows[..m], threshold, flaggedOnly) +
        (if !BinaryLabel(rows[m]) && (!flaggedOnly || Flagged(rows[m], threshold)) then 1 else 0)
  }

  datatype Confusion = Confusion(tp: nat, fp: nat, fn: nat, tn: nat)

  /** The four cells of the crossing; each label's rows split between its two cells. */
  function ConfusionAt(rows: seq<Transaction>, threshold: real): (c: Confusion)
    ensures c.tp + c.fn == LabelCount(rows, 1)
    ensures c.fp + c.tn == LabelCount(rows, 0)
    ensures c.tp + c.fp <= FlaggedCount(rows, threshold)
  {
    CellsSplitLabel(rows, threshold, 1);
    CellsSplitLabel(rows, threshold, 0);
    FlaggedCellsWithinFlagged(rows, threshold);
    Confusion(
      CellCount(rows, threshold, 1, true),
      CellCount(rows, threshold, 0, true),
      CellCount(rows, threshold, 1, false),
      CellCount(rows, threshold, 0, false))
  }

  /** Every row with a 0/1 label falls in exactly one of TP, FP, FN, TN; the others fall in none. */
  lemma {:induction false} ConfusionPartitionsRows(rows: seq<Transaction>, threshold: real)
    ensures var c := ConfusionAt(rows, threshold);
      c.tp + c.fp + c.fn + c.tn + NonBinaryCount(rows, threshold, false) == |rows|
    decreases |rows|
  {
    if rows != [] {
      ConfusionPartitionsRows(rows[..|rows| - 1], threshold);
    }
  }

  /** The flagged rows are the true and false positives plus the flagged rows with a label outside 0/1. */
  lemma {:induction false} FlaggedAreTruePlusFalsePositives(rows: seq<Transaction>, threshold: real)
    ensures var c := ConfusionAt(rows, threshold);
      FlaggedCount(rows, threshold) == c.tp + c.fp + NonBinaryCount(rows, threshold, true)
    decreases |rows|
  {
    if rows != [] {
      FlaggedAreTruePlusFalsePositives(rows[..|rows| - 1], threshold);
    }
  }

  /** The rows of one label split into its flagged and its unflagged cell, whatever the threshold. */
  lemma {:induction false} CellsSplitLabel(rows: seq<Transaction>, threshold: real, cls: int)
    ensures CellCount(rows, threshold, cls, true) + CellCount(rows, threshold, cls, false) == LabelCount(rows, cls)
    decreases |rows|
  {
    if rows != [] {
      CellsSplitLabel(rows[..|rows| - 1], threshold, cls);
    }
  }

  /** The flagged cells of labels 1 and 0 together hold no more rows than are flagged. */
  lemma {:induction false} FlaggedCellsWithinFlagged(rows: seq<Transaction>, threshold: real)
    ensures CellCount(rows, threshold, 1, true) + CellCount(rows, threshold, 0, true) <= FlaggedCount(rows, threshold)
    decreases |rows|
  {
    if rows != [] {
      FlaggedCellsWithinFlagged(rows[..|rows| - 1], threshold);
    }
  }

  /** Without labels outside 0/1 there are none to lose. */
  lemma {:induction false} NoNonBinaryRows(rows: seq<Transaction>, threshold: real, flaggedOnly: bool)
    requires AllBinaryLabels(rows)
    ensures NonBinaryCount(rows, threshold, flaggedOnly) == 0
    decreases |rows|
  {
    if rows != [] {
      NoNonBinaryRows(rows[..|rows| - 1], threshold, flaggedOnly);
    }
  }

  /** Raising the threshold never flags more rows, and never finds more true positives. */
  lemma {:induction false} FlaggedCountMonotone(rows: seq<Transaction>, t1: real, t2: real)
    requires t1 <= t2
    ensures FlaggedCount(rows, t2) <= FlaggedCount(rows, t1)
    ensures ConfusionAt(rows, t2).tp <= ConfusionAt(rows, t1).tp
    decreases |rows|
  {
    if rows != [] {
      FlaggedCountMonotone(rows[..|rows| - 1], t1, t2);
    }
  }

  /** A threshold no row's score is below flags every row (the bound is inclusive), so no fraud is missed. */
  lemma {:induction false} AllFlaggedAtMinimum(rows: seq<Transaction>, threshold: real)
    requires forall i :: 0 <= i < |rows| ==> rows[i].fraudSignalScore >= threshold
    ensures FlaggedCount(rows, threshold) == |rows|
    ensures ConfusionAt(rows, threshold).fn == 0
    decreases |rows|
  {
    if rows != [] {
      AllFlaggedAtMinimum(rows[..|rows| - 1], threshold);
    }
  }

  // ---------------------------------------------------------------------
  // Guarded rates, baseline and lift (_threshold_evaluation.py:36-56)
  // ---------------------------------------------------------------------

  /** `num / den if den > 0 else 0.0` */
  function Ratio(num: nat, den: nat): (r: real)
    ensures 0.0 <= r
    ensures num <= den ==> r <= 1.0
    ensures den == 0 ==> r == 0.0
  {
    if den > 0 then num as real / den as real else 0.0
  }

  /** A ratio with a positive denominator is the exact quotient: scaling it back gives the numerator. */
  lemma RatioScalesBack(num: nat, den: nat)
    requires den > 0
    ensures Ratio(num, den) * den as real == num as real
  {
  }

  /** Over a fixed denominator a larger numerator gives a larger ratio. */
  lemma RatioMonotone(a: nat, b: nat, den: nat)
    requires a <= b
    ensures Ratio(a, den) <= Ratio(b, den)
  {
    if den > 0 {
      assert Ratio(b, den) - Ratio(a, den) == (b - a) as real / den as real;
    }
  }

  /** A part of a whole has ratio 0 exactly when it is empty, and ratio 1 exactly when it is the whole and not empty. */
  lemma RatioExtremes(num: nat, den: nat)
    requires num <= den
    ensures Ratio(num, den) == 0.0 <==> num == 0
    ensures Ratio(num, den) == 1.0 <==> 0 < num == den
  {
    if den > 0 {
      RatioScalesBack(num, den);
    }
  }

  /** `tp / (tp + fp)`: 0 exactly when no flagged row is a fraud, 1 exactly when some are and none is a non-fraud. */
  function PrecisionAt(rows: seq<Transaction>, threshold: real): (r: real)
    ensures 0.0 <= r <= 1.0
    ensures r == 0.0 <==> ConfusionAt(rows, threshold).tp == 0
    ensures r == 1.0 <==> ConfusionAt(rows, threshold).tp > 0 && ConfusionAt(rows, threshold).fp == 0
    ensures AllBinaryLabels(rows) ==> r == Ratio(ConfusionAt(rows, threshold).tp, FlaggedCount(rows, threshold))
  {
    var c := ConfusionAt(rows, threshold);
    assert AllBinaryLabels(rows) ==> c.tp + c.fp == FlaggedCount(rows, threshold) by {
      if AllBinaryLabels(rows) {
        FlaggedAreTruePlusFalsePositives(rows, threshold);
        NoNonBinaryRows(rows, threshold, true);
      }
    }
    RatioExtremes(c.tp, c.tp + c.fp);
    Ratio(c.tp, c.tp + c.fp)
  }

  /** `tp / (tp + fn)`, the share of frauds flagged: 0 when no fraud is flagged, 1 exactly when some exist and all are. */
  function RecallAt(rows: seq<Transaction>, threshold: real): (r: real)
    ensures 0.0 <= r <= 1.0
    ensures r == Ratio(ConfusionAt(rows, threshold).tp, LabelCount(rows, 1))
    ensures r == 0.0 <==> ConfusionAt(rows, threshold).tp == 0
    ensures r == 1.0 <==> LabelCount(rows, 1) > 0 && ConfusionAt(rows, threshold).fn == 0
  {
    var c := ConfusionAt(rows, threshold);
    RatioExtremes(c.tp, c.tp + c.fn);
    Ratio(c.tp, c.tp + c.fn)
  }

  /** `fp / (fp + tn)`, the share of non-frauds flagged: 0 when none is, 1 exactly when some exist and all are. */
  function FprAt(rows: seq<Transaction>, threshold: real): (r: real)
    ensures 0.0 <= r <= 1.0
    ensures r == Ratio(ConfusionAt(rows, threshold).fp, LabelCount(rows, 0))
    ensures r == 0.0 <==> ConfusionAt(rows, threshold).fp == 0
    ensures r == 1.0 <==> LabelCount(rows, 0) > 0 && ConfusionAt(rows, threshold).tn == 0
  {
    var c := ConfusionAt(rows, threshold);
    RatioExtremes(c.fp, c.fp + c.tn);
    Ratio(c.fp, c.fp + c.tn)
  }

  function LabelColumn(rows: seq<Transaction>): (c: seq<int>)
    ensures |c| == |rows| && forall i :: 0 <= i < |rows| ==> c[i] == rows[i].isFraud
  {
    seq(|rows|, i requires 0 <= i < |rows| => rows[i].isFraud)
  }

  /** `y_true.mean()`: not a number on an empty table, and the fraud share when the labels are 0/1. */
  function BaselineFraudRate(rows: seq<Transaction>): (b: Metric)
    ensures b.NaN? <==> |rows| == 0
    ensures AllBinaryLabels(rows) && |rows| > 0 ==> b == Value(LabelCount(rows, 1) as real / |rows| as real)
  {
    assert AllBinaryLabels(rows) ==> Total(LabelColumn(rows)) == LabelCount(rows, 1) by {
      if AllBinaryLabels(rows) {
        LabelTotalIsFraudCount(rows);
      }
    }
    Mean(LabelColumn(rows))
  }

  /** `recall / baseline if baseline > 0 else np.nan` (a NaN baseline fails the comparison). */
  function Lift(recall: real, baseline: Metric): (l: Metric)
    ensures l.Value? <==> baseline.Value? && baseline.v > 0.0
  {
    if baseline.Value? && baseline.v > 0.0 then Value(recall / baseline.v) else NaN
  }

  /** A defined lift is the recall in units of the baseline. */
  lemma LiftScalesBack(recall: real, baseline: Metric)
    requires baseline.Value? && baseline.v > 0.0
    ensures Lift(recall, baseline).v * baseline.v == recall
  {
  }

  /** The dictionary `evaluate_threshold_np` returns. */
  datatype Evaluation = Evaluation(
    threshold: real,
    flaggedCount: nat,
    fraudInFlagged: nat,
    fraudRateInFlagged: real,
    tp: nat, fp: nat, fn: nat, tn: nat,
    precision: real,
    recall: real,
    fpr: real,
    baselineFraudRate: Metric,
    lift: Metric)

  function EvaluateThreshold(rows: seq<Transaction>, threshold: real): (e: Evaluation)
    ensures e.threshold == threshold
    ensures Confusion(e.tp, e.fp, e.fn, e.tn) == ConfusionAt(rows, threshold)
    ensures e.flaggedCount == FlaggedCount(rows, threshold)
    ensures e.tp + e.fp + e.fn + e.tn + NonBinaryCount(rows, threshold, false) == |rows|
    ensures e.flaggedCount == e.tp + e.fp + NonBinaryCount(rows, threshold, true)
    ensures e.tp + e.fn == LabelCount(rows, 1)
    ensures e.fraudInFlagged == e.tp
    ensures e.precision == Ratio(e.tp, e.tp + e.fp)
    ensures e.recall == Ratio(e.tp, e.tp + e.fn)
    ensures e.fpr == Ratio(e.fp, e.fp + e.tn)
    ensures e.fraudRateInFlagged == Ratio(e.tp, e.flaggedCount)
    ensures 0.0 <= e.precision <= 1.0 && 0.0 <= e.recall <= 1.0 && 0.0 <= e.fpr <= 1.0
    ensures 0.0 <= e.fraudRateInFlagged <= 1.0
    ensures e.baselineFraudRate == BaselineFraudRate(rows)
    ensures e.lift == Lift(e.recall, e.baselineFraudRate)
    ensures e.lift.Value? <==> e.baselineFraudRate.Value? && e.baselineFraudRate.v > 0.0
  {
    var c := ConfusionAt(rows, threshold);
    var flagged := FlaggedCount(rows, threshold);
    ConfusionPartitionsRows(rows, threshold);
    FlaggedAreTruePlusFalsePositives(rows, threshold);
    var recall := Ratio(c.tp, c.tp + c.fn);
    var baseline := BaselineFraudRate(rows);
    Evaluation(
      threshold := threshold,
      flaggedCount := flagged,
      fraudInFlagged := c.tp,
      fraudRateInFlagged := Ratio(c.tp, flagged),
      tp := c.tp, fp := c.fp, fn := c.fn, tn := c.tn,
      precision := Ratio(c.tp, c.tp + c.fp),
      recall := recall,
      fpr := Ratio(c.fp, c.fp + c.tn),
      baselineFraudRate := baseline,
      lift := Lift(recall, baseline))
  }

  /** With 0/1 labels the four cells cover the table, and the fraud rate among flagged rows is the precision. */
  lemma BinaryLabelsEvaluation(rows: seq<Transaction>, threshold: real)
    requires AllBinaryLabels(rows)
    ensures var e := EvaluateThreshold(rows, threshold);
      && e.tp + e.fp + e.fn + e.tn == |rows|
      && e.flaggedCount == e.tp + e.fp
      && e.fraudRateInFlagged == e.precision
  {
    NoNonBinaryRows(rows, threshold, false);
    NoNonBinaryRows(rows, threshold, true);
  }

  /** The label total with 0/1 labels is the fraud count. */
  lemma {:induction false} LabelTotalIsFraudCount(rows: seq<Transaction>)
    requires AllBinaryLabels(rows)
    ensures Total(LabelColumn(rows)) == LabelCount(rows, 1)
    decreases |rows|
  {
    if rows != [] {
      var m := |rows| - 1;
      assert LabelColumn(rows)[..m] == LabelColumn(rows[..m]);
      LabelTotalIsFraudCount(rows[..m]);
    }
  }

  /** With 0/1 labels on a non-empty table, lift is defined exactly when some fraud exists. */
  lemma LiftDefinedIffFraudPresent(rows: seq<Transaction>, threshold: real)
    requires AllBinaryLabels(rows) && |rows| > 0
    ensures EvaluateThreshold(rows, threshold).lift.Value? <==> LabelCount(rows, 1) > 0
  {
    var part, whole := LabelCount(rows, 1), |rows|;
    var b := BaselineFraudRate(rows);
    assert b == Value(part as real / whole as real);
    assert EvaluateThreshold(rows, threshold).lift.Value? <==> b.v > 0.0;
    assert b.v == Ratio(part, whole);
    RatioExtremes(part, whole);
  }

  /** Scores 2, 4, 6 with labels 0, 1, 1 at threshold 4: two flagged rows, both frauds. */
  lemma ExampleEvaluation()
    ensures var e := EvaluateThreshold([Transaction("a", 2.0, 0), Transaction("b", 4.0, 1), Transaction("c", 6.0, 1)], 4.0);
      && e.flaggedCount == 2 && e.tp == 2 && e.fp == 0 && e.fn == 0 && e.tn == 1
      && e.precision == 1.0 && e.recall == 1.0
  {
    var rows := [Transaction("a", 2.0, 0), Transaction("b", 4.0, 1), Transaction("c", 6.0, 1)];
    var t := 4.0;
    assert rows[..2] == [rows[0], rows[1]] && rows[..2][..1] == [rows[0]];
    var r1, r2 := rows[..1], rows[..2];
    assert CellCount(r1, t, 1, true) == 0 && CellCount(r1, t, 0, true) == 0;
    assert CellCount(r1, t, 1, false) == 0 && CellCount(r1, t, 0, false) == 1;
    assert CellCount(r2, t, 1, true) == 1 && CellCount(r2, t, 0, true) == 0;
    assert CellCount(r2, t, 1, false) == 0 && CellCount(r2, t, 0, false) == 1;
    assert FlaggedCount(r1, t) == 0 && FlaggedCount(r2, t) == 1;
    var c := ConfusionAt(rows, t);
    assert c == Confusion(2, 0, 0, 1);
    assert FlaggedCount(rows, t) == 2;
  }

  // ---------------------------------------------------------------------
  // Fixed-threshold drivers (_threshold_evaluation.py:24, 72-78, 135-155)
  // ---------------------------------------------------------------------

  const Thresholds: seq<real> := [3.0, 4.0, 5.0, 6.0]

  /** The `results` loop: one evaluation per threshold, in the order given. */
  method EvaluateThresholds(rows: seq<Transaction>, thresholds: seq<real>) returns (results: seq<Evaluation>)
    ensures |results| == |thresholds|
    ensures forall i :: 0 <= i < |thresholds| ==> results[i] == EvaluateThreshold(rows, thresholds[i])
  {
    results := [];
    for k := 0 to |thresholds|
      invariant |results| == k
      invariant forall i :: 0 <= i < k ==> results[i] == EvaluateThreshold(rows, thresholds[i])
    {
      var res := EvaluateThreshold(rows, thresholds[k]);
      results := results + [res];
    }
  }

  /** One row of `threshold_metrics.csv`. */
  datatype MetricsRow = MetricsRow(
    threshold: real,
    tp: nat, fp: nat, fn: nat, tn: nat,
    precision: real,
    recall: real,
    flagged: nat)

  /** The `rows` loop: it recomputes the crossing per threshold and agrees with the `results` table. */
  method ThresholdMetricsTable(rows: seq<Transaction>, thresholds: seq<real>) returns (table: seq<MetricsRow>)
    ensures |table| == |thresholds|
    ensures forall i :: 0 <= i < |thresholds| ==>
      var e := EvaluateThreshold(rows, thresholds[i]);
      && table[i].threshold == e.threshold
      && table[i].tp == e.tp && table[i].fp == e.fp && table[i].fn == e.fn && table[i].tn == e.tn
      && table[i].precision == e.precision && table[i].recall == e.recall
      && table[i].flagged == e.flaggedCount
  {
    table := [];
    for k := 0 to |thresholds|
      invariant |table| == k
      invariant forall i :: 0 <= i < k ==>
        var e := EvaluateThreshold(rows, thresholds[i]);
        && table[i].threshold == e.threshold
        && table[i].tp == e.tp && table[i].fp == e.fp && table[i].fn == e.fn && table[i].tn == e.tn
        && table[i].precision == e.precision && table[i].recall == e.recall
        && table[i].flagged == e.flaggedCount
    {
      var t := thresholds[k];
      var c := ConfusionAt(rows, t);
      var row := MetricsRow(t, c.tp, c.fp, c.fn, c.tn, Ratio(c.tp, c.tp + c.fp), Ratio(c.tp, c.tp + c.fn), FlaggedCount(rows, t));
      table := table + [row];
    }
  }

  /**
   Both fixed-threshold loops over `THRESHOLDS`: four evaluations in the listed
   order, a metrics table that agrees with them, and, the thresholds being
   ascending, flagged counts and recalls that never rise from one to the next.
   */
  method FixedThresholdReport(rows: seq<Transaction>) returns (results: seq<Evaluation>, table: seq<MetricsRow>)
    ensures |results| == |Thresholds| == 4 && |table| == 4
    ensures forall i :: 0 <= i < 4 ==> results[i] == EvaluateThreshold(rows, Thresholds[i])
    ensures forall i :: 0 <= i < 4 ==>
      && table[i].threshold == results[i].threshold
      && table[i].tp == results[i].tp && table[i].fp == results[i].fp
      && table[i].fn == results[i].fn && table[i].tn == results[i].tn
      && table[i].precision == results[i].precision && table[i].recall == results[i].recall
      && table[i].flagged == results[i].flaggedCount
    ensures forall i, j :: 0 <= i < j < 4 ==>
      results[j].flaggedCount <= results[i].flaggedCount && results[j].recall <= results[i].recall
  {
    results := EvaluateThresholds(rows, Thresholds);
    table := ThresholdMetricsTable(rows, Thresholds);
    EvaluationsMonotone(rows, Thresholds, results);
  }

  /** Over ascending thresholds, the flagged counts and the recalls of their evaluations never rise. */
  lemma EvaluationsMonotone(rows: seq<Transaction>, thresholds: seq<real>, results: seq<Evaluation>)
    requires forall i, j :: 0 <= i < j < |thresholds| ==> thresholds[i] <= thresholds[j]
    requires |results| == |thresholds|
    requires forall i :: 0 <= i < |thresholds| ==> results[i] == EvaluateThreshold(rows, thresholds[i])
    ensures forall i, j :: 0 <= i < j < |results| ==>
      results[j].flaggedCount <= results[i].flaggedCount && results[j].recall <= results[i].recall
  {
    forall i, j | 0 <= i < j < |results|
      ensures results[j].flaggedCount <= results[i].flaggedCount && results[j].recall <= results[i].recall
    {
      FlaggedCountMonotone(rows, thresholds[i], thresholds[j]);
      RecallMonotone(rows, thresholds[i], thresholds[j]);
    }
  }

  // ---------------------------------------------------------------------
  // Precision-recall sweep (_threshold_evaluation.py:101-117)
  // ---------------------------------------------------------------------

  function ScoreColumn(rows: seq<Transaction>): (c: seq<real>)
    ensures |c| == |rows| && forall i :: 0 <= i < |rows| ==> c[i] == rows[i].fraudSignalScore
  {
    seq(|rows|, i requires 0 <= i < |rows| => rows[i].fraudSignalScore)
  }

  /** The order of `np.sort`: lower score first. */
  function Ascending(a: real, b: real): bool
  {
    a <= b
  }

  lemma AscendingIsTotalPreorder()
    ensures TotalPreorder(Ascending)
  {
  }

  /** `np.sort(df["fraud_signal_score"].unique())`: each observed score once, strictly ascending. */
  function SweepThresholds(rows: seq<Transaction>): (ts: seq<real>)
    ensures forall i, j :: 0 <= i < j < |ts| ==> ts[i] < ts[j]
    ensures forall i :: 0 <= i < |ts| ==> ts[i] in ScoreColumn(rows)
    ensures forall i :: 0 <= i < |rows| ==> rows[i].fraudSignalScore in ts
    ensures |rows| > 0 ==> |ts| > 0
  {
    var unique := Distinct(ScoreColumn(rows));
    AscendingIsTotalPreorder();
    var ts := SortBy(unique, Ascending);
    SortedScores(rows, ts);
    ts
  }

  /** Any ascending, repeat-free arrangement of the distinct scores is strictly ascending and holds exactly the observed scores. */
  lemma SortedScores(rows: seq<Transaction>, ts: seq<real>)
    requires NoDup(ts) && SortedBy(ts, Ascending)
    requires forall y :: y in ts <==> y in Distinct(ScoreColumn(rows))
    ensures forall i, j :: 0 <= i < j < |ts| ==> ts[i] < ts[j]
    ensures forall i :: 0 <= i < |ts| ==> ts[i] in ScoreColumn(rows)
    ensures forall i :: 0 <= i < |rows| ==> rows[i].fraudSignalScore in ts
    ensures |rows| > 0 ==> |ts| > 0
  {
    var scores := ScoreColumn(rows);
    var unique := Distinct(scores);
    SortedDistinctIsStrict(ts);
    forall i | 0 <= i < |ts| ensures ts[i] in scores {
      assert ts[i] in ts;
      var p :| 0 <= p < |unique| && unique[p] == ts[i];
    }
    forall i | 0 <= i < |rows| ensures rows[i].fraudSignalScore in ts {
      assert scores[i] in unique;
    }
    if |rows| > 0 {
      assert rows[0].fraudSignalScore in ts;
    }
  }

  /** Scores in ascending order without repeats are strictly ascending. */
  lemma SortedDistinctIsStrict(ts: seq<real>)
    requires NoDup(ts) && SortedBy(ts, Ascending)
    ensures forall i, j :: 0 <= i < j < |ts| ==> ts[i] < ts[j]
  {
    forall i, j | 0 <= i < j < |ts| ensures ts[i] < ts[j] {
      assert Ascending(ts[i], ts[j]) && ts[i] != ts[j];
    }
  }

  /** Recall never rises as the threshold rises. */
  lemma RecallMonotone(rows: seq<Transaction>, t1: real, t2: real)
    requires t1 <= t2
    ensures RecallAt(rows, t2) <= RecallAt(rows, t1)
  {
    var c1, c2 := ConfusionAt(rows, t1), ConfusionAt(rows, t2);
    FlaggedCountMonotone(rows, t1, t2);
    RatioMonotone(c2.tp, c1.tp, LabelCount(rows, 1));
  }

  /** The first entry of a strictly ascending list is at most every entry. */
  lemma FirstIsLeast(ts: seq<real>, x: real)
    requires forall i, j :: 0 <= i < j < |ts| ==> ts[i] < ts[j]
    requires x in ts
    ensures ts[0] <= x
  {
    var j :| 0 <= j < |ts| && ts[j] == x;
    if j > 0 {
      assert ts[0] < ts[j];
    }
  }

  /** When every row is flagged and some fraud exists, recall is 1. */
  lemma RecallIsOneWhenAllFlagged(rows: seq<Transaction>, threshold: real)
    requires forall i :: 0 <= i < |rows| ==> rows[i].fraudSignalScore >= threshold
    requires LabelCount(rows, 1) > 0
    ensures RecallAt(rows, threshold) == 1.0
  {
    AllFlaggedAtMinimum(rows, threshold);
  }

  /** The first sweep threshold is the lowest observed score. */
  lemma SweepStartsAtMinimum(rows: seq<Transaction>)
    requires |rows| > 0
    ensures forall i :: 0 <= i < |rows| ==> rows[i].fraudSignalScore >= SweepThresholds(rows)[0]
  {
    var ts := SweepThresholds(rows);
    forall i | 0 <= i < |rows| ensures rows[i].fraudSignalScore >= ts[0] {
      FirstIsLeast(ts, rows[i].fraudSignalScore);
    }
  }

  /** At the lowest observed score every row is flagged, so recall is 1 whenever some fraud exists. */
  lemma RecallIsOneAtMinimumScore(rows: seq<Transaction>)
    requires |rows| > 0 && LabelCount(rows, 1) > 0
    ensures RecallAt(rows, SweepThresholds(rows)[0]) == 1.0
  {
    SweepStartsAtMinimum(rows);
    RecallIsOneWhenAllFlagged(rows, SweepThresholds(rows)[0]);
  }

  /** What the sweep's recall column satisfies once it holds the recall at each threshold. */
  lemma SweepRecalls(rows: seq<Transaction>, thresholds: seq<real>, recalls: seq<real>)
    requires thresholds == SweepThresholds(rows)
    requires |recalls| == |thresholds|
    requires forall i :: 0 <= i < |thresholds| ==> recalls[i] == RecallAt(rows, thresholds[i])
    ensures forall i, j :: 0 <= i < j < |recalls| ==> recalls[j] <= recalls[i]
    ensures |rows| > 0 && LabelCount(rows, 1) > 0 ==> recalls[0] == 1.0
  {
    forall i, j | 0 <= i < j < |recalls| ensures recalls[j] <= recalls[i] {
      RecallMonotone(rows, thresholds[i], thresholds[j]);
    }
    if |rows| > 0 && LabelCount(rows, 1) > 0 {
      RecallIsOneAtMinimumScore(rows);
    }
  }

  /** The body of the sweep loop: precision and recall at each threshold of a list, in its order. */
  method PrecisionRecallAt(rows: seq<Transaction>, thresholds: seq<real>) returns (precisions: seq<real>, recalls: seq<real>)
    ensures |precisions| == |thresholds| && |recalls| == |thresholds|
    ensures forall i :: 0 <= i < |thresholds| ==>
      precisions[i] == PrecisionAt(rows, thresholds[i]) && recalls[i] == RecallAt(rows, thresholds[i])
  {
    precisions, recalls := [], [];
    for k := 0 to |thresholds|
      invariant |precisions| == k && |recalls| == k
      invariant forall i :: 0 <= i < k ==>
        precisions[i] == PrecisionAt(rows, thresholds[i]) && recalls[i] == RecallAt(rows, thresholds[i])
    {
      var t := thresholds[k];
      var c := ConfusionAt(rows, t);
      precisions := precisions + [Ratio(c.tp, c.tp + c.fp)];
      recalls := recalls + [Ratio(c.tp, c.tp + c.fn)];
    }
  }

  /** The precision-recall sweep: every distinct score as a threshold, lowest first. */
  method PrecisionRecallCurve(rows: seq<Transaction>) returns (thresholds: seq<real>, precisions: seq<real>, recalls: seq<real>)
    ensures thresholds == SweepThresholds(rows)
    ensures |precisions| == |thresholds| && |recalls| == |thresholds|
    ensures forall i :: 0 <= i < |thresholds| ==>
      precisions[i] == PrecisionAt(rows, thresholds[i]) && recalls[i] == RecallAt(rows, thresholds[i])
    ensures forall i, j :: 0 <= i < j < |recalls| ==> recalls[j] <= recalls[i]
    ensures |rows| > 0 && LabelCount(rows, 1) > 0 ==> recalls[0] == 1.0
  {
    thresholds := SweepThresholds(rows);
    precisions, recalls := PrecisionRecallAt(rows, thresholds);
    SweepRecalls(rows, thresholds, recalls);
  }

  // ---------------------------------------------------------------------
  // Top-10 high-risk destination accounts (_threshold_evaluation.py:164-176)
  // ---------------------------------------------------------------------

  datatype AccountSummary = AccountSummary(
    nameDest: string,
    maxScore: real,
    avgScore: real,
    totalScore: real,
    txCount: nat,
    fraudTxCount: int)

  function DestColumn(rows: seq<Transaction>): (c: seq<string>)
    ensures |c| == |rows| && forall i :: 0 <= i < |rows| ==> c[i] == rows[i].nameDest
  {
    seq(|rows|, i requires 0 <= i < |rows| => rows[i].nameDest)
  }

  /** The aggregates of one destination account's group. */
  function Summarize(rows: seq<Transaction>, name: string): (s: AccountSummary)
    requires name in DestColumn(rows)
    ensures s.nameDest == name
    ensures s.txCount >= 1
    ensures s.txCount == Count(DestColumn(rows), name)
    ensures s.totalScore == SumReal(DestColumn(rows), ScoreColumn(rows), name)
    ensures s.fraudTxCount == SumInt(DestColumn(rows), LabelColumn(rows), name)
    ensures s.avgScore == s.totalScore / s.txCount as real
    ensures forall i :: 0 <= i < |rows| && rows[i].nameDest == name ==> rows[i].fraudSignalScore <= s.maxScore
    ensures exists i :: 0 <= i < |rows| && rows[i].nameDest == name && rows[i].fraudSignalScore == s.maxScore
  {
    var dests, scores := DestColumn(rows), ScoreColumn(rows);
    var total := SumReal(dests, scores, name);
    var count := Count(dests, name);
    AccountSummary(name, MaxReal(dests, scores, name), total / count as real, total, count, SumInt(dests, LabelColumn(rows), name))
  }

  /** One more row adds one transaction, its score and its label to its own account's aggregates and nothing to another account's. */
  lemma SummarizeAppendRow(rows: seq<Transaction>, t: Transaction, name: string)
    requires name in DestColumn(rows)
    ensures name in DestColumn(rows + [t])
    ensures var before, after := Summarize(rows, name), Summarize(rows + [t], name);
      && after.txCount == before.txCount + (if t.nameDest == name then 1 else 0)
      && after.totalScore == before.totalScore + (if t.nameDest == name then t.fraudSignalScore else 0.0)
      && after.fraudTxCount == before.fraudTxCount + (if t.nameDest == name then t.isFraud else 0)
      && after.maxScore == if t.nameDest == name && t.fraudSignalScore > before.maxScore then t.fraudSignalScore else before.maxScore
  {
    var rows2 := rows + [t];
    assert DestColumn(rows2) == DestColumn(rows) + [t.nameDest];
    assert ScoreColumn(rows2) == ScoreColumn(rows) + [t.fraudSignalScore];
    assert LabelColumn(rows2) == LabelColumn(rows) + [t.isFraud];
    var m := |rows|;
    assert DestColumn(rows2)[..m] == DestColumn(rows);
    assert ScoreColumn(rows2)[..m] == ScoreColumn(rows);
    assert LabelColumn(rows2)[..m] == LabelColumn(rows);
  }

  /** With 0/1 labels an account's fraud count lies between 0 and its transaction count. */
  lemma FraudTxCountBounded(rows: seq<Transaction>, name: string)
    requires name in DestColumn(rows) && AllBinaryLabels(rows)
    ensures 0 <= Summarize(rows, name).fraudTxCount <= Summarize(rows, name).txCount
  {
    assert AllIndicators(LabelColumn(rows));
    SumIntOfIndicators(DestColumn(rows), LabelColumn(rows), name);
  }

  /** The sort order `sort_values(["max_score", "total_score"], ascending=False)`. */
  function RanksAbove(a: AccountSummary, b: AccountSummary): (r: bool)
    ensures r ==> a.maxScore >= b.maxScore
    ensures a.maxScore > b.maxScore ==> r
    ensures a.maxScore == b.maxScore ==> (r <==> a.totalScore >= b.totalScore)
  {
    a.maxScore > b.maxScore || (a.maxScore == b.maxScore && a.totalScore >= b.totalScore)
  }

  lemma RanksAboveIsTotalPreorder()
    ensures TotalPreorder(RanksAbove)
  {
  }

  /** One summary per destination account, in order of first appearance. */
  function AccountSummaries(rows: seq<Transaction>): (g: seq<AccountSummary>)
    ensures NoDup(g)
    ensures AccountNames(g) == Distinct(DestColumn(rows))
    ensures forall i :: 0 <= i < |g| ==> g[i].nameDest in DestColumn(rows) && g[i] == Summarize(rows, g[i].nameDest)
    ensures forall i :: 0 <= i < |rows| ==> Summarize(rows, rows[i].nameDest) in g
  {
    var names := Distinct(DestColumn(rows));
    var groups := seq(|names|, j requires 0 <= j < |names| => Summarize(rows, names[j]));
    SummariesOfNames(rows, names, groups);
    groups
  }

  /** The summaries of a duplicate-free list of names covering every row are distinct and include every row's account. */
  lemma SummariesOfNames(rows: seq<Transaction>, names: seq<string>, groups: seq<AccountSummary>)
    requires NoDup(names) && forall j :: 0 <= j < |names| ==> names[j] in DestColumn(rows)
    requires forall i :: 0 <= i < |rows| ==> rows[i].nameDest in names
    requires |groups| == |names| && forall j :: 0 <= j < |names| ==> groups[j] == Summarize(rows, names[j])
    ensures NoDup(groups) && AccountNames(groups) == names
    ensures forall i :: 0 <= i < |rows| ==> Summarize(rows, rows[i].nameDest) in groups
  {
    forall j | 0 <= j < |groups| ensures AccountNames(groups)[j] == names[j] {
      assert groups[j] == Summarize(rows, names[j]);
    }
    forall i, j | 0 <= i < j < |groups| ensures groups[i] != groups[j] {
      assert groups[i].nameDest == names[i] && groups[j].nameDest == names[j];
    }
    forall i | 0 <= i < |rows| ensures Summarize(rows, rows[i].nameDest) in groups {
      var j :| 0 <= j < |names| && names[j] == rows[i].nameDest;
      assert groups[j] == Summarize(rows, rows[i].nameDest);
    }
  }

  /** Every account, ranked by maximum score and then total score, both descending. */
  function AccountRanking(rows: seq<Transaction>): (r: seq<AccountSummary>)
    ensures |r| == |Distinct(DestColumn(rows))|
    ensures forall i, j :: 0 <= i < j < |r| ==> RanksAbove(r[i], r[j])
    ensures forall i :: 0 <= i < |r| ==> r[i].nameDest in DestColumn(rows) && r[i] == Summarize(rows, r[i].nameDest)
    ensures forall i, j :: 0 <= i < j < |r| ==> r[i].nameDest != r[j].nameDest
    ensures forall k :: 0 <= k < |rows| ==> Summarize(rows, rows[k].nameDest) in r
  {
    var g := AccountSummaries(rows);
    RanksAboveIsTotalPreorder();
    var r := SortBy(g, RanksAbove);
    assert forall i, j :: 0 <= i < j < |r| ==> RanksAbove(r[i], r[j]);
    ReorderedSummaries(rows, g, r);
    r
  }

  /** A duplicate-free rearrangement of the account summaries still holds one summary per account, and every row's. */
  lemma ReorderedSummaries(rows: seq<Transaction>, g: seq<AccountSummary>, r: seq<AccountSummary>)
    requires NoDup(r) && forall y :: y in r <==> y in g
    requires forall i :: 0 <= i < |g| ==> g[i].nameDest in DestColumn(rows) && g[i] == Summarize(rows, g[i].nameDest)
    requires forall i :: 0 <= i < |rows| ==> Summarize(rows, rows[i].nameDest) in g
    ensures forall i :: 0 <= i < |r| ==> r[i].nameDest in DestColumn(rows) && r[i] == Summarize(rows, r[i].nameDest)
    ensures forall i, j :: 0 <= i < j < |r| ==> r[i].nameDest != r[j].nameDest
    ensures forall k :: 0 <= k < |rows| ==> Summarize(rows, rows[k].nameDest) in r
  {
    forall i | 0 <= i < |r| ensures r[i].nameDest in DestColumn(rows) && r[i] == Summarize(rows, r[i].nameDest) {
      assert r[i] in g;
    }
    SummariesHaveDistinctNames(rows, r);
  }

  /** Distinct summaries of a table's accounts belong to distinct accounts. */
  lemma SummariesHaveDistinctNames(rows: seq<Transaction>, r: seq<AccountSummary>)
    requires NoDup(r)
    requires forall i :: 0 <= i < |r| ==> r[i].nameDest in DestColumn(rows) && r[i] == Summarize(rows, r[i].nameDest)
    ensures forall i, j :: 0 <= i < j < |r| ==> r[i].nameDest != r[j].nameDest
  {
    forall i, j | 0 <= i < j < |r| ensures r[i].nameDest != r[j].nameDest {
      assert r[i] != r[j];
    }
  }

  function TxCounts(g: seq<AccountSummary>): (c: seq<int>)
    ensures |c| == |g| && forall i :: 0 <= i < |g| ==> c[i] == g[i].txCount
  {
    seq(|g|, i requires 0 <= i < |g| => g[i].txCount)
  }

  function AccountNames(g: seq<AccountSummary>): (c: seq<string>)
    ensures |c| == |g| && forall i :: 0 <= i < |g| ==> c[i] == g[i].nameDest
  {
    seq(|g|, i requires 0 <= i < |g| => g[i].nameDest)
  }

  /** Each account's `tx_count` is its group size, so the counts add up to the group sizes of the listed names. */
  lemma {:induction false} TxCountsAreGroupCounts(keys: seq<string>, g: seq<AccountSummary>)
    requires forall i :: 0 <= i < |g| ==> g[i].txCount == Count(keys, g[i].nameDest)
    ensures Total(TxCounts(g)) == SumCounts(keys, AccountNames(g))
    decreases |g|
  {
    if g != [] {
      var m := |g| - 1;
      TxCountsAreGroupCounts(keys, g[..m]);
      assert TxCounts(g)[..m] == TxCounts(g[..m]);
      assert AccountNames(g)[..m] == AccountNames(g[..m]);
    }
  }

  /** Every row lands in exactly one account: the `tx_count` column of the summaries adds up to the row count. */
  lemma AccountTxCountsSumToRowCount(rows: seq<Transaction>)
    ensures Total(TxCounts(AccountSummaries(rows))) == |rows|
  {
    var keys := DestColumn(rows);
    var g := AccountSummaries(rows);
    assert forall i :: 0 <= i < |g| ==> g[i].txCount == Count(keys, g[i].nameDest) by {
      forall i | 0 <= i < |g| ensures g[i].txCount == Count(keys, g[i].nameDest) {
        assert g[i] == Summarize(rows, g[i].nameDest);
      }
    }
    TxCountsAreGroupCounts(keys, g);
    AccountNamesCoverRows(rows);
    SumCountsOfCover(keys, AccountNames(g));
  }

  /** The names of the account summaries are distinct and include every row's destination. */
  lemma AccountNamesCoverRows(rows: seq<Transaction>)
    ensures NoDup(AccountNames(AccountSummaries(rows)))
    ensures forall k :: k in DestColumn(rows) ==> k in AccountNames(AccountSummaries(rows))
  {
    var keys := DestColumn(rows);
    var names := AccountNames(AccountSummaries(rows));
    assert names == Distinct(keys);
    forall k | k in keys ensures k in names {
      var i :| 0 <= i < |keys| && keys[i] == k;
    }
  }

  const TopAccountCount: nat := 10

  /** The first `n` entries of a ranking come in ranking order and each ranks at least as high as every entry left out. */
  lemma {:induction false} PrefixOfRanking(ranking: seq<AccountSummary>, n: nat)
    requires forall i, j :: 0 <= i < j < |ranking| ==> RanksAbove(ranking[i], ranking[j])
    ensures var top := if n < |ranking| then ranking[..n] else ranking;
      forall i, s :: 0 <= i < |top| && s in ranking && s !in top ==> RanksAbove(top[i], s)
  {
    var top := if n < |ranking| then ranking[..n] else ranking;
    forall i, s | 0 <= i < |top| && s in ranking && s !in top ensures RanksAbove(top[i], s) {
      var p :| 0 <= p < |ranking| && ranking[p] == s;
      assert ranking[i] == top[i];
    }
  }

  /** `.head(n)` of the ranking: the `n` highest-ranked destination accounts. */
  function TopHighRiskAccounts(rows: seq<Transaction>, n: nat): (top: seq<AccountSummary>)
    ensures |top| == if n < |Distinct(DestColumn(rows))| then n else |Distinct(DestColumn(rows))|
    ensures forall i, j :: 0 <= i < j < |top| ==> top[i].nameDest != top[j].nameDest
    ensures forall i, j :: 0 <= i < j < |top| ==>
      top[i].maxScore > top[j].maxScore || (top[i].maxScore == top[j].maxScore && top[i].totalScore >= top[j].totalScore)
    ensures forall i :: 0 <= i < |top| ==> top[i].nameDest in DestColumn(rows) && top[i] == Summarize(rows, top[i].nameDest)
    ensures forall i, name :: 0 <= i < |top| && name in DestColumn(rows) && Summarize(rows, name) !in top ==>
      RanksAbove(top[i], Summarize(rows, name))
  {
    var ranking := AccountRanking(rows);
    var top := if n < |ranking| then ranking[..n] else ranking;
    PrefixOfAccountRanking(rows, ranking, n, top);
    top
  }

  /** The first `n` entries of a ranking of every account are ranked, distinct, and rank at least as high as every account left out. */
  lemma PrefixOfAccountRanking(rows: seq<Transaction>, ranking: seq<AccountSummary>, n: nat, top: seq<AccountSummary>)
    requires forall i, j :: 0 <= i < j < |ranking| ==> RanksAbove(ranking[i], ranking[j])
    requires forall i :: 0 <= i < |ranking| ==> ranking[i].nameDest in DestColumn(rows) && ranking[i] == Summarize(rows, ranking[i].nameDest)
    requires forall i, j :: 0 <= i < j < |ranking| ==> ranking[i].nameDest != ranking[j].nameDest
    requires forall k :: 0 <= k < |rows| ==> Summarize(rows, rows[k].nameDest) in ranking
    requires top == if n < |ranking| then ranking[..n] else ranking
    ensures forall i, j :: 0 <= i < j < |top| ==> top[i].nameDest != top[j].nameDest
    ensures forall i, j :: 0 <= i < j < |top| ==> RanksAbove(top[i], top[j])
    ensures forall i :: 0 <= i < |top| ==> top[i].nameDest in DestColumn(rows) && top[i] == Summarize(rows, top[i].nameDest)
    ensures forall i, name :: 0 <= i < |top| && name in DestColumn(rows) && Summarize(rows, name) !in top ==>
      RanksAbove(top[i], Summarize(rows, name))
  {
    PrefixOfRanking(ranking, n);
    assert forall i :: 0 <= i < |top| ==> top[i] == ranking[i];
    forall i, name | 0 <= i < |top| && name in DestColumn(rows) && Summarize(rows, name) !in top
      ensures RanksAbove(top[i], Summarize(rows, name)) {
      var k :| 0 <= k < |rows| && DestColumn(rows)[k] == name;
      assert Summarize(rows, rows[k].nameDest) in ranking;
    }
  }

  /** Accounts A (scores 5, 9) and B (scores 9, 1) tie on the maximum; A's larger total puts it first. */
  lemma ExampleTieOnMaximum()
    ensures var rows := [Transaction("A", 5.0, 0), Transaction("A", 9.0, 0), Transaction("B", 9.0, 0), Transaction("B", 1.0, 0)];
      && "A" in DestColumn(rows) && "B" in DestColumn(rows)
      && Summarize(rows, "A").maxScore == 9.0 && Summarize(rows, "A").totalScore == 14.0
      && Summarize(rows, "B").maxScore == 9.0 && Summarize(rows, "B").totalScore == 10.0
      && RanksAbove(Summarize(rows, "A"), Summarize(rows, "B"))
      && !RanksAbove(Summarize(rows, "B"), Summarize(rows, "A"))
  {
    var rows := [Transaction("A", 5.0, 0), Transaction("A", 9.0, 0), Transaction("B", 9.0, 0), Transaction("B", 1.0, 0)];
    assert DestColumn(rows) == ["A", "A", "B", "B"];
    assert ScoreColumn(rows) == [5.0, 9.0, 9.0, 1.0];
    ExampleTieSums();
    ExampleTieMaxima();
  }

  lemma ExampleTieSums()
    ensures SumReal(["A", "A", "B", "B"], [5.0, 9.0, 9.0, 1.0], "A") == 14.0
    ensures SumReal(["A", "A", "B", "B"], [5.0, 9.0, 9.0, 1.0], "B") == 10.0
  {
    var dests, scores := ["A", "A", "B", "B"], [5.0, 9.0, 9.0, 1.0];
    assert dests[..3] == ["A", "A", "B"] && scores[..3] == [5.0, 9.0, 9.0];
    assert ["A", "A", "B"][..2] == ["A", "A"] && [5.0, 9.0, 9.0][..2] == [5.0, 9.0];
    assert ["A", "A"][..1] == ["A"] && [5.0, 9.0][..1] == [5.0];
    assert ["A"][..0] == [] && [5.0][..0] == [];
  }

  lemma ExampleTieMaxima()
    ensures MaxReal(["A", "A", "B", "B"], [5.0, 9.0, 9.0, 1.0], "A") == 9.0
    ensures MaxReal(["A", "A", "B", "B"], [5.0, 9.0, 9.0, 1.0], "B") == 9.0
  {
    var dests, scores := ["A", "A", "B", "B"], [5.0, 9.0, 9.0, 1.0];
    var mA, mB := MaxReal(dests, scores, "A"), MaxReal(dests, scores, "B");
    assert dests[1] == "A" && scores[1] <= mA;
    assert dests[2] == "B" && scores[2] <= mB;
    var iA :| 0 <= iA < 4 && dests[iA] == "A" && scores[iA] == mA;
    var iB :| 0 <= iB < 4 && dests[iB] == "B" && scores[iB] == mB;
  }

  /** The table the script saves: at most ten accounts. */
  function Top10(rows: seq<Transaction>): (top: seq<AccountSummary>)
    ensures |top| <= 10
  {
    TopHighRiskAccounts(rows, TopAccountCount)
  }
}
