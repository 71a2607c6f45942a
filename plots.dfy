/**
 The table arithmetic of the descriptive plotting script (python/analysis/plots.py):
 the grouped mismatch rates behind its bar charts, the either/both/single-side
 mismatch breakdown, the high-risk tagging at a mule-score threshold, and the
 derivation of the additive fraud signal score. Rendering is not modelled.

 The flag and mismatch columns are read as integers, as they are written
 upstream; the script itself only converts the score inputs with `astype(int)`.
 The properties that need a column to hold 0/1 say so in their preconditions.
 */
module Plots {
  import opened Tally
  import opened Sorting

  /** One row of the feature table the script loads. */
  datatype Transaction = Transaction(
    nameDest: string,
    txType: string,
    isFraud: int,
    origDeltaMismatchDir: int,
    originMismatch: int,
    destMismatch: int,
    eitherMismatch: int,
    bothMismatch: int,
    isDestHighVelocity: int,
    isPassThrough: int,
    isManySenders: int,
    destTxCountStep: int,
    muleScoreW: real)

  // ---------------------------------------------------------------------
  // Columns
  // ---------------------------------------------------------------------

  function DestColumn(rows: seq<Transaction>): (c: seq<string>)
    ensures |c| == |rows| && forall i :: 0 <= i < |rows| ==> c[i] == rows[i].nameDest
  {
    seq(|rows|, i requires 0 <= i < |rows| => rows[i].nameDest)
  }

  function TypeColumn(rows: seq<Transaction>): (c: seq<string>)
    ensures |c| == |rows| && forall i :: 0 <= i < |rows| ==> c[i] == rows[i].txType
  {
    seq(|rows|, i requires 0 <= i < |rows| => rows[i].txType)
  }

  function StepColumn(rows: seq<Transaction>): (c: seq<int>)
    ensures |c| == |rows| && forall i :: 0 <= i < |rows| ==> c[i] == rows[i].destTxCountStep
  {
    seq(|rows|, i requires 0 <= i < |rows| => rows[i].destTxCountStep)
  }

  function OrigDeltaMismatchColumn(rows: seq<Transaction>): (c: seq<int>)
    ensures |c| == |rows| && forall i :: 0 <= i < |rows| ==> c[i] == rows[i].origDeltaMismatchDir
  {
    seq(|rows|, i requires 0 <= i < |rows| => rows[i].origDeltaMismatchDir)
  }

  function DestMismatchColumn(rows: seq<Transaction>): (c: seq<int>)
    ensures |c| == |rows| && forall i :: 0 <= i < |rows| ==> c[i] == rows[i].destMismatch
  {
    seq(|rows|, i requires 0 <= i < |rows| => rows[i].destMismatch)
  }

  function EitherColumn(rows: seq<Transaction>): (c: seq<int>)
    ensures |c| == |rows| && forall i :: 0 <= i < |rows| ==> c[i] == rows[i].eitherMismatch
  {
    seq(|rows|, i requires 0 <= i < |rows| => rows[i].eitherMismatch)
  }

  function BothColumn(rows: seq<Transaction>): (c: seq<int>)
    ensures |c| == |rows| && forall i :: 0 <= i < |rows| ==> c[i] == rows[i].bothMismatch
  {
    seq(|rows|, i requires 0 <= i < |rows| => rows[i].bothMismatch)
  }

  function FraudColumn(rows: seq<Transaction>): (c: seq<int>)
    ensures |c| == |rows| && forall i :: 0 <= i < |rows| ==> c[i] == rows[i].isFraud
  {
    seq(|rows|, i requires 0 <= i < |rows| => rows[i].isFraud)
  }

  /** `(origin_mismatch == 1) & (dest_mismatch == 0)`, as 0/1. */
  function OriginOnlyFlag(t: Transaction): (f: int)
    ensures IsIndicator(f)
    ensures f == 1 <==> t.originMismatch == 1 && t.destMismatch == 0
  {
    if t.originMismatch == 1 && t.destMismatch == 0 then 1 else 0
  }

  /** `(dest_mismatch == 1) & (origin_mismatch == 0)`, as 0/1. */
  function DestOnlyFlag(t: Transaction): (f: int)
    ensures IsIndicator(f)
    ensures f == 1 <==> t.destMismatch == 1 && t.originMismatch == 0
  {
    if t.destMismatch == 1 && t.originMismatch == 0 then 1 else 0
  }

  function OriginOnlyColumn(rows: seq<Transaction>): (c: seq<int>)
    ensures |c| == |rows| && forall i :: 0 <= i < |rows| ==> c[i] == OriginOnlyFlag(rows[i])
  {
    seq(|rows|, i requires 0 <= i < |rows| => OriginOnlyFlag(rows[i]))
  }

  function DestOnlyColumn(rows: seq<Transaction>): (c: seq<int>)
    ensures |c| == |rows| && forall i :: 0 <= i < |rows| ==> c[i] == DestOnlyFlag(rows[i])
  {
    seq(|rows|, i requires 0 <= i < |rows| => DestOnlyFlag(rows[i]))
  }

  // ---------------------------------------------------------------------
  // Origin ledger mismatch rate by transaction type (plots.py:63)
  // ---------------------------------------------------------------------

  datatype TypeRate = TypeRate(txType: string, mismatchRate: real)

  /** The key order of `sort_values(ascending=False)` on the per-type means: higher rate first. */
  function ByRateDescending(a: TypeRate, b: TypeRate): bool
  {
    a.mismatchRate >= b.mismatchRate
  }

  /** The group of one transaction type: its mean `orig_delta_mismatch_dir`. */
  function TypeGroup(rows: seq<Transaction>, txType: string): (g: TypeRate)
    requires txType in TypeColumn(rows)
    ensures g.txType == txType
    ensures g.mismatchRate == GroupMean(TypeColumn(rows), OrigDeltaMismatchColumn(rows), txType)
    ensures AllIndicators(OrigDeltaMismatchColumn(rows)) ==> 0.0 <= g.mismatchRate <= 1.0
  {
    TypeRate(txType, GroupMean(TypeColumn(rows), OrigDeltaMismatchColumn(rows), txType))
  }

  /**
   One entry per transaction type, in order of first appearance. `groupby`
   itself sorts its keys; the rate sort that follows makes that order matter
   only among equal rates.
   */
  function TypeGroups(rows: seq<Transaction>): (g: seq<TypeRate>)
    ensures NoDup(g)
    ensures forall i :: 0 <= i < |g| ==> g[i].txType in TypeColumn(rows) && g[i] == TypeGroup(rows, g[i].txType)
    ensures forall i :: 0 <= i < |rows| ==> TypeGroup(rows, rows[i].txType) in g
  {
    var types := Distinct(TypeColumn(rows));
    var groups := seq(|types|, j requires 0 <= j < |types| => TypeGroup(rows, types[j]));
    GroupsOfTypes(rows, types, groups);
    groups
  }

  /** The groups of a duplicate-free list of types covering every row are distinct and include every row's group. */
  lemma GroupsOfTypes(rows: seq<Transaction>, types: seq<string>, groups: seq<TypeRate>)
    requires NoDup(types) && forall j :: 0 <= j < |types| ==> types[j] in TypeColumn(rows)
    requires forall i :: 0 <= i < |rows| ==> rows[i].txType in types
    requires |groups| == |types| && forall j :: 0 <= j < |types| ==> groups[j] == TypeGroup(rows, types[j])
    ensures NoDup(groups)
    ensures forall i :: 0 <= i < |rows| ==> TypeGroup(rows, rows[i].txType) in groups
  {
    forall i, j | 0 <= i < j < |groups| ensures groups[i] != groups[j] {
      assert groups[i].txType == types[i] && groups[j].txType == types[j];
    }
    forall i | 0 <= i < |rows| ensures TypeGroup(rows, rows[i].txType) in groups {
      var j :| 0 <= j < |types| && types[j] == rows[i].txType;
      assert groups[j] == TypeGroup(rows, rows[i].txType);
    }
  }

  lemma ByRateDescendingIsTotalPreorder()
    ensures TotalPreorder(ByRateDescending)
  {
  }

  /** One entry per transaction type present, highest mismatch rate first. */
  function TypeMismatchRates(rows: seq<Transaction>): (r: seq<TypeRate>)
    ensures forall i, j :: 0 <= i < j < |r| ==> r[i].mismatchRate >= r[j].mismatchRate
    ensures forall i, j :: 0 <= i < j < |r| ==> r[i].txType != r[j].txType
    ensures forall i :: 0 <= i < |r| ==> r[i].txType in TypeColumn(rows) && r[i] == TypeGroup(rows, r[i].txType)
    ensures forall i :: 0 <= i < |rows| ==> TypeGroup(rows, rows[i].txType) in r
  {
    var groups := TypeGroups(rows);
    ByRateDescendingIsTotalPreorder();
    var r := SortBy(groups, ByRateDescending);
    assert forall i, j :: 0 <= i < j < |r| ==> ByRateDescending(r[i], r[j]);
    ReorderedTypeGroups(rows, groups, r);
    r
  }

  /** A duplicate-free rearrangement of the type groups still holds one group per type, and every row's. */
  lemma ReorderedTypeGroups(rows: seq<Transaction>, g: seq<TypeRate>, r: seq<TypeRate>)
    requires NoDup(r) && forall y :: y in r <==> y in g
    requires forall i :: 0 <= i < |g| ==> g[i].txType in TypeColumn(rows) && g[i] == TypeGroup(rows, g[i].txType)
    requires forall i :: 0 <= i < |rows| ==> TypeGroup(rows, rows[i].txType) in g
    ensures forall i, j :: 0 <= i < j < |r| ==> r[i].txType != r[j].txType
    ensures forall i :: 0 <= i < |r| ==> r[i].txType in TypeColumn(rows) && r[i] == TypeGroup(rows, r[i].txType)
    ensures forall i :: 0 <= i < |rows| ==> TypeGroup(rows, rows[i].txType) in r
  {
    forall i | 0 <= i < |r| ensures r[i].txType in TypeColumn(rows) && r[i] == TypeGroup(rows, r[i].txType) {
      assert r[i] in g;
    }
    TypeGroupsHaveDistinctTypes(rows, r);
  }

  /** Distinct type groups of a table belong to distinct types. */
  lemma TypeGroupsHaveDistinctTypes(rows: seq<Transaction>, r: seq<TypeRate>)
    requires NoDup(r)
    requires forall i :: 0 <= i < |r| ==> r[i].txType in TypeColumn(rows) && r[i] == TypeGroup(rows, r[i].txType)
    ensures forall i, j :: 0 <= i < j < |r| ==> r[i].txType != r[j].txType
  {
    forall i, j | 0 <= i < j < |r| ensures r[i].txType != r[j].txType {
      assert r[i] != r[j];
    }
  }

  /** Every per-type rate of a 0/1 column is a proportion. */
  lemma TypeMismatchRatesAreProportions(rows: seq<Transaction>)
    requires AllIndicators(OrigDeltaMismatchColumn(rows))
    ensures forall e :: e in TypeMismatchRates(rows) ==> 0.0 <= e.mismatchRate <= 1.0
  {
    var r := TypeMismatchRates(rows);
    forall e | e in r ensures 0.0 <= e.mismatchRate <= 1.0 {
      var i :| 0 <= i < |r| && r[i] == e;
    }
  }

  // ---------------------------------------------------------------------
  // Destination mismatch rate by destination activity level (plots.py:86-95)
  // ---------------------------------------------------------------------

  datatype StepRate = StepRate(destTxCountStep: int, destMismatchRate: real, count: nat)

  /** The key order of `sort_values('dest_tx_count_step')`: lower step first. */
  function ByStep(a: StepRate, b: StepRate): bool
  {
    a.destTxCountStep <= b.destTxCountStep
  }

  /** The group of one `dest_tx_count_step` value: its mean `dest_mismatch` and its size. */
  function StepGroup(rows: seq<Transaction>, step: int): (g: StepRate)
    requires step in StepColumn(rows)
    ensures g.destTxCountStep == step
    ensures g.destMismatchRate == GroupMean(StepColumn(rows), DestMismatchColumn(rows), step)
    ensures 1 <= g.count <= |rows| && g.count == Count(StepColumn(rows), step) == multiset(StepColumn(rows))[step]
    ensures AllIndicators(DestMismatchColumn(rows)) ==> 0.0 <= g.destMismatchRate <= 1.0
  {
    CountIsMultiplicity(StepColumn(rows), step);
    StepRate(step, GroupMean(StepColumn(rows), DestMismatchColumn(rows), step), Count(StepColumn(rows), step))
  }

  /** One entry per step value, in order of first appearance; the step sort that follows fixes the order. */
  function StepGroups(rows: seq<Transaction>): (g: seq<StepRate>)
    ensures NoDup(g)
    ensures forall i :: 0 <= i < |g| ==> g[i].destTxCountStep in StepColumn(rows) && g[i] == StepGroup(rows, g[i].destTxCountStep)
    ensures forall i :: 0 <= i < |rows| ==> StepGroup(rows, rows[i].destTxCountStep) in g
  {
    var steps := Distinct(StepColumn(rows));
    var groups := seq(|steps|, j requires 0 <= j < |steps| => StepGroup(rows, steps[j]));
    GroupsOfSteps(rows, steps, groups);
    groups
  }

  /** The groups of a duplicate-free list of steps covering every row are distinct and include every row's group. */
  lemma GroupsOfSteps(rows: seq<Transaction>, steps: seq<int>, groups: seq<StepRate>)
    requires NoDup(steps) && forall j :: 0 <= j < |steps| ==> steps[j] in StepColumn(rows)
    requires forall i :: 0 <= i < |rows| ==> rows[i].destTxCountStep in steps
    requires |groups| == |steps| && forall j :: 0 <= j < |steps| ==> groups[j] == StepGroup(rows, steps[j])
    ensures NoDup(groups)
    ensures forall i :: 0 <= i < |rows| ==> StepGroup(rows, rows[i].destTxCountStep) in groups
  {
    forall i, j | 0 <= i < j < |groups| ensures groups[i] != groups[j] {
      assert groups[i].destTxCountStep == steps[i] && groups[j].destTxCountStep == steps[j];
    }
    forall i | 0 <= i < |rows| ensures StepGroup(rows, rows[i].destTxCountStep) in groups {
      var j :| 0 <= j < |steps| && steps[j] == rows[i].destTxCountStep;
      assert groups[j] == StepGroup(rows, rows[i].destTxCountStep);
    }
  }

  lemma ByStepIsTotalPreorder()
    ensures TotalPreorder(ByStep)
  {
  }

  /** One entry per step value present, in ascending step order. */
  function StepMismatchRates(rows: seq<Transaction>): (r: seq<StepRate>)
    ensures forall i, j :: 0 <= i < j < |r| ==> r[i].destTxCountStep < r[j].destTxCountStep
    ensures forall i :: 0 <= i < |r| ==> r[i].destTxCountStep in StepColumn(rows) && r[i] == StepGroup(rows, r[i].destTxCountStep)
    ensures forall i :: 0 <= i < |rows| ==> StepGroup(rows, rows[i].destTxCountStep) in r
  {
    var groups := StepGroups(rows);
    ByStepIsTotalPreorder();
    var r := SortBy(groups, ByStep);
    ReorderedStepGroups(rows, groups, r);
    r
  }

  /** A duplicate-free rearrangement of the step groups, sorted by step, holds one group per step in strictly ascending order, and every row's. */
  lemma ReorderedStepGroups(rows: seq<Transaction>, g: seq<StepRate>, r: seq<StepRate>)
    requires NoDup(r) && SortedBy(r, ByStep) && forall y :: y in r <==> y in g
    requires forall i :: 0 <= i < |g| ==> g[i].destTxCountStep in StepColumn(rows) && g[i] == StepGroup(rows, g[i].destTxCountStep)
    requires forall i :: 0 <= i < |rows| ==> StepGroup(rows, rows[i].destTxCountStep) in g
    ensures forall i, j :: 0 <= i < j < |r| ==> r[i].destTxCountStep < r[j].destTxCountStep
    ensures forall i :: 0 <= i < |r| ==> r[i].destTxCountStep in StepColumn(rows) && r[i] == StepGroup(rows, r[i].destTxCountStep)
    ensures forall i :: 0 <= i < |rows| ==> StepGroup(rows, rows[i].destTxCountStep) in r
  {
    forall i | 0 <= i < |r| ensures r[i].destTxCountStep in StepColumn(rows) && r[i] == StepGroup(rows, r[i].destTxCountStep) {
      assert r[i] in g;
    }
    StepGroupsHaveDistinctSteps(rows, r);
    forall i, j | 0 <= i < j < |r| ensures r[i].destTxCountStep < r[j].destTxCountStep {
      assert ByStep(r[i], r[j]);
    }
  }

  /** Distinct step groups of a table belong to distinct step values. */
  lemma StepGroupsHaveDistinctSteps(rows: seq<Transaction>, r: seq<StepRate>)
    requires NoDup(r)
    requires forall i :: 0 <= i < |r| ==> r[i].destTxCountStep in StepColumn(rows) && r[i] == StepGroup(rows, r[i].destTxCountStep)
    ensures forall i, j :: 0 <= i < j < |r| ==> r[i].destTxCountStep != r[j].destTxCountStep
  {
    forall i, j | 0 <= i < j < |r| ensures r[i].destTxCountStep != r[j].destTxCountStep {
      assert r[i] != r[j];
    }
  }

  function GroupSizes(groups: seq<StepRate>): (c: seq<int>)
    ensures |c| == |groups| && forall i :: 0 <= i < |groups| ==> c[i] == groups[i].count
  {
    seq(|groups|, i requires 0 <= i < |groups| => groups[i].count)
  }

  /** The step column of the aggregated step table (one entry per group), not of the rows. */
  function GroupSteps(groups: seq<StepRate>): (c: seq<int>)
    ensures |c| == |groups| && forall i :: 0 <= i < |groups| ==> c[i] == groups[i].destTxCountStep
  {
    seq(|groups|, i requires 0 <= i < |groups| => groups[i].destTxCountStep)
  }

  /** The group sizes of the step table add up to the number of rows. */
  lemma StepGroupSizesSumToRowCount(rows: seq<Transaction>)
    ensures Total(GroupSizes(StepMismatchRates(rows))) == |rows|
  {
    StepTableSizesSumToRowCount(rows, StepMismatchRates(rows));
  }

  /** In any table holding one group per step value, and every row's group, the group sizes add up to the row count. */
  lemma StepTableSizesSumToRowCount(rows: seq<Transaction>, r: seq<StepRate>)
    requires forall i, j :: 0 <= i < j < |r| ==> r[i].destTxCountStep < r[j].destTxCountStep
    requires forall i :: 0 <= i < |r| ==> r[i].destTxCountStep in StepColumn(rows) && r[i] == StepGroup(rows, r[i].destTxCountStep)
    requires forall i :: 0 <= i < |rows| ==> StepGroup(rows, rows[i].destTxCountStep) in r
    ensures Total(GroupSizes(r)) == |rows|
  {
    var keys, ks := StepColumn(rows), GroupSteps(r);
    forall i | 0 <= i < |r| ensures r[i].count == Count(keys, r[i].destTxCountStep) {
      assert r[i] == StepGroup(rows, r[i].destTxCountStep);
    }
    SizesAreGroupCounts(keys, r);
    forall k | k in keys ensures k in ks {
      var i :| 0 <= i < |keys| && keys[i] == k;
      assert rows[i].destTxCountStep == k;
      var j :| 0 <= j < |r| && r[j] == StepGroup(rows, k);
      assert ks[j] == k;
    }
    assert NoDup(ks) by {
      forall i, j | 0 <= i < j < |ks| ensures ks[i] != ks[j] {
        assert r[i].destTxCountStep < r[j].destTxCountStep;
      }
    }
    SumCountsOfCover(keys, ks);
  }

  lemma {:induction false} SizesAreGroupCounts(keys: seq<int>, groups: seq<StepRate>)
    requires forall i :: 0 <= i < |groups| ==> groups[i].count == Count(keys, groups[i].destTxCountStep)
    ensures Total(GroupSizes(groups)) == SumCounts(keys, GroupSteps(groups))
    decreases |groups|
  {
    if groups != [] {
      var m := |groups| - 1;
      SizesAreGroupCounts(keys, groups[..m]);
      assert GroupSizes(groups)[..m] == GroupSizes(groups[..m]);
      assert GroupSteps(groups)[..m] == GroupSteps(groups[..m]);
    }
  }

  /** Every per-step rate of a 0/1 column is a proportion, and every group is non-empty. */
  lemma StepMismatchRatesAreProportions(rows: seq<Transaction>)
    requires AllIndicators(DestMismatchColumn(rows))
    ensures forall e :: e in StepMismatchRates(rows) ==> 0.0 <= e.destMismatchRate <= 1.0 && e.count >= 1
  {
    var r := StepMismatchRates(rows);
    forall e | e in r ensures 0.0 <= e.destMismatchRate <= 1.0 && e.count >= 1 {
      var i :| 0 <= i < |r| && r[i] == e;
    }
  }

  // ---------------------------------------------------------------------
  // Either / both / single-side mismatch rates and counts (plots.py:129-141)
  // ---------------------------------------------------------------------

  /** A rate (`mean`) and a count (`sum`) of one mismatch category. */
  datatype Share = Share(rate: Metric, count: int)

  datatype MismatchBreakdown = MismatchBreakdown(either: Share, both: Share, originOnly: Share, destOnly: Share)

  function ShareOf(col: seq<int>): (s: Share)
    ensures |col| > 0 ==> s.rate == Value(s.count as real / |col| as real)
    ensures |col| == 0 ==> s.rate == NaN && s.count == 0
    ensures AllIndicators(col) ==> s.count == Count(col, 1)
  {
    assert AllIndicators(col) ==> Total(col) == Count(col, 1) by {
      if AllIndicators(col) {
        TotalOfIndicatorsCountsOnes(col);
      }
    }
    Share(Mean(col), Total(col))
  }

  /**
   The `rates` and `counts` dictionaries of Plot V: every count is the number of
   rows in its category (for "Either" and "Both" when their columns hold 0/1),
   and every rate is its count over the row count.
   */
  function Breakdown(rows: seq<Transaction>): (b: MismatchBreakdown)
    ensures |rows| > 0 ==>
      && b.either.rate == Value(b.either.count as real / |rows| as real)
      && b.both.rate == Value(b.both.count as real / |rows| as real)
      && b.originOnly.rate == Value(b.originOnly.count as real / |rows| as real)
      && b.destOnly.rate == Value(b.destOnly.count as real / |rows| as real)
    ensures |rows| == 0 ==> b.either.rate.NaN? && b.both.rate.NaN? && b.originOnly.rate.NaN? && b.destOnly.rate.NaN?
    ensures 0 <= b.originOnly.count <= |rows| && 0 <= b.destOnly.count <= |rows|
    ensures b.originOnly.count == Count(OriginOnlyColumn(rows), 1)
    ensures b.destOnly.count == Count(DestOnlyColumn(rows), 1)
    ensures AllIndicators(EitherColumn(rows)) ==> b.either.count == Count(EitherColumn(rows), 1)
    ensures AllIndicators(BothColumn(rows)) ==> b.both.count == Count(BothColumn(rows), 1)
  {
    TotalOfIndicators(OriginOnlyColumn(rows));
    TotalOfIndicators(DestOnlyColumn(rows));
    MismatchBreakdown(
      ShareOf(EitherColumn(rows)),
      ShareOf(BothColumn(rows)),
      ShareOf(OriginOnlyColumn(rows)),
      ShareOf(DestOnlyColumn(rows)))
  }

  /** `both_mismatch` is a 0/1 flag that is only set when both sides mismatch. */
  predicate BothIsConsistent(t: Transaction)
  {
    IsIndicator(t.bothMismatch) && (t.bothMismatch == 1 ==> t.originMismatch == 1 && t.destMismatch == 1)
  }

  /** The precomputed `either_mismatch` and `both_mismatch` columns agree with the two side flags. */
  predicate SideFlagsAreConsistent(t: Transaction)
  {
    && IsIndicator(t.originMismatch) && IsIndicator(t.destMismatch)
    && t.eitherMismatch == (if t.originMismatch == 1 || t.destMismatch == 1 then 1 else 0)
    && t.bothMismatch == (if t.originMismatch == 1 && t.destMismatch == 1 then 1 else 0)
  }

  /**
   The "Origin only" and "Dest only" row sets are disjoint, every single-side
   rate is a proportion, and with a consistent `both_mismatch` the three
   counts together never exceed the row count.
   */
  lemma SideCountsBounded(rows: seq<Transaction>)
    requires forall i :: 0 <= i < |rows| ==> BothIsConsistent(rows[i])
    ensures forall i :: 0 <= i < |rows| ==> !(OriginOnlyFlag(rows[i]) == 1 && DestOnlyFlag(rows[i]) == 1)
    ensures var b := Breakdown(rows);
      0 <= b.originOnly.count && 0 <= b.destOnly.count && 0 <= b.both.count &&
      b.originOnly.count + b.destOnly.count + b.both.count <= |rows|
  {
    TotalOfIndicators(OriginOnlyColumn(rows));
    TotalOfIndicators(DestOnlyColumn(rows));
    TotalOfIndicators(BothColumn(rows));
    TotalsOfExclusiveColumns(OriginOnlyColumn(rows), DestOnlyColumn(rows), BothColumn(rows));
  }

  /** Single-side rates are proportions whatever the input flags hold. */
  lemma SingleSideRatesAreProportions(rows: seq<Transaction>)
    requires |rows| > 0
    ensures var b := Breakdown(rows);
      b.originOnly.rate.Value? && 0.0 <= b.originOnly.rate.v <= 1.0 &&
      b.destOnly.rate.Value? && 0.0 <= b.destOnly.rate.v <= 1.0
  {
    var o, d := OriginOnlyColumn(rows), DestOnlyColumn(rows);
    TotalOfIndicators(o);
    TotalOfIndicators(d);
    ProportionBounds(Total(o), |rows|);
    ProportionBounds(Total(d), |rows|);
  }

  /** With consistent flags, "Either" splits into origin only, dest only and both. */
  lemma EitherDecomposes(rows: seq<Transaction>)
    requires forall i :: 0 <= i < |rows| ==> SideFlagsAreConsistent(rows[i])
    ensures var b := Breakdown(rows);
      b.either.count == b.originOnly.count + b.destOnly.count + b.both.count
  {
    TotalOfRowwiseSum(EitherColumn(rows), OriginOnlyColumn(rows), DestOnlyColumn(rows), BothColumn(rows));
  }

  // ---------------------------------------------------------------------
  // High-risk tagging at a mule-score threshold (plots.py:201-213)
  // ---------------------------------------------------------------------

  /** `df.loc[df['mule_score_w'] >= threshold]`: the rows at or above the threshold, in table order. */
  function HighRisk(rows: seq<Transaction>, threshold: real): (r: seq<Transaction>)
    ensures |r| <= |rows|
    ensures forall i :: 0 <= i < |r| ==> r[i] in rows && r[i].muleScoreW >= threshold
    ensures forall i :: 0 <= i < |rows| && rows[i].muleScoreW >= threshold ==> rows[i] in r
    ensures forall x :: multiset(r)[x] == if x.muleScoreW >= threshold then multiset(rows)[x] else 0
    decreases |rows|
  {
    if rows == [] then []
    else
      var m := |rows| - 1;
      assert rows == rows[..m] + [rows[m]];
      var rest := HighRisk(rows[..m], threshold);
      if rows[m].muleScoreW >= threshold then rest + [rows[m]] else rest
  }

  datatype HighRiskSummary = HighRiskSummary(highRiskCount: nat, fraudInHighRisk: int)

  /** `high_risk_count` and `fraud_in_high_risk`. */
  function HighRiskTagging(rows: seq<Transaction>, threshold: real): (s: HighRiskSummary)
    ensures s.highRiskCount == |HighRisk(rows, threshold)| <= |rows|
    ensures AllIndicators(FraudColumn(rows)) ==> s.fraudInHighRisk == Count(FraudColumn(HighRisk(rows, threshold)), 1)
    ensures (forall i :: 0 <= i < |rows| ==> rows[i].muleScoreW >= threshold) ==> s.highRiskCount == |rows|
    ensures (forall i :: 0 <= i < |rows| ==> rows[i].muleScoreW < threshold) ==> s.highRiskCount == 0 && s.fraudInHighRisk == 0
  {
    var hr := HighRisk(rows, threshold);
    assert (forall i :: 0 <= i < |rows| ==> rows[i].muleScoreW >= threshold) ==> multiset(hr) == multiset(rows);
    assert (forall i :: 0 <= i < |rows| ==> rows[i].muleScoreW < threshold) ==> hr == [];
    assert AllIndicators(FraudColumn(rows)) ==> Total(FraudColumn(hr)) == Count(FraudColumn(hr), 1) by {
      if AllIndicators(FraudColumn(rows)) {
        HighRiskFraudFlagsAreIndicators(rows, threshold);
        TotalOfIndicatorsCountsOnes(FraudColumn(hr));
      }
    }
    HighRiskSummary(|hr|, Total(FraudColumn(hr)))
  }

  /** A higher threshold never tags more rows. */
  lemma {:induction false} HighRiskMonotone(rows: seq<Transaction>, t1: real, t2: real)
    requires t1 <= t2
    ensures |HighRisk(rows, t2)| <= |HighRisk(rows, t1)|
    decreases |rows|
  {
    if rows != [] {
      HighRiskMonotone(rows[..|rows| - 1], t1, t2);
    }
  }

  /** The high-risk rows are rows of the table, so a 0/1 label column stays 0/1 on them. */
  lemma HighRiskFraudFlagsAreIndicators(rows: seq<Transaction>, threshold: real)
    requires AllIndicators(FraudColumn(rows))
    ensures AllIndicators(FraudColumn(HighRisk(rows, threshold)))
  {
    var hr := HighRisk(rows, threshold);
    forall i | 0 <= i < |hr| ensures IsIndicator(FraudColumn(hr)[i]) {
      var j :| 0 <= j < |rows| && rows[j] == hr[i];
      assert IsIndicator(FraudColumn(rows)[j]);
    }
  }

  /** With 0/1 labels, the frauds among the high-risk rows are at most their number, which is at most the row count. */
  lemma HighRiskCountsBounded(rows: seq<Transaction>, threshold: real)
    requires AllIndicators(FraudColumn(rows))
    ensures var s := HighRiskTagging(rows, threshold);
      0 <= s.fraudInHighRisk <= s.highRiskCount <= |rows|
  {
    HighRiskFraudFlagsAreIndicators(rows, threshold);
    TotalOfIndicators(FraudColumn(HighRisk(rows, threshold)));
  }

  // ---------------------------------------------------------------------
  // Fraud signal score (plots.py:222-238)
  // ---------------------------------------------------------------------

  /** `dest_tx_count_lifetime`: how many rows of the table share this row's destination. */
  function DestTxCountLifetime(rows: seq<Transaction>, i: nat): (n: nat)
    requires i < |rows|
    ensures 1 <= n <= |rows|
    ensures n == multiset(DestColumn(rows))[rows[i].nameDest]
  {
    assert DestColumn(rows)[i] == rows[i].nameDest;
    CountIsMultiplicity(DestColumn(rows), rows[i].nameDest);
    Count(DestColumn(rows), rows[i].nameDest)
  }

  /** `is_new_dest`: `(dest_tx_count_lifetime == 1).astype(int)`. */
  function NewDestFlag(lifetime: nat): (f: int)
    ensures IsIndicator(f)
    ensures f == 1 <==> lifetime == 1
  {
    if lifetime == 1 then 1 else 0
  }

  /** The seven weighted terms, kept apart from the raw indicator columns they come from. */
  datatype WeightedComponents = WeightedComponents(
    muleScoreWHigh: real,
    bothMismatch: real,
    isDestVelo: real,
    isPassThrough: real,
    isManySenders: real,
    destBurst: real,
    isNewDest: real)

  /** The weighting of plots.py:226-232: weight times the integer flag, or weight when a threshold is met. */
  function Weigh(t: Transaction, isNewDest: int): (c: WeightedComponents)
    ensures (c.muleScoreWHigh == 2.5 <==> t.muleScoreW >= 2.0) && (c.muleScoreWHigh == 0.0 <==> t.muleScoreW < 2.0)
    ensures (c.destBurst == 1.0 <==> t.destTxCountStep >= 3) && (c.destBurst == 0.0 <==> t.destTxCountStep < 3)
    ensures IsIndicator(t.bothMismatch) ==> c.bothMismatch == 0.0 || c.bothMismatch == 2.5
    ensures IsIndicator(t.isDestHighVelocity) ==> c.isDestVelo == 0.0 || c.isDestVelo == 2.0
    ensures IsIndicator(t.isPassThrough) ==> c.isPassThrough == 0.0 || c.isPassThrough == 1.0
    ensures IsIndicator(t.isManySenders) ==> c.isManySenders == 0.0 || c.isManySenders == 1.0
    ensures IsIndicator(isNewDest) ==> c.isNewDest == 0.0 || c.isNewDest == 1.0
    ensures ScoreFlagsAreIndicators(t) && IsIndicator(isNewDest) ==> WithinWeights(c)
  {
    WeightedComponents(
      muleScoreWHigh := 2.5 * (if t.muleScoreW >= 2.0 then 1.0 else 0.0),
      bothMismatch := 2.5 * t.bothMismatch as real,
      isDestVelo := 2.0 * t.isDestHighVelocity as real,
      isPassThrough := 1.0 * t.isPassThrough as real,
      isManySenders := 1.0 * t.isManySenders as real,
      destBurst := 1.0 * (if t.destTxCountStep >= 3 then 1.0 else 0.0),
      isNewDest := 1.0 * isNewDest as real)
  }

  /** Every weighted term lies between 0 and its weight. */
  predicate WithinWeights(c: WeightedComponents)
  {
    && 0.0 <= c.muleScoreWHigh <= 2.5 && 0.0 <= c.bothMismatch <= 2.5 && 0.0 <= c.isDestVelo <= 2.0
    && 0.0 <= c.isPassThrough <= 1.0 && 0.0 <= c.isManySenders <= 1.0 && 0.0 <= c.destBurst <= 1.0
    && 0.0 <= c.isNewDest <= 1.0
  }

  /** `df[fraud_components].sum(axis=1)`: terms within their weights sum to between 0 and 11. */
  function ComponentSum(c: WeightedComponents): (r: real)
    ensures WithinWeights(c) ==> 0.0 <= r <= 11.0
  {
    c.muleScoreWHigh + c.bothMismatch + c.isDestVelo + c.isPassThrough + c.isManySenders + c.destBurst + c.isNewDest
  }

  /** The `fraud_signal_score` of row `i`. */
  function FraudSignalScore(rows: seq<Transaction>, i: nat): (r: real)
    requires i < |rows|
    ensures ScoreFlagsAreIndicators(rows[i]) ==> r == IndicatorScore(ActiveIndicators(rows, i))
  {
    var newDest := DestTxCountLifetime(rows, i) == 1;
    assert ActiveIndicators(rows, i) == RowIndicators(rows[i], newDest);
    assert ScoreFlagsAreIndicators(rows[i]) ==>
      ComponentSum(Weigh(rows[i], if newDest then 1 else 0)) == IndicatorScore(RowIndicators(rows[i], newDest)) by {
      if ScoreFlagsAreIndicators(rows[i]) {
        WeighedSumIsIndicatorScore(rows[i], newDest);
      }
    }
    ComponentSum(Weigh(rows[i], NewDestFlag(DestTxCountLifetime(rows, i))))
  }

  /** Which of the seven risk indicators a row shows. */
  datatype Indicators = Indicators(
    highMuleScore: bool,
    bothSidesMismatch: bool,
    destHighVelocity: bool,
    passThrough: bool,
    manySenders: bool,
    destBurst: bool,
    newDest: bool)

  /** Reference reading of the heuristic: each indicator that holds contributes its weight. */
  function IndicatorScore(a: Indicators): (s: real)
    ensures 0.0 <= s <= 11.0
  {
    (if a.highMuleScore then 2.5 else 0.0) +
    (if a.bothSidesMismatch then 2.5 else 0.0) +
    (if a.destHighVelocity then 2.0 else 0.0) +
    (if a.passThrough then 1.0 else 0.0) +
    (if a.manySenders then 1.0 else 0.0) +
    (if a.destBurst then 1.0 else 0.0) +
    (if a.newDest then 1.0 else 0.0)
  }

  /** The indicators of row `i`, read off its columns and its destination's lifetime count. */
  function ActiveIndicators(rows: seq<Transaction>, i: nat): (a: Indicators)
    requires i < |rows|
    ensures a.newDest <==> forall j :: 0 <= j < |rows| && j != i ==> rows[j].nameDest != rows[i].nameDest
  {
    var dests := DestColumn(rows);
    CountOneIffUnique(dests, i);
    assert (forall j :: 0 <= j < |dests| && j != i ==> dests[j] != dests[i]) <==>
      (forall j :: 0 <= j < |rows| && j != i ==> rows[j].nameDest != rows[i].nameDest);
    RowIndicators(rows[i], DestTxCountLifetime(rows, i) == 1)
  }

  /** The indicators a row shows, given whether its destination is new. */
  function RowIndicators(t: Transaction, newDest: bool): Indicators
  {
    Indicators(
      t.muleScoreW >= 2.0,
      t.bothMismatch == 1,
      t.isDestHighVelocity == 1,
      t.isPassThrough == 1,
      t.isManySenders == 1,
      t.destTxCountStep >= 3,
      newDest)
  }

  lemma WeighedSumIsIndicatorScore(t: Transaction, newDest: bool)
    requires ScoreFlagsAreIndicators(t)
    ensures ComponentSum(Weigh(t, if newDest then 1 else 0)) == IndicatorScore(RowIndicators(t, newDest))
  {
  }

  /** The boolean-valued input columns of the score hold 0 or 1. */
  predicate ScoreFlagsAreIndicators(t: Transaction)
  {
    IsIndicator(t.bothMismatch) && IsIndicator(t.isDestHighVelocity) &&
    IsIndicator(t.isPassThrough) && IsIndicator(t.isManySenders)
  }

  /** Every indicator present in `a` is present in `b`. */
  predicate Covers(b: Indicators, a: Indicators)
  {
    (a.highMuleScore ==> b.highMuleScore) && (a.bothSidesMismatch ==> b.bothSidesMismatch) &&
    (a.destHighVelocity ==> b.destHighVelocity) && (a.passThrough ==> b.passThrough) &&
    (a.manySenders ==> b.manySenders) && (a.destBurst ==> b.destBurst) && (a.newDest ==> b.newDest)
  }

  /**
   For 0/1 flags every weighted term is 0 or its weight, it is its weight
   exactly when its indicator holds, and the score is the weight of the
   indicators that hold.
   */
  lemma WeightedTermsFollowIndicators(rows: seq<Transaction>, i: nat)
    requires i < |rows| && ScoreFlagsAreIndicators(rows[i])
    ensures var c := Weigh(rows[i], NewDestFlag(DestTxCountLifetime(rows, i)));
      var a := ActiveIndicators(rows, i);
      && c.muleScoreWHigh == (if a.highMuleScore then 2.5 else 0.0)
      && c.bothMismatch == (if a.bothSidesMismatch then 2.5 else 0.0)
      && c.isDestVelo == (if a.destHighVelocity then 2.0 else 0.0)
      && c.isPassThrough == (if a.passThrough then 1.0 else 0.0)
      && c.isManySenders == (if a.manySenders then 1.0 else 0.0)
      && c.destBurst == (if a.destBurst then 1.0 else 0.0)
      && c.isNewDest == (if a.newDest then 1.0 else 0.0)
    ensures FraudSignalScore(rows, i) == IndicatorScore(ActiveIndicators(rows, i))
  {
  }

  /** For 0/1 flags the score lies in [0, 11]. */
  lemma FraudSignalScoreBounds(rows: seq<Transaction>, i: nat)
    requires i < |rows| && ScoreFlagsAreIndicators(rows[i])
    ensures 0.0 <= FraudSignalScore(rows, i) <= 11.0
  {
    WeightedTermsFollowIndicators(rows, i);
  }

  /** Turning on more indicators never lowers the score, and any newly active one raises it strictly. */
  lemma IndicatorScoreMonotone(a: Indicators, b: Indicators)
    requires Covers(b, a)
    ensures IndicatorScore(a) <= IndicatorScore(b)
    ensures a != b ==> IndicatorScore(a) < IndicatorScore(b)
  {
  }

  /** A table's destination column is the concatenation of its parts' columns. */
  lemma DestColumnAppend(a: seq<Transaction>, b: seq<Transaction>)
    ensures DestColumn(a + b) == DestColumn(a) + DestColumn(b)
  {
    assert forall i :: 0 <= i < |a + b| ==> DestColumn(a + b)[i] == (DestColumn(a) + DestColumn(b))[i];
  }

  /** Taking one row out of the middle takes its destination out of the column's multiset. */
  lemma DestColumnSplit(front: seq<Transaction>, x: Transaction, back: seq<Transaction>)
    ensures multiset(DestColumn(front + [x] + back)) == multiset(DestColumn(front + back)) + multiset{x.nameDest}
  {
    DestColumnAppend(front + [x], back);
    DestColumnAppend(front, [x]);
    DestColumnAppend(front, back);
    assert DestColumn([x]) == [x.nameDest];
  }

  /** Removing the last row of one arrangement and a matching row of another leaves arrangements of the same rows. */
  lemma RemoveMatching<T>(s: seq<T>, t: seq<T>, j: nat)
    requires multiset(s) == multiset(t) && |s| > 0 && j < |t| && t[j] == s[|s| - 1]
    ensures multiset(s[..|s| - 1]) == multiset(t[..j] + t[j + 1..])
  {
    var m := |s| - 1;
    assert s == s[..m] + [s[m]];
    assert t == t[..j] + [t[j]] + t[j + 1..];
    assert multiset(s) == multiset(s[..m]) + multiset{s[m]};
    assert multiset(t) == multiset(t[..j] + t[j + 1..]) + multiset{t[j]};
    var x, rest, rest2 := multiset{s[m]}, multiset(s[..m]), multiset(t[..j] + t[j + 1..]);
    assert rest == (rest + x) - x && rest2 == (rest2 + x) - x;
  }

  /** Rearranging the rows rearranges the destination column the same way. */
  lemma {:induction false} DestColumnPermutation(rows: seq<Transaction>, rows2: seq<Transaction>)
    requires multiset(rows) == multiset(rows2)
    ensures multiset(DestColumn(rows)) == multiset(DestColumn(rows2))
    decreases |rows|
  {
    if rows == [] {
      assert |rows2| == |multiset(rows2)| == 0;
    } else {
      var m := |rows| - 1;
      var x := rows[m];
      assert x in multiset(rows2);
      var j :| 0 <= j < |rows2| && rows2[j] == x;
      var front, back := rows2[..j], rows2[j + 1..];
      RemoveMatching(rows, rows2, j);
      DestColumnPermutation(rows[..m], front + back);
      assert rows == rows[..m] + [x] + [];
      DestColumnSplit(rows[..m], x, []);
      assert rows[..m] + [] == rows[..m];
      assert rows2 == front + [x] + back;
      DestColumnSplit(front, x, back);
    }
  }

  /** A row's score depends on the table only through its multiset of rows, not on their order. */
  lemma FraudSignalScoreIgnoresRowOrder(rows: seq<Transaction>, rows2: seq<Transaction>, i: nat, j: nat)
    requires i < |rows| && j < |rows2| && multiset(rows) == multiset(rows2) && rows[i] == rows2[j]
    ensures FraudSignalScore(rows, i) == FraudSignalScore(rows2, j)
  {
    DestColumnPermutation(rows, rows2);
    CountIsMultiplicity(DestColumn(rows), rows[i].nameDest);
    CountIsMultiplicity(DestColumn(rows2), rows2[j].nameDest);
    assert DestTxCountLifetime(rows, i) == DestTxCountLifetime(rows2, j);
  }

  /** groupby('nameDest').transform('count'): one tally pass over the table, then one lookup per row. */
  method CountByDest(rows: seq<Transaction>) returns (counts: seq<nat>)
    ensures |counts| == |rows|
    ensures forall i :: 0 <= i < |rows| ==> counts[i] == DestTxCountLifetime(rows, i)
  {
    var dests := DestColumn(rows);
    var tally: map<string, nat> := map[];
    var i := 0;
    while i < |rows|
      invariant 0 <= i <= |rows|
      invariant forall k :: k in tally <==> k in dests[..i]
      invariant forall k :: k in tally ==> tally[k] == Count(dests[..i], k)
    {
      var k := dests[i];
      assert dests[..i + 1] == dests[..i] + [k];
      forall x ensures Count(dests[..i + 1], x) == Count(dests[..i], x) + (if x == k then 1 else 0) {
        CountAppendRow(dests[..i], k, x);
      }
      tally := tally[k := (if k in tally then tally[k] else 0) + 1];
      i := i + 1;
    }
    assert dests[..i] == dests;
    counts := seq(|rows|, j requires 0 <= j < |rows| => tally[dests[j]]);
  }

  /**
   The feature table as the score section grows it, one derived column at a
   time. The raw columns (`rows`) are never overwritten: each weighted term
   lives in `components`, beside the flag it weighs.
   */
  class ScoreFrame {
    const rows: seq<Transaction>
    var destTxCountLifetime: seq<nat>
    var isNewDest: seq<int>
    var components: seq<WeightedComponents>
    var fraudSignalScore: seq<real>

    constructor (rows: seq<Transaction>)
      ensures this.rows == rows
      ensures destTxCountLifetime == [] && isNewDest == [] && components == [] && fraudSignalScore == []
    {
      this.rows := rows;
      destTxCountLifetime, isNewDest, components, fraudSignalScore := [], [], [], [];
    }

    /** plots.py:222 */
    method AddDestTxCountLifetime()
      modifies this
      ensures |destTxCountLifetime| == |rows|
      ensures forall i :: 0 <= i < |rows| ==> destTxCountLifetime[i] == DestTxCountLifetime(rows, i)
      ensures isNewDest == old(isNewDest) && components == old(components) && fraudSignalScore == old(fraudSignalScore)
    {
      destTxCountLifetime := CountByDest(rows);
    }

    /** plots.py:223 */
    method AddIsNewDest()
      requires |destTxCountLifetime| == |rows|
      modifies this
      ensures destTxCountLifetime == old(destTxCountLifetime) && components == old(components) && fraudSignalScore == old(fraudSignalScore)
      ensures |isNewDest| == |rows|
      ensures forall i :: 0 <= i < |rows| ==> isNewDest[i] == NewDestFlag(destTxCountLifetime[i])
    {
      var lifetime := destTxCountLifetime;
      isNewDest := seq(|rows|, i requires 0 <= i < |rows| => NewDestFlag(lifetime[i]));
    }

    /** plots.py:226-232 */
    method AddWeightedComponents()
      requires |isNewDest| == |rows|
      modifies this
      ensures destTxCountLifetime == old(destTxCountLifetime) && isNewDest == old(isNewDest) && fraudSignalScore == old(fraudSignalScore)
      ensures |components| == |rows|
      ensures forall i :: 0 <= i < |rows| ==> components[i] == Weigh(rows[i], isNewDest[i])
    {
      var newDest := isNewDest;
      components := seq(|rows|, i requires 0 <= i < |rows| => Weigh(rows[i], newDest[i]));
    }

    /** plots.py:235-238 */
    method AddFraudSignalScore()
      requires |components| == |rows|
      modifies this
      ensures destTxCountLifetime == old(destTxCountLifetime) && isNewDest == old(isNewDest) && components == old(components)
      ensures |fraudSignalScore| == |rows|
      ensures forall i :: 0 <= i < |rows| ==> fraudSignalScore[i] == ComponentSum(components[i])
    {
      var weighted := components;
      fraudSignalScore := seq(|rows|, i requires 0 <= i < |rows| => ComponentSum(weighted[i]));
    }

    /** The whole score section, in the script's order. */
    method DeriveFraudSignalScore()
      modifies this
      ensures |destTxCountLifetime| == |isNewDest| == |components| == |fraudSignalScore| == |rows|
      ensures forall i :: 0 <= i < |rows| ==>
        && destTxCountLifetime[i] == DestTxCountLifetime(rows, i)
        && isNewDest[i] == NewDestFlag(destTxCountLifetime[i])
        && components[i] == Weigh(rows[i], isNewDest[i])
        && fraudSignalScore[i] == FraudSignalScore(rows, i)
    {
      AddDestTxCountLifetime();
      AddIsNewDest();
      AddWeightedComponents();
      AddFraudSignalScore();
    }
  }
}
