/** The calibration part of `aggregateExperiment`: five probability bins, Brier score and expected
    calibration error, over exact reals. */
module Calibration {
  import opened Ordering
  import opened Sums
  import opened Trials
  import opened Wrappers

  /** A classifier probability that the weak model passes, and whether its baseline did (1.0 or 0.0). */
  datatype Row = Row(probability: real, passed: real)

  predicate ValidRow(row: Row) { 0.0 <= row.probability <= 1.0 && (row.passed == 0.0 || row.passed == 1.0) }

  ghost predicate ValidRows(rows: seq<Row>) { forall i :: 0 <= i < |rows| ==> ValidRow(rows[i]) }

  const BINS: nat := 5

  function Lower(bin: nat): real { bin as real * 0.2 }

  function Upper(bin: nat): real { (bin + 1) as real * 0.2 }

  /** The last bin includes its upper end. */
  function InBin(bin: nat): Row -> bool {
    (row: Row) => row.probability >= Lower(bin)
      && (if bin == 4 then row.probability <= Upper(bin) else row.probability < Upper(bin))
  }

  function Selected(rows: seq<Row>, bin: nat): seq<Row> { Filter(InBin(bin), rows) }

  const PROBABILITY: Row -> real := (row: Row) => row.probability
  const PASS_LABEL: Row -> real := (row: Row) => row.passed
  const RESIDUAL: Row -> real := (row: Row) => row.probability - row.passed
  const ONE: Row -> real := (_: Row) => 1.0

  function Mean(f: Row -> real, rows: seq<Row>): Option<real> {
    if rows == [] then None else Some(Sum(f, rows) / |rows| as real)
  }

  function Brier(rows: seq<Row>): Option<real> { Mean(Square(RESIDUAL), rows) }

  /** One bin's share of the expected calibration error. */
  function Gap(rows: seq<Row>, bin: nat): real {
    var selected := Selected(rows, bin);
    if selected == [] || rows == [] then 0.0
    else
      var gap := Mean(PROBABILITY, selected).value - Mean(PASS_LABEL, selected).value;
      |selected| as real / |rows| as real * Absolute(gap)
  }

  function GapsTo(rows: seq<Row>, bins: nat): real {
    if bins == 0 then 0.0 else GapsTo(rows, bins - 1) + Gap(rows, bins - 1)
  }

  function ExpectedError(rows: seq<Row>): Option<real> {
    if rows == [] then None else Some(GapsTo(rows, BINS))
  }

  // ----- the bins partition the rows -----

  /** Every probability in [0, 1] lies in exactly one bin. */
  lemma ExactlyOneBin(row: Row)
    requires ValidRow(row)
    ensures exists bin: nat :: bin < BINS && InBin(bin)(row)
    ensures forall a: nat, b: nat :: a < BINS && b < BINS && InBin(a)(row) && InBin(b)(row) ==> a == b
  {
    var p := row.probability;
    var bin: nat := if p < 0.2 then 0 else if p < 0.4 then 1 else if p < 0.6 then 2 else if p < 0.8 then 3 else 4;
    assert InBin(bin)(row);
  }

  /** What the bins below `bins` contribute to a sum. */
  function SumOfBins(f: Row -> real, rows: seq<Row>, bins: nat): real {
    if bins == 0 then 0.0 else SumOfBins(f, rows, bins - 1) + Sum(f, Selected(rows, bins - 1))
  }

  lemma SelectedSnoc(f: Row -> real, rows: seq<Row>, row: Row, bin: nat)
    ensures Sum(f, Selected(rows + [row], bin))
      == Sum(f, Selected(rows, bin)) + (if InBin(bin)(row) then f(row) else 0.0)
  {
    FilterSnoc(InBin(bin), rows, row);
    if InBin(bin)(row) {
      SumSnoc(f, Selected(rows, bin), row);
    } else {
      assert Selected(rows + [row], bin) == Selected(rows, bin);
    }
  }

  lemma {:induction false} BinsSnoc(f: Row -> real, rows: seq<Row>, row: Row, bins: nat)
    requires bins <= BINS && ValidRow(row)
    ensures SumOfBins(f, rows + [row], bins) == SumOfBins(f, rows, bins) +
      (if exists bin: nat :: bin < bins && InBin(bin)(row) then f(row) else 0.0)
  {
    if bins > 0 {
      BinsSnoc(f, rows, row, bins - 1);
      SelectedSnoc(f, rows, row, bins - 1);
      ExactlyOneBin(row);
    }
  }

  /** The bins partition the rows: any total over the rows is the total over the bins. */
  lemma {:induction false} Partition(f: Row -> real, rows: seq<Row>)
    requires ValidRows(rows)
    ensures SumOfBins(f, rows, BINS) == Sum(f, rows)
  {
    if rows == [] {
      NoRows(f, BINS);
    } else {
      var init, last := rows[..|rows| - 1], rows[|rows| - 1];
      assert rows == init + [last];
      Partition(f, init);
      BinsSnoc(f, init, last, BINS);
      ExactlyOneBin(last);
    }
  }

  lemma {:induction false} NoRows(f: Row -> real, bins: nat)
    ensures SumOfBins(f, [], bins) == 0.0
  {
    if bins > 0 {
      NoRows(f, bins - 1);
    }
  }

  // ----- the error measures -----

  lemma {:induction false} ResidualSum(rows: seq<Row>)
    ensures Sum(RESIDUAL, rows) == Sum(PROBABILITY, rows) - Sum(PASS_LABEL, rows)
  {
    if rows != [] {
      ResidualSum(rows[..|rows| - 1]);
    }
  }

  /** A bin's gap is its absolute residual total over the number of rows. */
  lemma GapIs(rows: seq<Row>, bin: nat)
    requires rows != []
    ensures Gap(rows, bin) == Absolute(Sum(RESIDUAL, Selected(rows, bin))) / |rows| as real
  {
    var selected := Selected(rows, bin);
    hide Selected;
    if selected != [] {
      hide Sum;
      ResidualSum(selected);
      GapArithmetic(|rows| as real, |selected| as real, Sum(PROBABILITY, selected), Sum(PASS_LABEL, selected));
      assert Sum(RESIDUAL, selected) == Sum(PROBABILITY, selected) - Sum(PASS_LABEL, selected);
    } else {
      assert Absolute(Sum(RESIDUAL, selected)) == 0.0;
    }
  }

  lemma GapArithmetic(n: real, k: real, p: real, l: real)
    requires n > 0.0 && k > 0.0
    ensures k / n * Absolute(p / k - l / k) == Absolute(p - l) / n
  {
    assert p / k - l / k == (p - l) / k;
    var d := (p - l) / k;
    assert d * k == p - l;
    assert k * Absolute(d) == Absolute(p - l);
    assert k / n * Absolute(d) == (k * Absolute(d)) / n;
  }

  lemma {:induction false} GapsBounds(rows: seq<Row>, bins: nat)
    requires rows != []
    ensures Absolute(SumOfBins(RESIDUAL, rows, bins)) / |rows| as real <= GapsTo(rows, bins)
    ensures GapsTo(rows, bins) <= SumOfBins(Magnitude(RESIDUAL), rows, bins) / |rows| as real
  {
    if bins > 0 {
      GapsBounds(rows, bins - 1);
      GapIs(rows, bins - 1);
      TriangleInequality(RESIDUAL, Selected(rows, bins - 1));
      var n := |rows| as real;
      AddQuotients(SumOfBins(RESIDUAL, rows, bins - 1), Sum(RESIDUAL, Selected(rows, bins - 1)), n);
      DivideMonotone(Absolute(Sum(RESIDUAL, Selected(rows, bins - 1))),
        Sum(Magnitude(RESIDUAL), Selected(rows, bins - 1)), n);
      AddDivided(SumOfBins(Magnitude(RESIDUAL), rows, bins - 1), Sum(Magnitude(RESIDUAL), Selected(rows, bins - 1)), n);
    }
  }

  lemma AddQuotients(x: real, y: real, n: real)
    requires n > 0.0
    ensures Absolute(x + y) / n <= Absolute(x) / n + Absolute(y) / n
  {
    DivideMonotone(Absolute(x + y), Absolute(x) + Absolute(y), n);
    AddDivided(Absolute(x), Absolute(y), n);
  }

  lemma {:induction false} SumOfOnes(rows: seq<Row>)
    ensures Sum(ONE, rows) == |rows| as real
  {
    if rows != [] {
      SumOfOnes(rows[..|rows| - 1]);
    }
  }

  /** The mean absolute residual lies between the two error measures. */
  function MeanResidual(rows: seq<Row>): real
    requires rows != []
  {
    Sum(Magnitude(RESIDUAL), rows) / |rows| as real
  }

  lemma ErrorIsSmaller(rows: seq<Row>)
    requires rows != [] && ValidRows(rows)
    ensures Absolute(Sum(RESIDUAL, rows)) / |rows| as real <= GapsTo(rows, BINS) <= MeanResidual(rows)
  {
    GapsBounds(rows, BINS);
    Partition(RESIDUAL, rows);
    Partition(Magnitude(RESIDUAL), rows);
  }

  lemma SquaredMagnitude(rows: seq<Row>)
    ensures Sum(Square(Magnitude(RESIDUAL)), rows) == Sum(Square(RESIDUAL), rows)
  {
    SumSame(Square(Magnitude(RESIDUAL)), Square(RESIDUAL), rows);
  }

  lemma BrierIsLarger(rows: seq<Row>)
    requires rows != []
    ensures MeanResidual(rows) * MeanResidual(rows) <= Sum(Square(RESIDUAL), rows) / |rows| as real
  {
    hide Sum, Square, Magnitude;
    Quotient(Sum(Magnitude(RESIDUAL), rows), |rows| as real);
    MeanSquare(Magnitude(RESIDUAL), rows, MeanResidual(rows));
    SquaredMagnitude(rows);
    hide MeanResidual;
    DivideBoth(MeanResidual(rows) * MeanResidual(rows), Sum(Square(RESIDUAL), rows), |rows| as real);
  }

  lemma UnitBounds(f: Row -> real, rows: seq<Row>)
    requires rows != [] && forall i :: 0 <= i < |rows| ==> 0.0 <= f(rows[i]) <= 1.0
    ensures 0.0 <= Sum(f, rows) / |rows| as real <= 1.0
  {
    SumNonNegative(f, rows);
    SumLe(f, ONE, rows);
    SumOfOnes(rows);
    DivideMonotone(0.0, Sum(f, rows), |rows| as real);
    DivideMonotone(Sum(f, rows), |rows| as real, |rows| as real);
  }

  lemma SquareUnit(x: real)
    requires -1.0 <= x <= 1.0
    ensures 0.0 <= x * x <= 1.0
  {
    ProductOrder(Absolute(x), 1.0);
  }

  lemma MeanGap(rows: seq<Row>)
    requires rows != []
    ensures Mean(PROBABILITY, rows).Some? && Mean(PASS_LABEL, rows).Some?
    ensures Absolute(Mean(PROBABILITY, rows).value - Mean(PASS_LABEL, rows).value)
      == Absolute(Sum(RESIDUAL, rows)) / |rows| as real
  {
    ResidualSum(rows);
    var n, p, l := |rows| as real, Sum(PROBABILITY, rows), Sum(PASS_LABEL, rows);
    AddDivided(p - l, l, n);
    AbsoluteQuotient(p - l, n);
  }

  /** The gap between mean probability and pass rate is at most the expected calibration error. */
  lemma ErrorCoversMeanGap(rows: seq<Row>)
    requires rows != [] && ValidRows(rows)
    ensures ExpectedError(rows).Some? && Mean(PROBABILITY, rows).Some? && Mean(PASS_LABEL, rows).Some?
    ensures Absolute(Mean(PROBABILITY, rows).value - Mean(PASS_LABEL, rows).value) <= ExpectedError(rows).value
  {
    MeanGap(rows);
    ErrorIsSmaller(rows);
  }

  /** ece^2 <= brier. */
  lemma ErrorSquared(rows: seq<Row>)
    requires rows != [] && ValidRows(rows)
    ensures ExpectedError(rows).Some? && Brier(rows).Some?
    ensures ExpectedError(rows).value * ExpectedError(rows).value <= Brier(rows).value
  {
    hide Sum, GapsTo;
    ErrorIsSmaller(rows);
    AbsoluteQuotient(Sum(RESIDUAL, rows), |rows| as real);
    ProductOrder(GapsTo(rows, BINS), MeanResidual(rows));
    BrierIsLarger(rows);
  }

  lemma SquaresUnit(rows: seq<Row>)
    requires rows != [] && ValidRows(rows)
    ensures 0.0 <= Sum(Square(RESIDUAL), rows) / |rows| as real <= 1.0
  {
    hide Sum;
    forall i | 0 <= i < |rows| ensures 0.0 <= Square(RESIDUAL)(rows[i]) <= 1.0 {
      SquareUnit(RESIDUAL(rows[i]));
    }
    hide Square;
    UnitBounds(Square(RESIDUAL), rows);
  }

  lemma MagnitudesUnit(rows: seq<Row>)
    requires rows != [] && ValidRows(rows)
    ensures 0.0 <= MeanResidual(rows) <= 1.0
  {
    hide Sum;
    UnitBounds(Magnitude(RESIDUAL), rows);
  }

  /** Both measures are in [0, 1]. */
  lemma ErrorRange(rows: seq<Row>)
    requires rows != [] && ValidRows(rows)
    ensures ExpectedError(rows).Some? && Brier(rows).Some?
    ensures 0.0 <= ExpectedError(rows).value <= 1.0 && 0.0 <= Brier(rows).value <= 1.0
  {
    hide Sum, Square, GapsTo, MeanResidual, ValidRows;
    ErrorIsSmaller(rows);
    AbsoluteQuotient(Sum(RESIDUAL, rows), |rows| as real);
    MagnitudesUnit(rows);
    SquaresUnit(rows);
  }

  // ----- what the two measures are -----

  /** How many weak runs passed. */
  function Passes(rows: seq<Row>): nat {
    if rows == [] then 0 else Passes(rows[..|rows| - 1]) + (if rows[|rows| - 1].passed == 1.0 then 1 else 0)
  }

  ghost predicate AllAt(rows: seq<Row>, p: real) { forall i :: 0 <= i < |rows| ==> rows[i].probability == p }

  function Share(n: nat, x: real): real { n as real * x }

  lemma ShareStep(n: nat, x: real)
    ensures Share(n + 1, x) == Share(n, x) + x && Share(0, x) == 0.0
  {
    assert (n + 1) as real == n as real + 1.0;
  }

  lemma {:induction false} PassesAtMost(rows: seq<Row>)
    ensures Passes(rows) <= |rows|
  {
    if rows != [] {
      PassesAtMost(rows[..|rows| - 1]);
    }
  }

  /** A number that depends on a row's label only, summed. */
  lemma {:induction false} LabelSums(f: Row -> real, rows: seq<Row>, won: real, lost: real)
    requires forall i :: 0 <= i < |rows| ==> f(rows[i]) == if rows[i].passed == 1.0 then won else lost
    ensures Passes(rows) <= |rows|
    ensures Sum(f, rows) == Share(Passes(rows), won) + Share(|rows| - Passes(rows), lost)
  {
    PassesAtMost(rows);
    if rows == [] {
      ShareStep(0, won);
      ShareStep(0, lost);
    } else {
      var init, last := rows[..|rows| - 1], rows[|rows| - 1];
      assert rows == init + [last];
      assert f(last) == f(rows[|rows| - 1]);
      PassesAtMost(init);
      assert Passes(rows) == Passes(init) + (if last.passed == 1.0 then 1 else 0);
      hide *;
      LabelSums(f, init, won, lost);
      SumSnoc(f, init, last);
      ShareStep(Passes(init), won);
      ShareStep(|init| - Passes(init), lost);
    }
  }

  function PassRate(rows: seq<Row>): real
    requires rows != []
  {
    Passes(rows) as real / |rows| as real
  }

  /** The squared distance of a probability from a rate, above what the rate itself would score. */
  function Score(p: real, rate: real): real { (p - rate) * (p - rate) + rate * (1.0 - rate) }

  lemma RowSquares(rows: seq<Row>, p: real)
    requires ValidRows(rows) && AllAt(rows, p)
    ensures forall i :: 0 <= i < |rows| ==>
      Square(RESIDUAL)(rows[i]) == if rows[i].passed == 1.0 then (1.0 - p) * (1.0 - p) else p * p
  {
    forall i | 0 <= i < |rows|
      ensures Square(RESIDUAL)(rows[i]) == if rows[i].passed == 1.0 then (1.0 - p) * (1.0 - p) else p * p
    {
      assert ValidRow(rows[i]) && rows[i].probability == p;
    }
  }

  /** The Brier score is a proper score: for rows of one probability it is least if that is the pass rate. */
  lemma ConstantForecast(rows: seq<Row>, p: real)
    requires rows != [] && ValidRows(rows) && AllAt(rows, p)
    ensures Brier(rows) == Some(Score(p, PassRate(rows)))
    ensures Score(p, PassRate(rows)) >= Score(PassRate(rows), PassRate(rows))
  {
    RowSquares(rows, p);
    LabelSums(Square(RESIDUAL), rows, (1.0 - p) * (1.0 - p), p * p);
    ProperScore(|rows|, Passes(rows), p);
    hide *;
  }

  lemma ProperScore(n: nat, k: nat, p: real)
    requires k <= n && n > 0
    ensures (Share(k, (1.0 - p) * (1.0 - p)) + Share(n - k, p * p)) / n as real == Score(p, k as real / n as real)
    ensures Score(p, k as real / n as real) >= Score(k as real / n as real, k as real / n as real)
  {
    var q, m := k as real / n as real, n as real;
    TimesQuotient(k as real, m);
    ShareIs(k, m * q, (1.0 - p) * (1.0 - p));
    ShareIs(n - k, m * (1.0 - q), p * p);
    hide Share, Score;
    Expand(p, q);
    Pull(m, q, (1.0 - p) * (1.0 - p), p * p);
    CancelN(m, Score(p, q));
  }

  lemma ShareIs(n: nat, m: real, x: real)
    requires n as real == m
    ensures Share(n, x) == m * x
  {
  }

  lemma Pull(m: real, q: real, x: real, y: real)
    ensures (m * q) * x + (m * (1.0 - q)) * y == m * (q * x + (1.0 - q) * y)
  {
  }

  lemma Expand(p: real, q: real)
    ensures q * ((1.0 - p) * (1.0 - p)) + (1.0 - q) * (p * p) == Score(p, q)
    ensures Score(p, q) >= Score(q, q)
  {
    assert (1.0 - p) * (1.0 - p) == 1.0 - 2.0 * p + p * p;
    assert q * (1.0 - 2.0 * p + p * p) == q - 2.0 * (q * p) + q * (p * p);
    assert (1.0 - q) * (p * p) == p * p - q * (p * p);
    assert (p - q) * (p - q) == p * p - 2.0 * (q * p) + q * q;
    assert q * (1.0 - q) == q - q * q;
    assert (p - q) * (p - q) >= 0.0;
  }

  lemma CancelN(n: real, x: real)
    requires n > 0.0
    ensures n * x / n == x
  {
  }

  /** Scores of several groups of rows are pooled by their sizes, so rows of one probability determine them. */
  lemma BrierPooled(a: seq<Row>, b: seq<Row>)
    requires a != [] && b != []
    ensures Brier(a + b).Some? && Brier(a).Some? && Brier(b).Some?
    ensures |a + b| as real * Brier(a + b).value == |a| as real * Brier(a).value + |b| as real * Brier(b).value
  {
    SumConcat(Square(RESIDUAL), a, b);
    hide Sum;
    TimesQuotient(Sum(Square(RESIDUAL), a), |a| as real);
    TimesQuotient(Sum(Square(RESIDUAL), b), |b| as real);
    TimesQuotient(Sum(Square(RESIDUAL), a + b), |a + b| as real);
  }

  lemma TimesQuotient(x: real, n: real)
    requires n > 0.0
    ensures n * (x / n) == x
  {
  }

  // ----- which groups calibrate -----

  /** Why a routed decision does not calibrate, or the row it gives. */
  datatype Placement = Undecided | ByFallback | WithoutProbability | WeakUnavailable | Calibrates(row: Row)

  function Place(group: Group): Placement {
    match RoutedDecision(group)
    case None => Undecided
    case Some(decision) =>
      if decision.source.ClassifierFallback? then ByFallback
      else if decision.weakSolveProbability.None? then WithoutProbability
      else if !Evaluated(group.weak) then WeakUnavailable
      else Calibrates(Row(decision.weakSolveProbability.value, if Passed(group.weak) then 1.0 else 0.0))
  }

  function RowsOf(groups: seq<Group>): seq<Row> {
    if groups == [] then []
    else
      var last := Place(groups[|groups| - 1]);
      RowsOf(groups[..|groups| - 1]) + (if last.Calibrates? then [last.row] else [])
  }

  const DECIDED: Group -> bool := (group: Group) => RoutedDecision(group).Some?
  const IS_BY_FALLBACK: Group -> bool := (group: Group) => Place(group).ByFallback?
  const IS_WITHOUT_PROBABILITY: Group -> bool := (group: Group) => Place(group).WithoutProbability?
  const IS_WEAK_UNAVAILABLE: Group -> bool := (group: Group) => Place(group).WeakUnavailable?

  /** How one more group changes the counts. */
  lemma CountsSnoc(groups: seq<Group>, group: Group)
    ensures var all, place := groups + [group], Place(group);
      && RowsOf(all) == RowsOf(groups) + (if place.Calibrates? then [place.row] else [])
      && |Filter(DECIDED, all)| == |Filter(DECIDED, groups)| + (if RoutedDecision(group).Some? then 1 else 0)
      && |Filter(IS_BY_FALLBACK, all)| == |Filter(IS_BY_FALLBACK, groups)| + (if place.ByFallback? then 1 else 0)
      && |Filter(IS_WITHOUT_PROBABILITY, all)|
        == |Filter(IS_WITHOUT_PROBABILITY, groups)| + (if place.WithoutProbability? then 1 else 0)
      && |Filter(IS_WEAK_UNAVAILABLE, all)|
        == |Filter(IS_WEAK_UNAVAILABLE, groups)| + (if place.WeakUnavailable? then 1 else 0)
  {
    assert (groups + [group])[..|groups|] == groups;
    FilterSnoc(DECIDED, groups, group);
    FilterSnoc(IS_BY_FALLBACK, groups, group);
    FilterSnoc(IS_WITHOUT_PROBABILITY, groups, group);
    FilterSnoc(IS_WEAK_UNAVAILABLE, groups, group);
  }

  /** The loop that collects the calibration rows: every routed decision becomes a row or is counted
      under exactly one reason, and decisions with probabilities in [0, 1] give valid rows. */
  method CalibrationRows(groups: seq<Group>)
    returns (rows: seq<Row>, fallback: nat, withoutProbability: nat, weakUnavailable: nat)
    ensures rows == RowsOf(groups)
    ensures |rows| + fallback + withoutProbability + weakUnavailable == |Filter(DECIDED, groups)|
    ensures fallback == |Filter(IS_BY_FALLBACK, groups)|
    ensures withoutProbability == |Filter(IS_WITHOUT_PROBABILITY, groups)|
    ensures weakUnavailable == |Filter(IS_WEAK_UNAVAILABLE, groups)|
  {
    rows, fallback, withoutProbability, weakUnavailable := [], 0, 0, 0;
    for n := 0 to |groups|
      invariant rows == RowsOf(groups[..n])
      invariant |rows| + fallback + withoutProbability + weakUnavailable == |Filter(DECIDED, groups[..n])|
      invariant fallback == |Filter(IS_BY_FALLBACK, groups[..n])|
      invariant withoutProbability == |Filter(IS_WITHOUT_PROBABILITY, groups[..n])|
      invariant weakUnavailable == |Filter(IS_WEAK_UNAVAILABLE, groups[..n])|
    {
      var group := groups[n];
      assert groups[..n + 1] == groups[..n] + [group];
      CountsSnoc(groups[..n], group);
      var decision := RoutedDecision(group);
      if decision.None? {
        continue;
      }
      if decision.value.source.ClassifierFallback? {
        fallback := fallback + 1;
        continue;
      }
      var probability := decision.value.weakSolveProbability;
      if probability.None? {
        withoutProbability := withoutProbability + 1;
        continue;
      }
      if !Evaluated(group.weak) {
        weakUnavailable := weakUnavailable + 1;
        continue;
      }
      rows := rows + [Row(probability.value, if Passed(group.weak) then 1.0 else 0.0)];
    }
    assert groups[..|groups|] == groups;
  }

  /** A recorded probability is in [0, 1]. */
  predicate ProbabilityValid(group: Group) {
    var decision := RoutedDecision(group);
    decision.Some? && decision.value.weakSolveProbability.Some? ==>
      0.0 <= decision.value.weakSolveProbability.value <= 1.0
  }

  /** Probabilities in [0, 1] give rows that every result above applies to. */
  lemma {:induction false} RowsValid(groups: seq<Group>)
    requires forall group :: group in groups ==> ProbabilityValid(group)
    ensures ValidRows(RowsOf(groups))
  {
    if groups != [] {
      assert groups[|groups| - 1] in groups && forall group :: group in groups[..|groups| - 1] ==> group in groups;
      RowsValid(groups[..|groups| - 1]);
    }
  }

  /** The groups whose routed decision has a classifier's probability, with a weak run that passed or failed. */
  ghost predicate HasRow(group: Group, probability: real, outcome: Outcome) {
    && group.routed.Some? && group.routed.value.decision.Some? && group.routed.value.decision.value.source.Classifier?
    && group.routed.value.decision.value.weakSolveProbability == Some(probability)
    && group.weak.Some? && group.weak.value.outcome == outcome && (outcome.Pass? || outcome.Fail?)
  }

  /** A group gives a row exactly if it is one of these; the row has the classifier's probability, and counts
      as passed exactly if the weak run passed. Any other is left out for the first reason that applies. */
  lemma PlaceMeans(group: Group)
    ensures Place(group).Calibrates? <==> exists p, outcome :: HasRow(group, p, outcome)
    ensures forall p, outcome :: HasRow(group, p, outcome) ==>
      Place(group) == Calibrates(Row(p, if outcome == Pass then 1.0 else 0.0))
    ensures Place(group).Undecided? <==> group.routed.None? || group.routed.value.decision.None?
    ensures Place(group).ByFallback? <==>
      group.routed.Some? && group.routed.value.decision.Some? && !group.routed.value.decision.value.source.Classifier?
    ensures Place(group).WithoutProbability? <==>
      && group.routed.Some? && group.routed.value.decision.Some?
      && group.routed.value.decision.value.source.Classifier?
      && group.routed.value.decision.value.weakSolveProbability.None?
  {
    if Place(group).Calibrates? {
      assert HasRow(group, group.routed.value.decision.value.weakSolveProbability.value, group.weak.value.outcome);
    }
  }
}
