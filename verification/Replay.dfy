/** Threshold replay and its random control (src/evaluation/analysis.ts): what a recorded experiment
    would have selected at other thresholds, and what a random choice of as many weak runs would give. */
module Replay {
  import opened Ordering
  import opened Shuffling
  import opened Strings
  import opened Sums
  import opened Trials
  import opened Wrappers
  import Schedule

  /** None without a recorded decision; a fallback always selects strong. */
  function Selected(threshold: real, group: Group): Option<Tier> {
    match RoutedDecision(group)
    case None => None
    case Some(decision) =>
      if IsFallback(group) then Some(Strong)
      else Some(if decision.weakSolveProbability.value >= threshold then Weak else Strong)
  }

  /** A decision that was made without a classifier probability. */
  predicate IsFallback(group: Group) {
    var decision := RoutedDecision(group);
    decision.Some? && (decision.value.source.ClassifierFallback? || decision.value.weakSolveProbability.None?)
  }

  /** The baseline trial of a tier. */
  function Baseline(tier: Option<Tier>, group: Group): Option<Trial> {
    if tier.None? then None else if tier.value.Weak? then group.weak else group.strong
  }

  /** The outcome shown for a group whose given tier was selected. */
  function Shown(tier: Option<Tier>, group: Group): Outcome {
    var baseline := Baseline(tier, group);
    if !Evaluated(baseline) then Unavailable else baseline.value.outcome
  }

  function CostAt(threshold: real, group: Group): Option<real> {
    var baseline := Baseline(Selected(threshold, group), group);
    if baseline.None? || group.routed.None? then None
    else if baseline.value.cost.None? || group.routed.value.classifierCost.None? then None
    else Some(baseline.value.cost.value + group.routed.value.classifierCost.value)
  }

  datatype Row = Row(
    weak: nat, strong: nat, fallback: nat, pass: nat, fail: nat, unavailable: nat,
    cost: Option<real>, costComplete: nat, omittedCost: nat)

  function Selects(threshold: real, tier: Tier): Group -> bool {
    (group: Group) => Selected(threshold, group) == Some(tier)
  }

  function Shows(threshold: real, outcome: Outcome): Group -> bool {
    (group: Group) => Shown(Selected(threshold, group), group) == outcome
  }

  function Priced(threshold: real): Group -> bool { (group: Group) => CostAt(threshold, group).Some? }

  function Price(threshold: real): Group -> real {
    (group: Group) => if CostAt(threshold, group).Some? then CostAt(threshold, group).value else 0.0
  }

  const FALLBACKS: Group -> bool := (group: Group) => IsFallback(group)
  const HAS_DECISION: Group -> bool := (group: Group) => RoutedDecision(group).Some?

  function Count(keep: Group -> bool, groups: seq<Group>): nat { |Filter(keep, groups)| }

  lemma CountSnoc(keep: Group -> bool, groups: seq<Group>, group: Group)
    ensures Count(keep, groups + [group]) == Count(keep, groups) + (if keep(group) then 1 else 0)
  {
    FilterSnoc(keep, groups, group);
  }

  /** The row of one threshold, stated group by group. */
  ghost predicate IsRow(row: Row, threshold: real, groups: seq<Group>) {
    && row.weak == Count(Selects(threshold, Weak), groups)
    && row.strong == Count(Selects(threshold, Strong), groups)
    && row.fallback == Count(FALLBACKS, groups)
    && row.pass == Count(Shows(threshold, Pass), groups)
    && row.fail == Count(Shows(threshold, Fail), groups)
    && row.unavailable == Count(Shows(threshold, Unavailable), groups)
    && row.costComplete == Count(Priced(threshold), groups)
    && row.omittedCost == |groups| - row.costComplete
    && row.cost == if row.omittedCost == 0 then Some(Sum(Price(threshold), groups)) else None
  }

  /** How one more group changes the counters. */
  ghost predicate Counts(row: Row, next: Row, threshold: real, group: Group) {
    var tier := Selected(threshold, group);
    var shown := Shown(tier, group);
    && next.weak == row.weak + (if tier == Some(Weak) then 1 else 0)
    && next.strong == row.strong + (if tier == Some(Strong) then 1 else 0)
    && next.fallback == row.fallback + (if IsFallback(group) then 1 else 0)
    && next.pass == row.pass + (if shown.Pass? then 1 else 0)
    && next.fail == row.fail + (if shown.Fail? then 1 else 0)
    && next.unavailable == row.unavailable + (if shown.Unavailable? then 1 else 0)
    && next.costComplete == row.costComplete + (if CostAt(threshold, group).Some? then 1 else 0)
    && next.omittedCost == row.omittedCost + (if CostAt(threshold, group).Some? then 0 else 1)
    && next.cost == if row.cost.None? || CostAt(threshold, group).None? then None
                    else Some(row.cost.value + CostAt(threshold, group).value)
  }

  lemma {:induction false} CountAtMost(keep: Group -> bool, groups: seq<Group>)
    ensures Count(keep, groups) <= |groups|
  {
    if groups != [] {
      CountAtMost(keep, groups[..|groups| - 1]);
      assert groups == groups[..|groups| - 1] + [groups[|groups| - 1]];
    }
  }

  lemma RowSnoc(row: Row, next: Row, threshold: real, groups: seq<Group>, group: Group)
    requires IsRow(row, threshold, groups) && Counts(row, next, threshold, group)
    ensures IsRow(next, threshold, groups + [group])
  {
    CountSnoc(Selects(threshold, Weak), groups, group);
    CountSnoc(Selects(threshold, Strong), groups, group);
    CountSnoc(FALLBACKS, groups, group);
    CountSnoc(Shows(threshold, Pass), groups, group);
    CountSnoc(Shows(threshold, Fail), groups, group);
    CountSnoc(Shows(threshold, Unavailable), groups, group);
    CountSnoc(Priced(threshold), groups, group);
    CountAtMost(Priced(threshold), groups);
    SumSnoc(Price(threshold), groups, group);
  }

  lemma EmptyRow(threshold: real)
    ensures IsRow(Row(0, 0, 0, 0, 0, 0, Some(0.0), 0, 0), threshold, [])
  {
  }

  /** The tier selected for a decided group, counted. */
  method AddSelection(row: Row, threshold: real, group: Group) returns (next: Row, tier: Tier)
    requires RoutedDecision(group).Some?
    ensures Selected(threshold, group) == Some(tier)
    ensures next == row.(weak := row.weak + (if tier.Weak? then 1 else 0),
                         strong := row.strong + (if tier.Weak? then 0 else 1),
                         fallback := row.fallback + (if IsFallback(group) then 1 else 0))
  {
    next := row;
    var decision := RoutedDecision(group).value;
    tier := Strong;
    if decision.source.ClassifierFallback? || decision.weakSolveProbability.None? {
      next := next.(fallback := next.fallback + 1);
    } else if decision.weakSolveProbability.value >= threshold {
      tier := Weak;
    }
    next := if tier.Weak? then next.(weak := next.weak + 1) else next.(strong := next.strong + 1);
  }

  /** The baseline's outcome, counted. */
  method AddOutcome(row: Row, baseline: Option<Trial>) returns (next: Row)
    ensures next == row.(pass := row.pass + (if Passed(baseline) then 1 else 0),
                         fail := row.fail + (if Evaluated(baseline) && !Passed(baseline) then 1 else 0),
                         unavailable := row.unavailable + (if Evaluated(baseline) then 0 else 1))
  {
    if !Evaluated(baseline) {
      next := row.(unavailable := row.unavailable + 1);
    } else if baseline.value.outcome.Pass? {
      next := row.(pass := row.pass + 1);
    } else {
      next := row.(fail := row.fail + 1);
    }
  }

  /** A group's cost, added unless one is unknown. */
  method AddCost(row: Row, cost: Option<real>) returns (next: Row)
    ensures next == row.(cost := if row.cost.None? || cost.None? then None else Some(row.cost.value + cost.value),
                         costComplete := row.costComplete + (if cost.Some? then 1 else 0),
                         omittedCost := row.omittedCost + (if cost.Some? then 0 else 1))
  {
    if cost.None? {
      next := row.(cost := None, omittedCost := row.omittedCost + 1);
    } else {
      next := row.(cost := if row.cost.None? then None else Some(row.cost.value + cost.value),
                   costComplete := row.costComplete + 1);
    }
  }

  /** One threshold of `replayThresholds`. */
  method ReplayRow(threshold: real, groups: seq<Group>) returns (row: Row)
    ensures IsRow(row, threshold, groups)
  {
    hide IsRow;
    row := Row(0, 0, 0, 0, 0, 0, Some(0.0), 0, 0);
    EmptyRow(threshold);
    assert groups[..0] == [];
    for n := 0 to |groups|
      invariant IsRow(row, threshold, groups[..n])
    {
      var group := groups[n];
      ghost var before := row;
      if RoutedDecision(group).None? {
        row := row.(unavailable := row.unavailable + 1, cost := None, omittedCost := row.omittedCost + 1);
      } else {
        var tier;
        row, tier := AddSelection(row, threshold, group);
        var baseline := if tier.Weak? then group.weak else group.strong;
        row := AddOutcome(row, baseline);
        var baselineCost := if baseline.Some? then baseline.value.cost else None;
        var overhead := group.routed.value.classifierCost;
        var known := baselineCost.Some? && overhead.Some?;
        row := AddCost(row, if known then Some(baselineCost.value + overhead.value) else None);
      }
      assert groups[..n + 1] == groups[..n] + [group];
      RowSnoc(before, row, threshold, groups[..n], group);
    }
    assert groups[..|groups|] == groups;
  }

  // ----- what every row satisfies -----

  lemma {:induction false} CountSplits(a: Group -> bool, b: Group -> bool, c: Group -> bool, groups: seq<Group>)
    requires forall group :: (if c(group) then a(group) != b(group) else !a(group) && !b(group))
    ensures Count(a, groups) + Count(b, groups) == Count(c, groups)
  {
    if groups != [] {
      var init, last := groups[..|groups| - 1], groups[|groups| - 1];
      assert groups == init + [last];
      CountSplits(a, b, c, init);
    }
  }

  const EVERY: Group -> bool := (_: Group) => true

  lemma {:induction false} CountEvery(groups: seq<Group>)
    ensures Count(EVERY, groups) == |groups|
  {
    if groups != [] {
      CountEvery(groups[..|groups| - 1]);
    }
  }

  /** Weak and strong selections make up the groups with a decision; passes, failures and unavailable
      results make up all groups; the cost is known exactly when no group's cost is missing. */
  lemma RowConserves(row: Row, threshold: real, groups: seq<Group>)
    requires IsRow(row, threshold, groups)
    ensures row.weak + row.strong == Count(HAS_DECISION, groups)
    ensures row.pass + row.fail + row.unavailable == |groups|
    ensures row.costComplete + row.omittedCost == |groups|
    ensures row.cost.Some? <==> forall group :: group in groups ==> CostAt(threshold, group).Some?
  {
    CountSplits(Selects(threshold, Weak), Selects(threshold, Strong), HAS_DECISION, groups);
    var evaluated := (group: Group) => !Shown(Selected(threshold, group), group).Unavailable?;
    CountSplits(Shows(threshold, Pass), Shows(threshold, Fail), evaluated, groups);
    CountSplits(evaluated, Shows(threshold, Unavailable), EVERY, groups);
    CountEvery(groups);
    AllPriced(threshold, groups);
  }

  lemma {:induction false} AllPriced(threshold: real, groups: seq<Group>)
    ensures Count(Priced(threshold), groups) == |groups|
      <==> forall group :: group in groups ==> CostAt(threshold, group).Some?
    ensures Count(Priced(threshold), groups) <= |groups|
  {
    if groups != [] {
      var init, last := groups[..|groups| - 1], groups[|groups| - 1];
      assert groups == init + [last];
      assert last in groups;
      AllPriced(threshold, init);
    }
  }

  /** The pairs selected for the weak model, by position. */
  function WeakPairs(threshold: real, groups: seq<Group>): set<nat> {
    set i: nat | i < |groups| && Selected(threshold, groups[i]) == Some(Weak)
  }

  lemma {:induction false} WeakPairsCount(threshold: real, groups: seq<Group>)
    ensures |WeakPairs(threshold, groups)| == Count(Selects(threshold, Weak), groups)
  {
    if groups != [] {
      var init, last := groups[..|groups| - 1], groups[|groups| - 1];
      WeakPairsCount(threshold, init);
      var here: set<nat> := if Selected(threshold, last) == Some(Weak) then {|init|} else {};
      assert WeakPairs(threshold, groups) == WeakPairs(threshold, init) + here;
    }
  }

  /** Raising the threshold only removes pairs from the weak selection, and changes no fallback. */
  lemma RaisingThreshold(low: real, high: real, groups: seq<Group>, lowRow: Row, highRow: Row)
    requires low <= high && IsRow(lowRow, low, groups) && IsRow(highRow, high, groups)
    ensures WeakPairs(high, groups) <= WeakPairs(low, groups)
    ensures |WeakPairs(low, groups)| == lowRow.weak && |WeakPairs(high, groups)| == highRow.weak
    ensures highRow.weak <= lowRow.weak && highRow.strong >= lowRow.strong && highRow.fallback == lowRow.fallback
  {
    WeakPairsCount(low, groups);
    WeakPairsCount(high, groups);
    SubsetSize(WeakPairs(high, groups), WeakPairs(low, groups));
    RowConserves(lowRow, low, groups);
    RowConserves(highRow, high, groups);
  }

  // ----- what a replayed group is, on the trials themselves -----

  ghost predicate HasDecision(group: Group) { group.routed.Some? && group.routed.value.decision.Some? }

  /** The classifier gave a probability that reaches the threshold. */
  ghost predicate Reaches(threshold: real, group: Group) {
    && HasDecision(group) && group.routed.value.decision.value.source == Classifier
    && group.routed.value.decision.value.weakSolveProbability.Some?
    && group.routed.value.decision.value.weakSolveProbability.value >= threshold
  }

  /** The outcome of a trial that passed or failed, else unavailable. */
  function OutcomeShown(trial: Option<Trial>): Outcome {
    match trial
    case None => Unavailable
    case Some(t) => if t.outcome == Pass then Pass else if t.outcome == Fail then Fail else Unavailable
  }

  /** A group without a decision selects nothing. One with a decision selects the weak baseline exactly if the
      classifier's probability reaches the threshold, else the strong one; it shows that baseline's outcome,
      and costs what that baseline and the classifier cost. */
  lemma GroupMeans(threshold: real, group: Group)
    ensures !HasDecision(group) ==>
      && Selected(threshold, group).None? && CostAt(threshold, group).None?
      && Shown(Selected(threshold, group), group) == Unavailable
    ensures HasDecision(group) ==> var baseline := if Reaches(threshold, group) then group.weak else group.strong;
      && Selected(threshold, group) == Some(if Reaches(threshold, group) then Weak else Strong)
      && Shown(Selected(threshold, group), group) == OutcomeShown(baseline)
      && (CostAt(threshold, group).Some? <==>
           baseline.Some? && baseline.value.cost.Some? && group.routed.value.classifierCost.Some?)
      && (CostAt(threshold, group).Some? ==>
           CostAt(threshold, group).value == group.routed.value.classifierCost.value + baseline.value.cost.value)
    ensures Shown(Some(Weak), group) == OutcomeShown(group.weak)
    ensures Shown(Some(Strong), group) == OutcomeShown(group.strong)
    ensures IsFallback(group) <==>
      && HasDecision(group)
      && (group.routed.value.decision.value.source == ClassifierFallback
          || group.routed.value.decision.value.weakSolveProbability == None)
  {
  }

  lemma {:induction false} CountSame(a: Group -> bool, b: Group -> bool, groups: seq<Group>)
    requires forall group :: group in groups ==> a(group) == b(group)
    ensures Count(a, groups) == Count(b, groups)
  {
    if groups != [] {
      assert groups == groups[..|groups| - 1] + [groups[|groups| - 1]];
      CountSame(a, b, groups[..|groups| - 1]);
    }
  }

  /** Above every probability, the replay is the strong baseline; at or below all of them, without fallbacks,
      it is the weak baseline. */
  lemma ExtremeThresholds(threshold: real, groups: seq<Group>, row: Row, strongPassed: Group -> bool,
      weakPassed: Group -> bool)
    requires IsRow(row, threshold, groups)
    requires forall group: Group :: strongPassed(group) <==>
      HasDecision(group) && group.strong.Some? && group.strong.value.outcome == Pass
    requires forall group: Group :: weakPassed(group) <==>
      HasDecision(group) && group.weak.Some? && group.weak.value.outcome == Pass
    ensures (forall group :: group in groups ==> !Reaches(threshold, group)) ==>
      row.weak == 0 && row.pass == Count(strongPassed, groups)
    ensures (forall group :: group in groups && HasDecision(group) ==> Reaches(threshold, group)) ==>
      row.strong == 0 && row.pass == Count(weakPassed, groups)
  {
    forall group | group in groups
      ensures !Reaches(threshold, group) ==>
        !Selects(threshold, Weak)(group) && Shows(threshold, Pass)(group) == strongPassed(group)
      ensures (HasDecision(group) ==> Reaches(threshold, group)) ==>
        !Selects(threshold, Strong)(group) && Shows(threshold, Pass)(group) == weakPassed(group)
    {
      GroupMeans(threshold, group);
    }
    var none := (_: Group) => false;
    CountNone(groups, none);
    if forall group :: group in groups ==> !Reaches(threshold, group) {
      CountSame(Selects(threshold, Weak), none, groups);
      CountSame(Shows(threshold, Pass), strongPassed, groups);
    }
    if forall group :: group in groups && HasDecision(group) ==> Reaches(threshold, group) {
      CountSame(Selects(threshold, Strong), none, groups);
      CountSame(Shows(threshold, Pass), weakPassed, groups);
    }
  }

  lemma {:induction false} CountNone(groups: seq<Group>, none: Group -> bool)
    requires forall group: Group :: !none(group)
    ensures Count(none, groups) == 0
  {
    if groups != [] {
      CountNone(groups[..|groups| - 1], none);
    }
  }

  // ----- the random control -----

  predicate IsNormal(group: Group) {
    var decision := RoutedDecision(group);
    decision.Some? && decision.value.source.Classifier? && decision.value.weakSolveProbability.Some?
  }

  /** The positions of the groups decided by a classifier probability. */
  function NormalPositions(groups: seq<Group>): seq<nat> {
    if groups == [] then []
    else NormalPositions(groups[..|groups| - 1]) + (if IsNormal(groups[|groups| - 1]) then [|groups| - 1] else [])
  }

  const NORMAL_WEAK: Group -> bool :=
    (group: Group) => IsNormal(group) && RoutedDecision(group).value.selectedTier.Weak?

  lemma {:induction false} NormalPositionsAre(groups: seq<Group>)
    ensures forall i: nat :: i in NormalPositions(groups) <==> i < |groups| && IsNormal(groups[i])
    ensures NoDuplicates(NormalPositions(groups))
    ensures Count(NORMAL_WEAK, groups) <= |NormalPositions(groups)|
  {
    if groups != [] {
      var init, last := groups[..|groups| - 1], groups[|groups| - 1];
      NormalPositionsAre(init);
      assert groups == init + [last];
      CountSnoc(NORMAL_WEAK, init, last);
      var s := NormalPositions(init);
      assert forall i :: 0 <= i < |s| ==> s[i] in s;
      forall i: nat ensures i in NormalPositions(groups) <==> i < |groups| && IsNormal(groups[i]) {
        assert i in s <==> i < |init| && IsNormal(init[i]);
        assert i < |init| ==> init[i] == groups[i];
      }
    }
  }

  function Members(s: seq<nat>): set<nat> { set i | i in s }

  /** The groups marked weak: the first positions of a shuffle, as many as there were normal weak decisions. */
  function MarkedWeak(groups: seq<Group>, stream: Stream): set<nat>
    requires InRange(stream)
  {
    ShuffleOfPermutes(NormalPositions(groups), stream, 0);
    NormalPositionsAre(groups);
    Members(ShuffleOf(NormalPositions(groups), stream, 0)[..Count(NORMAL_WEAK, groups)])
  }

  function RandomTier(groups: seq<Group>, marked: set<nat>, i: nat): Option<Tier>
    requires i < |groups|
  {
    if RoutedDecision(groups[i]).None? then None else Some(if i in marked then Weak else Strong)
  }

  lemma {:induction false} MembersCount(s: seq<nat>)
    requires NoDuplicates(s)
    ensures |Members(s)| == |s|
  {
    if s != [] {
      var init, last := s[..|s| - 1], s[|s| - 1];
      MembersCount(init);
      assert last !in init;
      assert Members(s) == Members(init) + {last};
    }
  }

  /** For every seed: exactly as many groups are marked weak as there were normal weak decisions, and
      every one of them was decided by a classifier probability, so no fallback is marked. */
  lemma ExactlyAsManyWeak(groups: seq<Group>, stream: Stream)
    requires InRange(stream)
    ensures |MarkedWeak(groups, stream)| == Count(NORMAL_WEAK, groups)
    ensures var marked := MarkedWeak(groups, stream);
      && (forall i :: i in marked ==> i < |groups| && IsNormal(groups[i]) && !IsFallback(groups[i]))
      && marked == set i: nat | i < |groups| && RandomTier(groups, marked, i) == Some(Weak)
  {
    var normal := NormalPositions(groups);
    var shuffled := ShuffleOf(normal, stream, 0);
    ShuffleOfPermutes(normal, stream, 0);
    NormalPositionsAre(groups);
    PermutationKeepsDistinct(normal, shuffled);
    SameMembers(shuffled, normal);
    var first := shuffled[..Count(NORMAL_WEAK, groups)];
    MembersCount(first);
    forall i | i in MarkedWeak(groups, stream) ensures i < |groups| && IsNormal(groups[i]) {
      assert i in first && i in shuffled && i in normal;
    }
  }

  /** What was recorded: the classifier gave a probability, and the weak model was selected. */
  ghost predicate RecordedWeak(group: Group) {
    && HasDecision(group) && group.routed.value.decision.value.source == Classifier
    && group.routed.value.decision.value.weakSolveProbability.Some?
    && group.routed.value.decision.value.selectedTier == Weak
  }

  /** The same on the recorded decisions: for every seed the control selects weak as often as the classifier
      did, and only where the classifier gave a probability. */
  lemma ControlMeans(groups: seq<Group>, stream: Stream, recorded: Group -> bool)
    requires InRange(stream) && forall group: Group :: recorded(group) <==> RecordedWeak(group)
    ensures var marked := MarkedWeak(groups, stream);
      && |marked| == Count(recorded, groups)
      && (forall i :: i in marked ==>
           && i < |groups| && HasDecision(groups[i])
           && groups[i].routed.value.decision.value.source == Classifier
           && groups[i].routed.value.decision.value.weakSolveProbability.Some?)
      && (forall i :: 0 <= i < |groups| && HasDecision(groups[i]) ==>
           RandomTier(groups, marked, i) == Some(if i in marked then Weak else Strong))
      && (forall i :: 0 <= i < |groups| && !HasDecision(groups[i]) ==> RandomTier(groups, marked, i).None?)
  {
    ExactlyAsManyWeak(groups, stream);
    forall group | group in groups ensures NORMAL_WEAK(group) == recorded(group) {
      assert recorded(group) <==> RecordedWeak(group);
    }
    CountSame(NORMAL_WEAK, recorded, groups);
    hide MarkedWeak, Count;
  }

  datatype Control = Control(
    weakSelections: nat, recordedDecisions: nat, pass: nat, fail: nat, unavailable: nat, tiers: seq<Option<Tier>>)

  function OutcomeAt(groups: seq<Group>, marked: set<nat>, i: nat): Outcome
    requires i < |groups|
  {
    Shown(RandomTier(groups, marked, i), groups[i])
  }

  /** The first n groups that show an outcome. */
  function ShownSet(groups: seq<Group>, marked: set<nat>, outcome: Outcome, n: nat): set<nat>
    requires n <= |groups|
  {
    set i: nat | i < n && OutcomeAt(groups, marked, i) == outcome
  }

  lemma ShownSetStep(groups: seq<Group>, marked: set<nat>, outcome: Outcome, n: nat)
    requires n < |groups|
    ensures |ShownSet(groups, marked, outcome, n + 1)|
      == |ShownSet(groups, marked, outcome, n)| + (if OutcomeAt(groups, marked, n) == outcome then 1 else 0)
  {
    var here: set<nat> := if OutcomeAt(groups, marked, n) == outcome then {n} else {};
    assert ShownSet(groups, marked, outcome, n + 1) == ShownSet(groups, marked, outcome, n) + here;
  }

  /** The control's counters over the first n groups. */
  ghost predicate ControlTo(r: Control, groups: seq<Group>, marked: set<nat>, n: nat)
    requires n <= |groups|
  {
    && |r.tiers| == n && (forall i :: 0 <= i < n ==> r.tiers[i] == RandomTier(groups, marked, i))
    && r.recordedDecisions == Count(HAS_DECISION, groups[..n])
    && r.pass + r.fail + r.unavailable == n
    && r.pass == |ShownSet(groups, marked, Pass, n)|
    && r.fail == |ShownSet(groups, marked, Fail, n)|
  }

  lemma ControlStep(r: Control, next: Control, groups: seq<Group>, marked: set<nat>, n: nat)
    requires n < |groups| && ControlTo(r, groups, marked, n)
    requires next.tiers == r.tiers + [RandomTier(groups, marked, n)]
    requires next.recordedDecisions == r.recordedDecisions + (if RoutedDecision(groups[n]).Some? then 1 else 0)
    requires var shown := OutcomeAt(groups, marked, n);
      && next.pass == r.pass + (if shown.Pass? then 1 else 0) && next.fail == r.fail + (if shown.Fail? then 1 else 0)
      && next.unavailable == r.unavailable + (if shown.Unavailable? then 1 else 0)
    ensures ControlTo(next, groups, marked, n + 1)
  {
    hide ShownSet, RandomTier, Shown;
    assert groups[..n + 1] == groups[..n] + [groups[n]];
    CountSnoc(HAS_DECISION, groups[..n], groups[n]);
    ShownSetStep(groups, marked, Pass, n);
    ShownSetStep(groups, marked, Fail, n);
    ShownOnly(groups, marked, n);
  }

  lemma ShownOnly(groups: seq<Group>, marked: set<nat>, n: nat)
    requires n < |groups|
    ensures !OutcomeAt(groups, marked, n).Incomplete?
  {
  }

  /** One group of the control, counted. */
  method AddSelected(r: Control, groups: seq<Group>, marked: set<nat>, i: nat) returns (next: Control)
    requires i < |groups|
    ensures var shown := OutcomeAt(groups, marked, i);
      && next.tiers == r.tiers + [RandomTier(groups, marked, i)] && next.weakSelections == r.weakSelections
      && next.recordedDecisions == r.recordedDecisions + (if RoutedDecision(groups[i]).Some? then 1 else 0)
      && next.pass == r.pass + (if shown.Pass? then 1 else 0) && next.fail == r.fail + (if shown.Fail? then 1 else 0)
      && next.unavailable == r.unavailable + (if shown.Unavailable? then 1 else 0)
  {
    next := r;
    var group := groups[i];
    if RoutedDecision(group).None? {
      next := next.(unavailable := next.unavailable + 1, tiers := next.tiers + [None]);
    } else {
      var tier := if i in marked then Weak else Strong;
      var baseline := if tier.Weak? then group.weak else group.strong;
      next := next.(recordedDecisions := next.recordedDecisions + 1, tiers := next.tiers + [Some(tier)]);
      if baseline.Some? && baseline.value.outcome.Pass? {
        next := next.(pass := next.pass + 1);
      } else if baseline.Some? && baseline.value.outcome.Fail? {
        next := next.(fail := next.fail + 1);
      } else {
        next := next.(unavailable := next.unavailable + 1);
      }
    }
  }

  /** `randomSelectionReplay` over the groups in key order. */
  method RandomSelectionReplay(groups: seq<Group>, random: Random) returns (r: Control)
    requires InRange(random.stream) && random.drawn == 0
    modifies random
    ensures ControlTo(r, groups, MarkedWeak(groups, random.stream), |groups|)
    ensures r.weakSelections == Count(NORMAL_WEAK, groups)
  {
    NormalPositionsAre(groups);
    ShuffleOfPermutes(NormalPositions(groups), random.stream, 0);
    var weakSelections := Count(NORMAL_WEAK, groups);
    var shuffled := Shuffle(NormalPositions(groups), random);
    var marked := Members(shuffled[..][..weakSelections]);
    assert marked == MarkedWeak(groups, random.stream);
    r := Control(weakSelections, 0, 0, 0, 0, []);
    assert ControlTo(r, groups, marked, 0);
    hide ControlTo, MarkedWeak, Members, Count, NormalPositions, InRange, ShuffleOf, RandomTier, Shown;
    for i := 0 to |groups|
      invariant ControlTo(r, groups, marked, i) && r.weakSelections == weakSelections
    {
      ghost var before := r;
      r := AddSelected(r, groups, marked, i);
      ControlStep(before, r, groups, marked, i);
    }
    assert groups[..|groups|] == groups;
  }

  // ----- from trials to groups -----

  /** The key under which a group is sorted. */
  function Key(pair: Pair): string { (pair.taskId + ":") + Decimal(pair.repetition) }

  lemma KeyInjective(a: Pair, b: Pair)
    requires Key(a) == Key(b)
    ensures a == b
  {
    Schedule.SuffixUnique(a.taskId + ":", a.repetition, b.taskId + ":", b.repetition);
    Schedule.EqualConcat(a.taskId, ":", b.taskId, ":");
  }

  const KEY_LE: (Pair, Pair) -> bool := (a: Pair, b: Pair) => StringLe(Key(a), Key(b))

  /** The groups in key order. */
  function RowsOf(g: Grouping): seq<Group>
    requires WellGrouped(g)
  {
    var keys := Sort(KEY_LE, g.order);
    SortPermutes(KEY_LE, g.order);
    SameMembers(keys, g.order);
    assert forall i :: 0 <= i < |keys| ==> keys[i] in keys;
    seq(|keys|, i requires 0 <= i < |keys| => g.groups[keys[i]])
  }

  /** `randomSelectionReplay`. */
  method ReplayRandomSelection(trials: seq<Trial>, random: Random) returns (r: Control, ghost g: Grouping)
    requires InRange(random.stream) && random.drawn == 0
    modifies random
    ensures HoldsLast(g, trials)
    ensures var rows := RowsOf(g);
      ControlTo(r, rows, MarkedWeak(rows, random.stream), |rows|) && r.weakSelections == Count(NORMAL_WEAK, rows)
  {
    var grouping := GroupLast(trials);
    g := grouping;
    r := RandomSelectionReplay(RowsOf(grouping), random);
  }

  lemma KeyOrder()
    ensures TotalPreorder(KEY_LE)
    ensures forall s: seq<Pair> :: AntisymmetricOn(KEY_LE, s)
  {
    forall x, y ensures KEY_LE(x, y) || KEY_LE(y, x) {
      StringLeTotal(Key(x), Key(y));
    }
    forall x, y, z | KEY_LE(x, y) && KEY_LE(y, z) ensures KEY_LE(x, z) {
      StringLeTransitive(Key(x), Key(y), Key(z));
    }
    forall x, y | KEY_LE(x, y) && KEY_LE(y, x) ensures x == y {
      StringLeTotal(Key(x), Key(y));
      KeyInjective(x, y);
    }
  }

  /** Whatever order the trials come in, as long as every place is wanted by the same last trial, the rows
      and with them the control of every seed are the same. */
  lemma TrialOrderIrrelevant(a: seq<Trial>, b: seq<Trial>, g: Grouping, h: Grouping)
    requires HoldsLast(g, a) && HoldsLast(h, b) && forall pair, mode :: LastAt(a, pair, mode) == LastAt(b, pair, mode)
    ensures RowsOf(g) == RowsOf(h)
  {
    SameGroups(a, b, g, h);
    hide HoldsLast, LastAt;
    SameDistinct(g.order, h.order);
    KeyOrder();
    SortPermuted(KEY_LE, g.order, h.order);
  }

  lemma SameGroups(a: seq<Trial>, b: seq<Trial>, g: Grouping, h: Grouping)
    requires HoldsLast(g, a) && HoldsLast(h, b) && forall pair, mode :: LastAt(a, pair, mode) == LastAt(b, pair, mode)
    ensures g.groups == h.groups && forall pair :: pair in g.order <==> pair in h.order
  {
    hide LastAt;
    forall pair ensures pair in g.groups <==> pair in h.groups {
      assert Wanted(a, pair) <==> Wanted(b, pair);
    }
    forall pair | pair in g.groups ensures g.groups[pair] == h.groups[pair] {
      forall mode ensures g.groups[pair].At(mode) == h.groups[pair].At(mode) {
        assert GroupFor(g, pair).At(mode) == GroupFor(h, pair).At(mode);
      }
      SameGroup(g.groups[pair], h.groups[pair]);
    }
  }

  lemma SameGroup(a: Group, b: Group)
    requires forall mode :: a.At(mode) == b.At(mode)
    ensures a == b
  {
    assert a.At(WeakOnly) == b.At(WeakOnly) && a.At(StrongOnly) == b.At(StrongOnly) && a.At(Routed) == b.At(Routed);
  }

  lemma SameDistinct(s: seq<Pair>, t: seq<Pair>)
    requires NoDuplicates(s) && NoDuplicates(t) && forall x :: x in s <==> x in t
    ensures multiset(s) == multiset(t)
  {
    forall x ensures multiset(s)[x] == multiset(t)[x] {
      CountAtMostOne(s, x);
      CountAtMostOne(t, x);
      assert x in multiset(s) <==> x in s;
      assert x in multiset(t) <==> x in t;
    }
  }
}
