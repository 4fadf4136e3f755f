/** Resolved trials and the task/repetition groups every analysis of src/evaluation/analysis.ts works on. */
module Trials {
  import opened Wrappers

  datatype Mode = WeakOnly | StrongOnly | Routed

  datatype Tier = Weak | Strong

  datatype Outcome = Pass | Fail | Unavailable | Incomplete

  datatype Source = Classifier | ClassifierFallback

  datatype Decision = Decision(source: Source, selectedTier: Tier, weakSolveProbability: Option<real>)

  /** A trial whose result is null has no decision; unknown costs are `None`. */
  datatype Trial = Trial(
    taskId: string, repetition: nat, mode: Mode, outcome: Outcome, decision: Option<Decision>,
    cost: Option<real>, classifierCost: Option<real>)

  datatype Pair = Pair(taskId: string, repetition: nat)

  datatype Group = Group(weak: Option<Trial>, strong: Option<Trial>, routed: Option<Trial>)
  {
    function At(mode: Mode): Option<Trial> {
      match mode case WeakOnly => weak case StrongOnly => strong case Routed => routed
    }

    function With(trial: Trial): Group {
      match trial.mode
      case WeakOnly => this.(weak := Some(trial))
      case StrongOnly => this.(strong := Some(trial))
      case Routed => this.(routed := Some(trial))
    }
  }

  const EMPTY_GROUP := Group(None, None, None)

  function PairOf(trial: Trial): Pair { Pair(trial.taskId, trial.repetition) }

  predicate IsEvaluated(outcome: Outcome) { outcome.Pass? || outcome.Fail? }

  /** A trial that is present and passed or failed. */
  predicate Evaluated(trial: Option<Trial>) { trial.Some? && IsEvaluated(trial.value.outcome) }

  predicate Passed(trial: Option<Trial>) { trial.Some? && trial.value.outcome.Pass? }

  /** The routed decision of a group, if one was recorded. */
  function RoutedDecision(group: Group): Option<Decision> {
    if group.routed.Some? then group.routed.value.decision else None
  }

  /** Groups keyed by pair, with the pairs in the order in which they first occur. */
  datatype Grouping = Grouping(order: seq<Pair>, groups: map<Pair, Group>)

  ghost predicate WellGrouped(g: Grouping) {
    && (forall pair :: pair in g.order <==> pair in g.groups)
    && (forall i, j :: 0 <= i < j < |g.order| ==> g.order[i] != g.order[j])
  }

  ghost predicate HasAll(g: Grouping, trials: seq<Trial>) {
    forall i :: 0 <= i < |trials| ==>
      PairOf(trials[i]) in g.groups && g.groups[PairOf(trials[i])].At(trials[i].mode) == Some(trials[i])
  }

  ghost predicate HasOnly(g: Grouping, trials: seq<Trial>) {
    forall pair, mode :: pair in g.groups && g.groups[pair].At(mode).Some? ==>
      Belongs(g.groups[pair].At(mode).value, pair, mode, trials)
  }

  ghost predicate Belongs(trial: Trial, pair: Pair, mode: Mode, trials: seq<Trial>) {
    trial in trials && PairOf(trial) == pair && trial.mode == mode
  }

  /** The grouping holds exactly the trials of `trials`, each in its own place. */
  ghost predicate Holds(g: Grouping, trials: seq<Trial>) {
    WellGrouped(g) && HasAll(g, trials) && HasOnly(g, trials)
  }

  ghost predicate SameSlot(a: Trial, b: Trial) { PairOf(a) == PairOf(b) && a.mode == b.mode }

  function GroupFor(g: Grouping, pair: Pair): Group {
    if pair in g.groups then g.groups[pair] else EMPTY_GROUP
  }

  /** `byPair.set(key, group)` after the slot of `trial` was assigned. */
  function Place(g: Grouping, trial: Trial): Grouping {
    var pair := PairOf(trial);
    Grouping(if pair in g.groups then g.order else g.order + [pair], g.groups[pair := GroupFor(g, pair).With(trial)])
  }

  lemma WithAt(group: Group, trial: Trial, mode: Mode)
    ensures group.With(trial).At(mode) == if mode == trial.mode then Some(trial) else group.At(mode)
  {
  }

  lemma PlaceHolds(g: Grouping, trial: Trial, trials: seq<Trial>)
    requires Holds(g, trials) && GroupFor(g, PairOf(trial)).At(trial.mode).None?
    ensures Holds(Place(g, trial), trials + [trial])
  {
    var r, pair := Place(g, trial), PairOf(trial);
    forall i | 0 <= i < |trials + [trial]|
      ensures PairOf((trials + [trial])[i]) in r.groups
        && r.groups[PairOf((trials + [trial])[i])].At((trials + [trial])[i].mode) == Some((trials + [trial])[i])
    {
      WithAt(GroupFor(g, pair), trial, (trials + [trial])[i].mode);
    }
    forall p, mode | p in r.groups && r.groups[p].At(mode).Some?
      ensures Belongs(r.groups[p].At(mode).value, p, mode, trials + [trial])
    {
      WithAt(GroupFor(g, pair), trial, mode);
      if p != pair || mode != trial.mode {
        assert Belongs(g.groups[p].At(mode).value, p, mode, trials);
      }
    }
  }

  /** Two trials of the sequence want the same slot. */
  ghost predicate Clash(trials: seq<Trial>) {
    exists i, j :: 0 <= i < j < |trials| && SameSlot(trials[i], trials[j])
  }

  lemma ClashSnoc(g: Grouping, trials: seq<Trial>, trial: Trial)
    requires Holds(g, trials) && !Clash(trials)
    ensures Clash(trials + [trial]) <==> GroupFor(g, PairOf(trial)).At(trial.mode).Some?
  {
    var all := trials + [trial];
    var taken := GroupFor(g, PairOf(trial)).At(trial.mode);
    if taken.Some? {
      assert Belongs(taken.value, PairOf(trial), trial.mode, trials);
      var i :| 0 <= i < |trials| && trials[i] == taken.value;
      assert SameSlot(all[i], all[|trials|]);
    } else {
      forall i, j | 0 <= i < j < |all| ensures !SameSlot(all[i], all[j]) {
        if j < |trials| {
          assert !SameSlot(trials[i], trials[j]);
        }
      }
    }
  }

  /** The grouping loop of `aggregateExperiment`: a second trial in one slot is an error. */
  method GroupTrials(trials: seq<Trial>) returns (grouping: Option<Grouping>)
    ensures grouping.Some? ==> Holds(grouping.value, trials)
    ensures grouping.None? <==> Clash(trials)
  {
    var g := Grouping([], map[]);
    for n := 0 to |trials|
      invariant Holds(g, trials[..n]) && !Clash(trials[..n])
    {
      var trial := trials[n];
      assert trials[..n + 1] == trials[..n] + [trial];
      ClashSnoc(g, trials[..n], trial);
      if GroupFor(g, PairOf(trial)).At(trial.mode).Some? {
        return None;
      }
      PlaceHolds(g, trial, trials[..n]);
      g := Place(g, trial);
    }
    assert trials[..|trials|] == trials;
    grouping := Some(g);
  }

  /** The last trial that wants a place. */
  function LastAt(trials: seq<Trial>, pair: Pair, mode: Mode): Option<Trial> {
    if trials == [] then None
    else
      var last := trials[|trials| - 1];
      if PairOf(last) == pair && last.mode == mode then Some(last) else LastAt(trials[..|trials| - 1], pair, mode)
  }

  predicate Wanted(trials: seq<Trial>, pair: Pair) {
    LastAt(trials, pair, WeakOnly).Some? || LastAt(trials, pair, StrongOnly).Some? || LastAt(trials, pair, Routed).Some?
  }

  /** Every place holds the last trial that wants it. */
  ghost predicate HoldsLast(g: Grouping, trials: seq<Trial>) {
    && WellGrouped(g)
    && (forall pair :: pair in g.groups <==> Wanted(trials, pair))
    && (forall pair, mode :: GroupFor(g, pair).At(mode) == LastAt(trials, pair, mode))
  }

  lemma LastAtSnoc(trials: seq<Trial>, trial: Trial, pair: Pair, mode: Mode)
    ensures LastAt(trials + [trial], pair, mode)
      == if PairOf(trial) == pair && trial.mode == mode then Some(trial) else LastAt(trials, pair, mode)
  {
    assert (trials + [trial])[..|trials|] == trials;
  }

  lemma PlaceLast(g: Grouping, trial: Trial, trials: seq<Trial>)
    requires HoldsLast(g, trials)
    ensures HoldsLast(Place(g, trial), trials + [trial])
  {
    var r, all := Place(g, trial), trials + [trial];
    forall pair, mode ensures GroupFor(r, pair).At(mode) == LastAt(all, pair, mode) {
      LastAtSnoc(trials, trial, pair, mode);
      WithAt(GroupFor(g, PairOf(trial)), trial, mode);
    }
    forall pair ensures pair in r.groups <==> Wanted(all, pair) {
      LastAtSnoc(trials, trial, pair, WeakOnly);
      LastAtSnoc(trials, trial, pair, StrongOnly);
      LastAtSnoc(trials, trial, pair, Routed);
    }
  }

  /** The grouping loop of the replays: a later trial silently takes the place of an earlier one. */
  method GroupLast(trials: seq<Trial>) returns (g: Grouping)
    ensures HoldsLast(g, trials)
  {
    g := Grouping([], map[]);
    for n := 0 to |trials|
      invariant HoldsLast(g, trials[..n])
    {
      assert trials[..n + 1] == trials[..n] + [trials[n]];
      PlaceLast(g, trials[n], trials[..n]);
      g := Place(g, trials[n]);
    }
    assert trials[..|trials|] == trials;
  }
}
