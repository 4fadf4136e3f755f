/** Dispatch and recovery of src/evaluation/smoke.ts. The experiment directory is a map from attempt id
    to what its directory holds; `nextEvaluationAction` only reads it, and carrying out its answer is
    the only thing that changes it. */
module Dispatch {
  import opened Ordering
  import opened Sums
  import opened Wrappers
  import CostBound
  import Schedule
  import Shuffling
  import Trials
  import Usage

  datatype Execution = Completed | Cancelled | Timeout | BudgetExhausted | OtherFailure

  datatype Validation = NotRun | Passed | Failed | ValidatorError

  datatype Identity = Identity(attemptId: string, experimentId: string, taskId: string, repetition: nat)

  /** The part of `run.json` that dispatch reads. */
  datatype RunResult = RunResult(
    identity: Identity, mode: Trials.Mode, execution: Execution, validation: Validation,
    cost: Option<real>, observedCalls: nat)

  /** An attempt directory: one that `readAttempt` throws on, one without `run.json`, and one with it.
      What it throws tells a missing event file from one it cannot make sense of. */
  datatype Attempt = Unreadable(missingLog: bool) | Unfinished | Finished(result: RunResult, submission: bool)

  type Directory = map<string, Attempt>

  datatype Manifest = Manifest(
    experimentId: string, schedule: seq<Schedule.Entry>, configuration: CostBound.Config, maxCost: Option<real>)

  /** `classifyTrialOutcome`. */
  function Classify(r: RunResult): Trials.Outcome {
    if r.execution.Cancelled? then Trials.Incomplete
    else if r.execution.Timeout? || r.execution.BudgetExhausted? then Trials.Fail
    else if !r.execution.Completed? then Trials.Unavailable
    else if r.validation.NotRun? then Trials.Incomplete
    else if r.validation.ValidatorError? then Trials.Unavailable
    else if r.validation.Passed? then Trials.Pass else Trials.Fail
  }

  datatype AttachError = IncompleteAttempt | AlreadyAttached | CancelledStaysNotRun

  function AttachValidationResult(a: Attempt, v: Validation): Result<Attempt, AttachError> {
    if !a.Finished? then Err(IncompleteAttempt)
    else if !a.result.validation.NotRun? then Err(AlreadyAttached)
    else if a.result.execution.Cancelled? && !v.NotRun? then Err(CancelledStaysNotRun)
    else Ok(a.(result := a.result.(validation := v)))
  }

  // ----- positions in the schedule -----

  predicate InSchedule(m: Manifest, i: int, k: int) {
    0 <= i < |m.schedule| && 0 <= k < |m.schedule[i].attemptIds|
  }

  function IdAt(m: Manifest, i: int, k: int): string
    requires InSchedule(m, i, k)
  {
    m.schedule[i].attemptIds[k]
  }

  /** No attempt id is used twice, within a trial or across trials. */
  ghost predicate DistinctIds(m: Manifest) {
    forall i, k, j, l :: InSchedule(m, i, k) && InSchedule(m, j, l) && IdAt(m, i, k) == IdAt(m, j, l)
      ==> i == j && k == l
  }

  predicate Terminal(a: Attempt) {
    a.Finished? && (Classify(a.result).Pass? || Classify(a.result).Fail?)
  }

  /** A completed run whose submission still waits for its validation. */
  predicate Pending(a: Attempt) {
    a.Finished? && a.result.execution.Completed? && a.result.validation.NotRun? && a.submission
  }

  predicate Matches(m: Manifest, i: int, k: int, r: RunResult)
    requires InSchedule(m, i, k)
  {
    && r.identity == Identity(IdAt(m, i, k), m.experimentId, m.schedule[i].taskId, m.schedule[i].repetition)
    && r.mode == m.schedule[i].mode
  }

  // ----- spend -----

  datatype Spend = Known(total: real) | Unknown(total: real) | SpendUnreadable

  /** What one recorded attempt does to the running total. A null cost counts zero when no call was
      observed, whatever calls may be missing. */
  function Charge(a: Attempt, total: real): Spend {
    if a.Unreadable? then SpendUnreadable
    else if a.Unfinished? then Unknown(total)
    else if a.result.cost.None? && a.result.observedCalls > 0 then Unknown(total)
    else Known(total + (if a.result.cost.Some? then a.result.cost.value else 0.0))
  }

  /** From attempt k of trial i on, with `total` spent before it. */
  function SpendFrom(m: Manifest, d: Directory, i: nat, k: nat, total: real): Spend
    requires i <= |m.schedule| && (i < |m.schedule| ==> k <= |m.schedule[i].attemptIds|)
    decreases |m.schedule| - i, if i < |m.schedule| then |m.schedule[i].attemptIds| - k else 0
  {
    if i == |m.schedule| then Known(total)
    else if k == |m.schedule[i].attemptIds| || IdAt(m, i, k) !in d then SpendFrom(m, d, i + 1, 0, total)
    else
      var s := Charge(d[IdAt(m, i, k)], total);
      if s.Known? then SpendFrom(m, d, i, k + 1, s.total) else s
  }

  method ExperimentSpend(m: Manifest, d: Directory) returns (spend: Spend)
    ensures spend == SpendFrom(m, d, 0, 0, 0.0)
  {
    var total := 0.0;
    for i := 0 to |m.schedule|
      invariant SpendFrom(m, d, 0, 0, 0.0) == SpendFrom(m, d, i, 0, total)
    {
      var k := 0;
      while k < |m.schedule[i].attemptIds|
        invariant k <= |m.schedule[i].attemptIds|
        invariant SpendFrom(m, d, 0, 0, 0.0) == SpendFrom(m, d, i, k, total)
      {
        if m.schedule[i].attemptIds[k] !in d {
          break;
        }
        var attempt := d[m.schedule[i].attemptIds[k]];
        if attempt.Unreadable? {
          return SpendUnreadable;
        }
        if !attempt.Finished? {
          return Unknown(total);
        }
        var cost := attempt.result.cost;
        if cost.None? && attempt.result.observedCalls > 0 {
          return Unknown(total);
        }
        total := total + (if cost.Some? then cost.value else 0.0);
        k := k + 1;
      }
    }
    spend := Known(total);
  }

  // ----- the next action -----

  datatype Action = Run(trial: nat, attempt: nat) | Validate(trial: nat, attempt: nat) | Done

  datatype DispatchError =
    | UnreadableAttempt
    | SpendUnknown
    | IdentityMismatch
    | NoMonetaryLimit
    | BudgetExceeded(trial: nat)
    | AttemptLimit(trial: nat)
    | ProvenanceMismatch

  datatype Verdict = TrialTerminal | Act(action: Action) | Refuse(error: DispatchError)

  /** May attempt k of trial i still be paid for? */
  function Reserve(m: Manifest, total: real, i: nat, k: nat): Verdict
    requires InSchedule(m, i, k)
  {
    if m.maxCost.None? then Act(Run(i, k))
    else
      match CostBound.ConservativeTrialCostBound(m.configuration, m.schedule[i].mode)
      case Err(_) => Refuse(NoMonetaryLimit)
      case Ok(bound) => if total + bound > m.maxCost.value then Refuse(BudgetExceeded(i)) else Act(Run(i, k))
  }

  /** What looking at attempt k of trial i settles, if anything. */
  function Look(m: Manifest, d: Directory, total: real, i: nat, k: nat): Option<Verdict>
    requires InSchedule(m, i, k)
  {
    if IdAt(m, i, k) !in d then Some(Reserve(m, total, i, k))
    else
      match d[IdAt(m, i, k)]
      case Unreadable(_) => Some(Refuse(UnreadableAttempt))
      case Unfinished => None
      case Finished(r, _) =>
        if !Matches(m, i, k, r) then Some(Refuse(IdentityMismatch))
        else if Terminal(d[IdAt(m, i, k)]) then Some(TrialTerminal)
        else if Pending(d[IdAt(m, i, k)]) then Some(Act(Validate(i, k)))
        else None
  }

  function ScanTrial(m: Manifest, d: Directory, total: real, i: nat, k: nat): Verdict
    requires i < |m.schedule| && k <= |m.schedule[i].attemptIds|
    decreases |m.schedule[i].attemptIds| - k
  {
    if k == |m.schedule[i].attemptIds| then Refuse(AttemptLimit(i))
    else if Look(m, d, total, i, k).Some? then Look(m, d, total, i, k).value
    else ScanTrial(m, d, total, i, k + 1)
  }

  function ScanFrom(m: Manifest, d: Directory, total: real, i: nat): Result<Action, DispatchError>
    requires i <= |m.schedule|
    decreases |m.schedule| - i
  {
    if i == |m.schedule| then Ok(Done)
    else
      match ScanTrial(m, d, total, i, 0)
      case TrialTerminal => ScanFrom(m, d, total, i + 1)
      case Act(action) => Ok(action)
      case Refuse(error) => Err(error)
  }

  function NextAction(m: Manifest, d: Directory): Result<Action, DispatchError> {
    var spend := SpendFrom(m, d, 0, 0, 0.0);
    if spend.SpendUnreadable? then Err(UnreadableAttempt)
    else if m.maxCost.Some? && spend.Unknown? then Err(SpendUnknown)
    else ScanFrom(m, d, spend.total, 0)
  }

  method NextEvaluationAction(m: Manifest, d: Directory) returns (r: Result<Action, DispatchError>)
    ensures r == NextAction(m, d)
  {
    var spend := ExperimentSpend(m, d);
    if spend.SpendUnreadable? {
      return Err(UnreadableAttempt);
    }
    if m.maxCost.Some? && !spend.Known? {
      return Err(SpendUnknown);
    }
    for i := 0 to |m.schedule|
      invariant ScanFrom(m, d, spend.total, 0) == ScanFrom(m, d, spend.total, i)
    {
      var trial := m.schedule[i];
      var terminal := false;
      var k := 0;
      while k < |trial.attemptIds|
        invariant k <= |trial.attemptIds| && !terminal
        invariant ScanTrial(m, d, spend.total, i, 0) == ScanTrial(m, d, spend.total, i, k)
      {
        if trial.attemptIds[k] !in d {
          if m.maxCost.Some? {
            var bound := CostBound.ConservativeTrialCostBound(m.configuration, trial.mode);
            if bound.Err? {
              return Err(NoMonetaryLimit);
            }
            if spend.total + bound.result > m.maxCost.value {
              return Err(BudgetExceeded(i));
            }
          }
          return Ok(Run(i, k));
        }
        var attempt := d[trial.attemptIds[k]];
        if attempt.Unreadable? {
          return Err(UnreadableAttempt);
        }
        if attempt.Finished? {
          if !Matches(m, i, k, attempt.result) {
            return Err(IdentityMismatch);
          }
          var outcome := Classify(attempt.result);
          if outcome.Pass? || outcome.Fail? {
            terminal := true;
            break;
          }
          if attempt.result.execution.Completed? && attempt.result.validation.NotRun? && attempt.submission {
            return Ok(Validate(i, k));
          }
        }
        k := k + 1;
      }
      if !terminal {
        return Err(AttemptLimit(i));
      }
    }
    r := Ok(Done);
  }

  // ----- runs: ask for an action, carry it out, ask again -----

  /** What carrying out an action leaves behind: a new attempt directory, or a validation status. */
  datatype Deed = Created(attempt: Attempt) | Attached(validation: Validation)

  /** A run writes its own attempt: unfinished if it was interrupted, unreadable if that happened before
      its event file existed or if its event log has a gap, else with its own identity. */
  predicate Fits(m: Manifest, i: int, k: int, a: Attempt)
    requires InSchedule(m, i, k)
  {
    a.Finished? ==> Matches(m, i, k, a.result)
  }

  /** None if the deed does not carry out the next action. */
  function Perform(m: Manifest, d: Directory, deed: Deed): Option<Directory> {
    match NextAction(m, d)
    case Ok(Run(i, k)) =>
      if InSchedule(m, i, k) && deed.Created? && Fits(m, i, k, deed.attempt)
      then Some(d[IdAt(m, i, k) := deed.attempt]) else None
    case Ok(Validate(i, k)) =>
      if InSchedule(m, i, k) && IdAt(m, i, k) in d && deed.Attached? && !deed.validation.NotRun?
        && AttachValidationResult(d[IdAt(m, i, k)], deed.validation).Ok?
      then Some(d[IdAt(m, i, k) := AttachValidationResult(d[IdAt(m, i, k)], deed.validation).result]) else None
    case _ => None
  }

  function After(m: Manifest, deeds: seq<Deed>): Option<Directory> {
    if deeds == [] then Some(map[])
    else
      match After(m, deeds[..|deeds| - 1])
      case None => None
      case Some(d) => Perform(m, d, deeds[|deeds| - 1])
  }

  ghost predicate Present(m: Manifest, d: Directory, i: int, k: int) {
    InSchedule(m, i, k) && IdAt(m, i, k) in d
  }

  /** Looked at and passed over: neither terminal nor waiting for its validation. */
  predicate Superseded(a: Attempt) { a.Unfinished? || (a.Finished? && !Terminal(a) && !Pending(a)) }

  ghost predicate PassedOver(m: Manifest, d: Directory, i: int, k: int) {
    Present(m, d, i, k) && Superseded(d[IdAt(m, i, k)])
  }

  ghost predicate TerminalAt(m: Manifest, d: Directory, i: int, k: int) {
    Present(m, d, i, k) && Terminal(d[IdAt(m, i, k)])
  }

  /** Trial i has a passed or failed attempt. */
  ghost predicate Settled(m: Manifest, d: Directory, i: int) { exists k :: TerminalAt(m, d, i, k) }

  /** Every attempt before this one of its trial is present and was passed over. */
  ghost predicate Follows(m: Manifest, d: Directory, i: int, k: int) {
    forall j :: 0 <= j < k ==> PassedOver(m, d, i, j)
  }

  /** Every earlier trial is settled. */
  ghost predicate InTurn(m: Manifest, d: Directory, i: int) {
    forall j :: 0 <= j < i ==> Settled(m, d, j)
  }

  /** What every reachable directory satisfies: attempts are a prefix of their trial's ids, none follows
      a passed, failed or unreadable one, none belongs to a trial whose turn has not come, and each carries
      its own identity. */
  ghost predicate Inv(m: Manifest, d: Directory) {
    forall i, k :: Present(m, d, i, k) ==> Fits(m, i, k, d[IdAt(m, i, k)]) && Follows(m, d, i, k) && InTurn(m, d, i)
  }

  lemma {:induction false} ScanTrialStops(m: Manifest, d: Directory, total: real, i: nat, k: nat) returns (l: nat)
    requires i < |m.schedule| && k <= |m.schedule[i].attemptIds|
    ensures k <= l <= |m.schedule[i].attemptIds|
    ensures forall j :: k <= j < l ==> PassedOver(m, d, i, j)
    ensures l == |m.schedule[i].attemptIds| ==> ScanTrial(m, d, total, i, k) == Refuse(AttemptLimit(i))
    ensures l < |m.schedule[i].attemptIds| ==> Look(m, d, total, i, l) == Some(ScanTrial(m, d, total, i, k))
    decreases |m.schedule[i].attemptIds| - k
  {
    if k == |m.schedule[i].attemptIds| || Look(m, d, total, i, k).Some? {
      l := k;
    } else {
      assert PassedOver(m, d, i, k);
      l := ScanTrialStops(m, d, total, i, k + 1);
    }
  }

  /** The scan stops at the first trial that is not settled. */
  lemma {:induction false} ScanStops(m: Manifest, d: Directory, total: real, i: nat) returns (n: nat)
    requires i <= |m.schedule|
    ensures i <= n <= |m.schedule|
    ensures forall j :: i <= j < n ==> Settled(m, d, j)
    ensures n == |m.schedule| ==> ScanFrom(m, d, total, i) == Ok(Done)
    ensures n < |m.schedule| ==> !ScanTrial(m, d, total, n, 0).TrialTerminal?
    ensures n < |m.schedule| ==> ScanFrom(m, d, total, i) == ScanFrom(m, d, total, n)
    decreases |m.schedule| - i
  {
    n := i;
    if i < |m.schedule| && ScanTrial(m, d, total, i, 0).TrialTerminal? {
      var l := ScanTrialStops(m, d, total, i, 0);
      assert TerminalAt(m, d, i, l);
      n := ScanStops(m, d, total, i + 1);
    }
  }

  /** An attempt is started only in its turn: its trial is the first unsettled one, and every earlier
      attempt of that trial was passed over. With a cap, its reserve was still free. */
  lemma RunMeans(m: Manifest, d: Directory, i: nat, k: nat)
    requires NextAction(m, d) == Ok(Run(i, k))
    ensures InSchedule(m, i, k) && IdAt(m, i, k) !in d && Follows(m, d, i, k) && InTurn(m, d, i)
    ensures Reserve(m, SpendFrom(m, d, 0, 0, 0.0).total, i, k) == Act(Run(i, k))
  {
    var total := SpendFrom(m, d, 0, 0, 0.0).total;
    var n := ScanStops(m, d, total, 0);
    var l := ScanTrialStops(m, d, total, n, 0);
  }

  lemma ValidateMeans(m: Manifest, d: Directory, i: nat, k: nat)
    requires NextAction(m, d) == Ok(Validate(i, k))
    ensures Present(m, d, i, k) && Pending(d[IdAt(m, i, k)])
  {
    var total := SpendFrom(m, d, 0, 0, 0.0).total;
    var n := ScanStops(m, d, total, 0);
    var l := ScanTrialStops(m, d, total, n, 0);
  }

  // ----- every step keeps the invariant -----

  /** Attempts that were passed over or terminal before a step still are. */
  ghost predicate Extends(m: Manifest, d: Directory, e: Directory) {
    && (forall i, k :: PassedOver(m, d, i, k) ==> PassedOver(m, e, i, k))
    && (forall i, k :: TerminalAt(m, d, i, k) ==> TerminalAt(m, e, i, k))
  }

  lemma ExtendsKeeps(m: Manifest, d: Directory, e: Directory, i: int, k: int)
    requires Extends(m, d, e)
    ensures Follows(m, d, i, k) ==> Follows(m, e, i, k)
    ensures InTurn(m, d, i) ==> InTurn(m, e, i)
  {
    if InTurn(m, d, i) {
      forall j | 0 <= j < i ensures Settled(m, e, j) {
        assert Settled(m, d, j);
        var l :| TerminalAt(m, d, j, l);
        assert TerminalAt(m, e, j, l);
      }
    }
  }

  /** One attempt changed, in turn, and nothing settled was undone. */
  lemma UpdateInv(m: Manifest, d: Directory, i: nat, k: nat, a: Attempt)
    requires DistinctIds(m) && Inv(m, d) && InSchedule(m, i, k) && Fits(m, i, k, a)
    requires Follows(m, d, i, k) && InTurn(m, d, i)
    requires Extends(m, d, d[IdAt(m, i, k) := a])
    ensures Inv(m, d[IdAt(m, i, k) := a])
  {
    var e := d[IdAt(m, i, k) := a];
    forall i2, k2 | Present(m, e, i2, k2)
      ensures Fits(m, i2, k2, e[IdAt(m, i2, k2)]) && Follows(m, e, i2, k2) && InTurn(m, e, i2)
    {
      ExtendsKeeps(m, d, e, i2, k2);
      if IdAt(m, i2, k2) == IdAt(m, i, k) {
        assert i2 == i && k2 == k;
      } else {
        assert Present(m, d, i2, k2);
      }
    }
  }

  lemma PerformInv(m: Manifest, d: Directory, deed: Deed)
    requires DistinctIds(m) && Inv(m, d) && Perform(m, d, deed).Some?
    ensures Inv(m, Perform(m, d, deed).value)
  {
    hide NextAction;
    match NextAction(m, d) {
      case Ok(Run(i, k)) =>
        RunMeans(m, d, i, k);
        UpdateInv(m, d, i, k, deed.attempt);
      case Ok(Validate(i, k)) =>
        ValidateMeans(m, d, i, k);
        var a := AttachValidationResult(d[IdAt(m, i, k)], deed.validation).result;
        assert Present(m, d, i, k);
        UpdateInv(m, d, i, k, a);
    }
  }

  /** Every reachable directory satisfies the invariant. */
  lemma {:induction false} RunInv(m: Manifest, deeds: seq<Deed>)
    requires DistinctIds(m) && After(m, deeds).Some?
    ensures Inv(m, After(m, deeds).value)
  {
    if deeds != [] {
      RunInv(m, deeds[..|deeds| - 1]);
      PerformInv(m, After(m, deeds[..|deeds| - 1]).value, deeds[|deeds| - 1]);
    }
  }

  // ----- every run is short -----

  function Elements(s: seq<string>): (r: set<string>)
    ensures |r| <= |s|
    ensures forall x :: x in r <==> x in s
  {
    if s == [] then {} else Elements(s[..|s| - 1]) + {s[|s| - 1]}
  }

  function IdsOf(schedule: seq<Schedule.Entry>): set<string> {
    if schedule == [] then {} else IdsOf(schedule[..|schedule| - 1]) + Elements(schedule[|schedule| - 1].attemptIds)
  }

  lemma {:induction false} IdIncluded(schedule: seq<Schedule.Entry>, i: nat, k: nat)
    requires i < |schedule| && k < |schedule[i].attemptIds|
    ensures schedule[i].attemptIds[k] in IdsOf(schedule)
  {
    if i < |schedule| - 1 {
      IdIncluded(schedule[..|schedule| - 1], i, k);
    }
  }

  lemma {:induction false} FewIds(schedule: seq<Schedule.Entry>, attempts: nat)
    requires forall i :: 0 <= i < |schedule| ==> |schedule[i].attemptIds| <= attempts
    ensures |IdsOf(schedule)| <= attempts * |schedule|
  {
    if schedule != [] {
      FewIds(schedule[..|schedule| - 1], attempts);
      assert attempts * |schedule| == attempts * (|schedule| - 1) + attempts;
    }
  }

  function Validated(d: Directory): set<string> {
    set id | id in d && d[id].Finished? && !d[id].result.validation.NotRun?
  }

  /** Every step starts a new attempt or gives one its validation status. */
  lemma PerformAdvances(m: Manifest, d: Directory, deed: Deed)
    requires Perform(m, d, deed).Some? && d.Keys <= IdsOf(m.schedule)
    ensures var e := Perform(m, d, deed).value;
      && e.Keys <= IdsOf(m.schedule)
      && |e.Keys| + |Validated(e)| > |d.Keys| + |Validated(d)|
  {
    match NextAction(m, d) {
      case Ok(Run(i, k)) =>
        RunMeans(m, d, i, k);
        IdIncluded(m.schedule, i, k);
        hide NextAction, IdsOf, Validated, Fits;
        Started(d, IdAt(m, i, k), deed.attempt);
      case Ok(Validate(i, k)) =>
        hide NextAction, IdsOf, Validated;
        ValidationAttached(d, IdAt(m, i, k), deed.validation);
    }
  }

  lemma Started(d: Directory, id: string, a: Attempt)
    requires id !in d
    ensures var e := d[id := a]; e.Keys == d.Keys + {id} && |e.Keys| + |Validated(e)| > |d.Keys| + |Validated(d)|
  {
    var e := d[id := a];
    assert e.Keys == d.Keys + {id};
    SubsetSize(Validated(d), Validated(e));
  }

  lemma ValidationAttached(d: Directory, id: string, v: Validation)
    requires id in d && !v.NotRun? && AttachValidationResult(d[id], v).Ok?
    ensures var e := d[id := AttachValidationResult(d[id], v).result];
      e.Keys == d.Keys && |e.Keys| + |Validated(e)| > |d.Keys| + |Validated(d)|
  {
    var e := d[id := AttachValidationResult(d[id], v).result];
    assert e.Keys == d.Keys;
    assert Validated(e) == Validated(d) + {id};
  }

  lemma {:induction false} RunAdvances(m: Manifest, deeds: seq<Deed>)
    requires After(m, deeds).Some?
    ensures var d := After(m, deeds).value; d.Keys <= IdsOf(m.schedule) && |deeds| <= |d.Keys| + |Validated(d)|
  {
    if deeds != [] {
      RunAdvances(m, deeds[..|deeds| - 1]);
      PerformAdvances(m, After(m, deeds[..|deeds| - 1]).value, deeds[|deeds| - 1]);
    }
  }

  lemma RunShort(m: Manifest, deeds: seq<Deed>)
    requires After(m, deeds).Some?
    ensures |deeds| <= 2 * |IdsOf(m.schedule)|
  {
    var d := After(m, deeds).value;
    RunAdvances(m, deeds);
    SubsetSize(d.Keys, IdsOf(m.schedule));
    SubsetSize(Validated(d), IdsOf(m.schedule));
  }

  /** With at most `attempts` ids per trial, every run ends within 2 * attempts * |schedule| steps. */
  lemma RunEnds(m: Manifest, deeds: seq<Deed>, attempts: nat)
    requires After(m, deeds).Some?
    requires forall i :: 0 <= i < |m.schedule| ==> |m.schedule[i].attemptIds| <= attempts
    ensures |deeds| <= 2 * (attempts * |m.schedule|)
  {
    hide After, IdsOf;
    RunShort(m, deeds);
    FewIds(m.schedule, attempts);
  }

  // ----- how a run can end -----

  /** Spending stops being known: an attempt without result, or calls observed but not priced. */
  predicate Uncharged(a: Attempt) {
    a.Unfinished? || (a.Finished? && a.result.cost.None? && a.result.observedCalls > 0)
  }

  ghost predicate UnchargedAt(m: Manifest, d: Directory, i: int, k: int) {
    Present(m, d, i, k) && Uncharged(d[IdAt(m, i, k)])
  }

  /** At or after attempt k of trial i. */
  predicate From(i: int, k: int, j: int, l: int) { i < j || (i == j && k <= l) }

  ghost predicate UnreadableAt(m: Manifest, d: Directory, i: int, k: int) {
    Present(m, d, i, k) && d[IdAt(m, i, k)].Unreadable?
  }

  /** Under the invariant spend is known exactly when every attempt can be read and was charged, although
      the loop stops early. */
  lemma {:induction false} SpendKnownIff(m: Manifest, d: Directory, i: nat, k: nat, total: real)
    requires Inv(m, d) && i <= |m.schedule| && (i < |m.schedule| ==> k <= |m.schedule[i].attemptIds|)
    ensures var s := SpendFrom(m, d, i, k, total);
      && (s.Known? <==> forall j, l :: From(i, k, j, l) ==> !UnchargedAt(m, d, j, l) && !UnreadableAt(m, d, j, l))
      && (s.Unknown? ==> exists j, l :: From(i, k, j, l) && UnchargedAt(m, d, j, l))
      && (s.SpendUnreadable? ==> exists j, l :: From(i, k, j, l) && UnreadableAt(m, d, j, l))
    decreases |m.schedule| - i, if i < |m.schedule| then |m.schedule[i].attemptIds| - k else 0
  {
    if i == |m.schedule| {
    } else if k == |m.schedule[i].attemptIds| || IdAt(m, i, k) !in d {
      SpendKnownIff(m, d, i + 1, 0, total);
      forall j, l | From(i, k, j, l) && Present(m, d, j, l) ensures From(i + 1, 0, j, l) {
        if j == i && k < l {
          EarlierPassedOver(m, d, i, k, l);
        }
      }
    } else {
      assert Present(m, d, i, k) && From(i, k, i, k);
      var s := Charge(d[IdAt(m, i, k)], total);
      if s.Known? {
        SpendKnownIff(m, d, i, k + 1, s.total);
        assert !UnchargedAt(m, d, i, k) && !UnreadableAt(m, d, i, k);
      } else {
        assert UnchargedAt(m, d, i, k) || UnreadableAt(m, d, i, k);
      }
    }
  }

  lemma EarlierPassedOver(m: Manifest, d: Directory, i: int, k: int, l: int)
    requires Inv(m, d) && Present(m, d, i, l) && 0 <= k < l
    ensures PassedOver(m, d, i, k)
  {
    assert Follows(m, d, i, l);
  }

  /** Every attempt of trial i was used and passed over. */
  ghost predicate Exhausted(m: Manifest, d: Directory, i: int) {
    0 <= i < |m.schedule| && Follows(m, d, i, |m.schedule[i].attemptIds|) && InTurn(m, d, i)
  }

  /** What is left to ask for in a reachable directory: a run or a validation that can be carried out,
      completion, an exhausted trial, an unreadable attempt or, with a cap only, a stop on money. */
  ghost predicate Outcome(m: Manifest, d: Directory, r: Result<Action, DispatchError>) {
    match r
    case Ok(Run(i, k)) => InSchedule(m, i, k) && IdAt(m, i, k) !in d
    case Ok(Validate(i, k)) => Present(m, d, i, k) && Pending(d[IdAt(m, i, k)])
    case Ok(Done) => InTurn(m, d, |m.schedule|)
    case Err(AttemptLimit(i)) => Exhausted(m, d, i)
    case Err(UnreadableAttempt) => exists i, k :: UnreadableAt(m, d, i, k)
    case Err(SpendUnknown) => m.maxCost.Some? && exists i, k :: UnchargedAt(m, d, i, k)
    case Err(BudgetExceeded(_)) => m.maxCost.Some?
    case Err(NoMonetaryLimit) => m.maxCost.Some? && CostBound.MonetaryLimitReason(m.configuration).Some?
    case _ => false
  }

  lemma OutcomeOf(m: Manifest, d: Directory)
    requires Inv(m, d)
    ensures Outcome(m, d, NextAction(m, d))
  {
    SpendKnownIff(m, d, 0, 0, 0.0);
    var spend := SpendFrom(m, d, 0, 0, 0.0);
    if spend.SpendUnreadable? {
      var j, l :| From(0, 0, j, l) && UnreadableAt(m, d, j, l);
    } else if m.maxCost.Some? && spend.Unknown? {
      var j, l :| From(0, 0, j, l) && UnchargedAt(m, d, j, l);
    } else {
      var n := ScanStops(m, d, spend.total, 0);
      if n < |m.schedule| {
        var l := ScanTrialStops(m, d, spend.total, n, 0);
        if l < |m.schedule[n].attemptIds| && IdAt(m, n, l) in d {
          assert Present(m, d, n, l);
          assert d[IdAt(m, n, l)].Unreadable? ==> UnreadableAt(m, d, n, l);
        }
      }
    }
  }

  // ----- what stops an experiment for good -----

  /** A trial with an unreadable attempt is not settled: nothing before it passed or failed, and nothing
      follows it. */
  lemma UnreadableUnsettled(m: Manifest, d: Directory, i: int, k: int)
    requires Inv(m, d) && UnreadableAt(m, d, i, k)
    ensures !Settled(m, d, i)
  {
    if Settled(m, d, i) {
      var t :| TerminalAt(m, d, i, t);
      assert t != k && !PassedOver(m, d, i, t) && !PassedOver(m, d, i, k);
      if t < k {
        EarlierPassedOver(m, d, i, t, k);
      } else {
        EarlierPassedOver(m, d, i, k, t);
      }
    }
  }

  /** Where the scan gets to in a directory with an unreadable attempt. */
  lemma ScanMeetsUnreadable(m: Manifest, d: Directory, total: real, i: int, k: int)
    requires Inv(m, d) && UnreadableAt(m, d, i, k)
    ensures ScanFrom(m, d, total, 0) == Err(UnreadableAttempt)
  {
    var n := ScanStops(m, d, total, 0);
    UnreadableUnsettled(m, d, i, k);
    assert n <= i;
    var l := ScanTrialStops(m, d, total, n, 0);
    assert InTurn(m, d, i) && !PassedOver(m, d, i, k);
    if n < i {
      assert Settled(m, d, n);
      var t :| TerminalAt(m, d, n, t);
      StopsAtTerminal(m, d, total, n, t);
    } else if l < k {
      EarlierPassedOver(m, d, i, l, k);
    }
  }

  /** A settled trial does not stop the scan. */
  lemma StopsAtTerminal(m: Manifest, d: Directory, total: real, n: nat, t: int)
    requires Inv(m, d) && TerminalAt(m, d, n, t)
    ensures ScanTrial(m, d, total, n, 0).TrialTerminal?
  {
    var l := ScanTrialStops(m, d, total, n, 0);
    assert !PassedOver(m, d, n, t) && Fits(m, n, t, d[IdAt(m, n, t)]);
    if l < t {
      EarlierPassedOver(m, d, n, l, t);
    }
  }

  /** With a cap, a directory never holds both an unreadable and an uncharged attempt: whichever came
      first stopped the experiment. */
  ghost predicate OneObstacle(m: Manifest, d: Directory) {
    m.maxCost.Some? ==> forall i, k, j, l :: !(UnreadableAt(m, d, i, k) && UnchargedAt(m, d, j, l))
  }

  /** Whatever an action adds, nothing stood in the way before it. */
  lemma ActionMeansClear(m: Manifest, d: Directory, i: int, k: int)
    requires Inv(m, d) && NextAction(m, d).Ok?
    ensures !UnreadableAt(m, d, i, k) && (m.maxCost.Some? ==> !UnchargedAt(m, d, i, k))
  {
    SpendKnownIff(m, d, 0, 0, 0.0);
    assert From(0, 0, i, k) || !InSchedule(m, i, k);
    if UnreadableAt(m, d, i, k) {
      ScanMeetsUnreadable(m, d, SpendFrom(m, d, 0, 0, 0.0).total, i, k);
    }
  }

  lemma PerformOneObstacle(m: Manifest, d: Directory, deed: Deed)
    requires DistinctIds(m) && Inv(m, d) && Perform(m, d, deed).Some?
    ensures OneObstacle(m, Perform(m, d, deed).value)
  {
    var e := Perform(m, d, deed).value;
    forall i, k, j, l | m.maxCost.Some? && UnreadableAt(m, e, i, k) && UnchargedAt(m, e, j, l) ensures false {
      ActionMeansClear(m, d, i, k);
      ActionMeansClear(m, d, j, l);
    }
  }

  lemma {:induction false} RunOneObstacle(m: Manifest, deeds: seq<Deed>)
    requires DistinctIds(m) && After(m, deeds).Some?
    ensures OneObstacle(m, After(m, deeds).value)
  {
    if deeds != [] {
      RunInv(m, deeds[..|deeds| - 1]);
      PerformOneObstacle(m, After(m, deeds[..|deeds| - 1]).value, deeds[|deeds| - 1]);
    }
  }

  /** Dispatch throws on an unreadable attempt exactly when there is one, with or without a cap, and then
      nothing can ever be carried out again. */
  lemma UnreadableIsFinal(m: Manifest, deeds: seq<Deed>)
    requires DistinctIds(m) && After(m, deeds).Some?
    ensures var d := After(m, deeds).value;
      NextAction(m, d) == Err(UnreadableAttempt) <==> exists i, k :: UnreadableAt(m, d, i, k)
    ensures (exists i, k :: UnreadableAt(m, After(m, deeds).value, i, k)) ==>
      forall deed :: After(m, deeds + [deed]).None?
  {
    var d := After(m, deeds).value;
    RunInv(m, deeds);
    RunOneObstacle(m, deeds);
    OutcomeOf(m, d);
    if i, k :| UnreadableAt(m, d, i, k) {
      SpendKnownIff(m, d, 0, 0, 0.0);
      if !SpendFrom(m, d, 0, 0, 0.0).SpendUnreadable? {
        ScanMeetsUnreadable(m, d, SpendFrom(m, d, 0, 0, 0.0).total, i, k);
      }
      forall deed ensures After(m, deeds + [deed]).None? {
        RunSnoc(m, deeds, deed);
      }
    }
  }

  /** Once a capped experiment holds an attempt whose cost is unknown, it is stopped for good. */
  lemma UnknownSpendIsFinal(m: Manifest, deeds: seq<Deed>, i: int, k: int)
    requires DistinctIds(m) && After(m, deeds).Some? && m.maxCost.Some? && UnchargedAt(m, After(m, deeds).value, i, k)
    ensures NextAction(m, After(m, deeds).value) == Err(SpendUnknown)
    ensures forall deed :: After(m, deeds + [deed]).None?
  {
    var d := After(m, deeds).value;
    RunInv(m, deeds);
    RunOneObstacle(m, deeds);
    SpendKnownIff(m, d, 0, 0, 0.0);
    assert From(0, 0, i, k);
    forall deed ensures After(m, deeds + [deed]).None? {
      RunSnoc(m, deeds, deed);
    }
  }

  /** In every reachable directory of an experiment without a cap, the next action can be carried out
      unless everything is done, a trial has used all its attempts without passing or failing, or an
      attempt cannot be read. */
  lemma StuckOnlyWhen(m: Manifest, deeds: seq<Deed>)
    requires DistinctIds(m) && After(m, deeds).Some? && m.maxCost.None?
    ensures var d := After(m, deeds).value;
      && (NextAction(m, d) == Ok(Done) <==> InTurn(m, d, |m.schedule|))
      && ((exists deed :: After(m, deeds + [deed]).Some?)
          || NextAction(m, d) == Ok(Done)
          || (exists i :: Exhausted(m, d, i) && NextAction(m, d) == Err(AttemptLimit(i)))
          || (exists i, k :: UnreadableAt(m, d, i, k) && NextAction(m, d) == Err(UnreadableAttempt)))
  {
    var d := After(m, deeds).value;
    RunInv(m, deeds);
    OutcomeOf(m, d);
    if InTurn(m, d, |m.schedule|) {
      AllSettledIsDone(m, d);
    }
    match NextAction(m, d) {
      case Ok(Run(_, _)) =>
        RunSnoc(m, deeds, Created(Unfinished));
      case Ok(Validate(_, _)) =>
        RunSnoc(m, deeds, Attached(Passed));
      case _ =>
    }
  }

  lemma RunSnoc(m: Manifest, deeds: seq<Deed>, deed: Deed)
    requires After(m, deeds).Some?
    ensures After(m, deeds + [deed]) == Perform(m, After(m, deeds).value, deed)
  {
    assert (deeds + [deed])[..|deeds|] == deeds;
  }

  lemma AllSettledIsDone(m: Manifest, d: Directory)
    requires Inv(m, d) && m.maxCost.None? && InTurn(m, d, |m.schedule|)
    ensures NextAction(m, d) == Ok(Done)
  {
    SpendKnownIff(m, d, 0, 0, 0.0);
    var spend := SpendFrom(m, d, 0, 0, 0.0);
    if spend.SpendUnreadable? {
      var j, l :| From(0, 0, j, l) && UnreadableAt(m, d, j, l);
      assert Settled(m, d, j);
      UnreadableUnsettled(m, d, j, l);
    }
    var n := ScanStops(m, d, spend.total, 0);
    if n < |m.schedule| {
      assert Settled(m, d, n);
      var t :| TerminalAt(m, d, n, t);
      StopsAtTerminal(m, d, spend.total, n, t);
    }
  }

  // ----- completion, and what the report readers select -----

  /** Attempt k is the last one of its trial, and it passed or failed. */
  ghost predicate LastIsTerminal(m: Manifest, d: Directory, i: int, k: int) {
    TerminalAt(m, d, i, k) && forall l :: k < l ==> !Present(m, d, i, l)
  }

  lemma SettledAtLast(m: Manifest, d: Directory, i: int)
    requires Inv(m, d) && Settled(m, d, i)
    ensures exists k :: LastIsTerminal(m, d, i, k)
  {
    var k :| TerminalAt(m, d, i, k);
    forall l | k < l ensures !Present(m, d, i, l) {
      if Present(m, d, i, l) {
        EarlierPassedOver(m, d, i, k, l);
      }
    }
    assert LastIsTerminal(m, d, i, k);
  }

  /** How many attempts of trial i a reader visits: up to the first missing one, or the first that
      passed or failed. */
  ghost predicate Visits(m: Manifest, d: Directory, i: int, v: int) {
    && 0 <= i < |m.schedule| && 0 <= v <= |m.schedule[i].attemptIds|
    && (forall k :: 0 <= k < v ==> Present(m, d, i, k))
    && (forall k :: 0 <= k < v - 1 ==> !TerminalAt(m, d, i, k))
    && (v < |m.schedule[i].attemptIds| ==> !Present(m, d, i, v) || (v > 0 && TerminalAt(m, d, i, v - 1)))
  }

  lemma VisitsUnique(m: Manifest, d: Directory, i: int, v: int, w: int)
    requires Visits(m, d, i, v) && Visits(m, d, i, w)
    ensures v == w
  {
    assert v < w ==> Present(m, d, i, v) && !TerminalAt(m, d, i, v - 1);
    assert w < v ==> Present(m, d, i, w) && !TerminalAt(m, d, i, w - 1);
  }

  ghost predicate FinishedAt(m: Manifest, d: Directory, i: int, k: int) {
    Present(m, d, i, k) && d[IdAt(m, i, k)].Finished?
  }

  ghost predicate LastFinished(m: Manifest, d: Directory, i: int, v: int, shown: Option<nat>) {
    match shown
    case None => forall k :: 0 <= k < v ==> !FinishedAt(m, d, i, k)
    case Some(s) => s < v && FinishedAt(m, d, i, s) && forall k :: s < k < v ==> !FinishedAt(m, d, i, k)
  }

  /** Reading on from attempt k, every reader has some last attempt to visit. */
  lemma {:induction false} VisitsExists(m: Manifest, d: Directory, i: nat, k: nat) returns (v: nat)
    requires i < |m.schedule| && k <= |m.schedule[i].attemptIds|
    requires forall l :: 0 <= l < k ==> Present(m, d, i, l) && !TerminalAt(m, d, i, l)
    ensures Visits(m, d, i, v) && k <= v && (Present(m, d, i, k) ==> k < v)
    decreases |m.schedule[i].attemptIds| - k
  {
    if k == |m.schedule[i].attemptIds| || !Present(m, d, i, k) {
      v := k;
    } else if TerminalAt(m, d, i, k) {
      v := k + 1;
    } else {
      v := VisitsExists(m, d, i, k + 1);
    }
  }

  ghost predicate FirstUnreadable(m: Manifest, d: Directory, i: int, k: int) {
    UnreadableAt(m, d, i, k) && forall l :: 0 <= l < k ==> !UnreadableAt(m, d, i, l)
  }

  lemma {:induction false} SomeUnreadableFirst(m: Manifest, d: Directory, i: int, k: int) returns (f: int)
    requires UnreadableAt(m, d, i, k)
    ensures 0 <= f <= k && FirstUnreadable(m, d, i, f)
    decreases k
  {
    f := k;
    if l :| 0 <= l < k && UnreadableAt(m, d, i, l) {
      f := SomeUnreadableFirst(m, d, i, l);
    }
  }

  /** The identity the smoke report asks for: it does not compare the repetition. */
  predicate MatchesTask(m: Manifest, i: int, k: int, r: RunResult)
    requires InSchedule(m, i, k)
  {
    && r.identity.experimentId == m.experimentId && r.identity.taskId == m.schedule[i].taskId
    && r.identity.attemptId == IdAt(m, i, k) && r.mode == m.schedule[i].mode
  }

  /** It is the whole identity but for the repetition. */
  lemma MatchesTaskIff(m: Manifest, i: int, k: int, r: RunResult)
    requires InSchedule(m, i, k)
    ensures Matches(m, i, k, r) <==> MatchesTask(m, i, k, r) && r.identity.repetition == m.schedule[i].repetition
  {
  }

  /** The smoke report on a trial all of whose v visited attempts can be read: the last one or nothing.
      `source` stands for its comparisons of provenance. */
  ghost function SmokeSelects(m: Manifest, d: Directory, i: int, v: nat, source: RunResult -> bool):
    Result<Option<nat>, DispatchError>
  {
    if !FinishedAt(m, d, i, v - 1) then Ok(None)
    else if !MatchesTask(m, i, v - 1, d[IdAt(m, i, v - 1)].result) then Err(IdentityMismatch)
    else if !source(d[IdAt(m, i, v - 1)].result) then Err(ProvenanceMismatch)
    else Ok(Some(v - 1))
  }

  /** What the smoke report makes of a trial with v visited attempts. The handler around a trial swallows
      a missing file and drops the trial; any other error leaves no report at all. */
  ghost predicate SmokeReads(m: Manifest, d: Directory, i: int, v: nat, source: RunResult -> bool,
      r: Result<Option<nat>, DispatchError>)
  {
    && Visits(m, d, i, v)
    && (forall k :: 0 <= k < v && FirstUnreadable(m, d, i, k) ==>
          r == if d[IdAt(m, i, k)].missingLog then Ok(None) else Err(UnreadableAttempt))
    && ((forall k :: 0 <= k < v ==> !UnreadableAt(m, d, i, k)) ==> r == SmokeSelects(m, d, i, v, source))
  }

  /** The trial loop's body in `generateSmokeReport`. */
  method SmokeSelection(m: Manifest, d: Directory, i: nat, source: RunResult -> bool)
    returns (r: Result<Option<nat>, DispatchError>)
    requires i < |m.schedule|
    ensures exists v :: SmokeReads(m, d, i, v, source, r)
  {
    var ids := m.schedule[i].attemptIds;
    var k := 0;
    while k < |ids|
      invariant 0 <= k <= |ids|
      invariant forall l :: 0 <= l < k ==> Present(m, d, i, l) && !UnreadableAt(m, d, i, l) && !TerminalAt(m, d, i, l)
    {
      if ids[k] !in d {
        break;
      }
      assert Present(m, d, i, k);
      var attempt := d[ids[k]];
      if attempt.Unreadable? {
        ghost var v := VisitsExists(m, d, i, k);
        r := if attempt.missingLog then Ok(None) else Err(UnreadableAttempt);
        assert UnreadableAt(m, d, i, k);
        assert SmokeReads(m, d, i, v, source, r);
        return;
      }
      k := k + 1;
      if attempt.Finished? && (Classify(attempt.result).Pass? || Classify(attempt.result).Fail?) {
        assert TerminalAt(m, d, i, k - 1);
        assert Visits(m, d, i, k);
        break;
      }
    }
    assert Visits(m, d, i, k);
    assert k > 0 ==> Present(m, d, i, k - 1);
    if k == 0 || !d[ids[k - 1]].Finished? {
      r := Ok(None);
    } else if !MatchesTask(m, i, k - 1, d[ids[k - 1]].result) {
      r := Err(IdentityMismatch);
    } else if !source(d[ids[k - 1]].result) {
      r := Err(ProvenanceMismatch);
    } else {
      r := Ok(Some(k - 1));
    }
    assert SmokeReads(m, d, i, k, source, r);
  }

  /** What the analysis demands of every attempt it visits; `sound` stands for its comparisons of evidence
      kind, decision source and provenance. */
  ghost predicate Acceptable(m: Manifest, d: Directory, i: int, k: int, sound: RunResult -> bool) {
    Present(m, d, i, k) && !d[IdAt(m, i, k)].Unreadable?
    && (FinishedAt(m, d, i, k) ==> Matches(m, i, k, d[IdAt(m, i, k)].result) && sound(d[IdAt(m, i, k)].result))
  }

  /** The first attempt the analysis does not accept, and why. */
  ghost predicate Refused(m: Manifest, d: Directory, i: int, sound: RunResult -> bool, k: int, error: DispatchError) {
    && Present(m, d, i, k) && (forall l :: 0 <= l < k ==> Acceptable(m, d, i, l, sound))
    && (match error
        case UnreadableAttempt => UnreadableAt(m, d, i, k)
        case IdentityMismatch => FinishedAt(m, d, i, k) && !Matches(m, i, k, d[IdAt(m, i, k)].result)
        case ProvenanceMismatch =>
          FinishedAt(m, d, i, k) && Matches(m, i, k, d[IdAt(m, i, k)].result) && !sound(d[IdAt(m, i, k)].result)
        case _ => false)
  }

  /** What the analysis makes of a trial with v visited attempts: it shows the last one that has a result,
      and throws on the first one it does not accept. */
  ghost predicate AnalysisReads(m: Manifest, d: Directory, i: int, v: nat, sound: RunResult -> bool,
      r: Result<Option<nat>, DispatchError>)
  {
    && Visits(m, d, i, v)
    && (match r
        case Ok(shown) => LastFinished(m, d, i, v, shown) && forall k :: 0 <= k < v ==> Acceptable(m, d, i, k, sound)
        case Err(error) => exists k :: 0 <= k < v && Refused(m, d, i, sound, k, error))
  }

  /** The trial loop's body in `loadExperimentRecords`. */
  method AnalysisSelection(m: Manifest, d: Directory, i: nat, sound: RunResult -> bool)
    returns (r: Result<Option<nat>, DispatchError>)
    requires i < |m.schedule|
    ensures exists v :: AnalysisReads(m, d, i, v, sound, r)
  {
    var ids := m.schedule[i].attemptIds;
    var selected: Option<nat> := None;
    var k := 0;
    while k < |ids|
      invariant 0 <= k <= |ids|
      invariant LastFinished(m, d, i, k, selected)
      invariant forall l :: 0 <= l < k ==> Present(m, d, i, l) && !TerminalAt(m, d, i, l)
      invariant forall l :: 0 <= l < k ==> Acceptable(m, d, i, l, sound)
    {
      if ids[k] !in d {
        break;
      }
      assert Present(m, d, i, k);
      ghost var v := VisitsExists(m, d, i, k);
      var attempt := d[ids[k]];
      if attempt.Unreadable? {
        assert Refused(m, d, i, sound, k, UnreadableAttempt);
        assert AnalysisReads(m, d, i, v, sound, Err(UnreadableAttempt));
        return Err(UnreadableAttempt);
      }
      if attempt.Finished? {
        if !Matches(m, i, k, attempt.result) {
          assert Refused(m, d, i, sound, k, IdentityMismatch);
          assert AnalysisReads(m, d, i, v, sound, Err(IdentityMismatch));
          return Err(IdentityMismatch);
        }
        if !sound(attempt.result) {
          assert Refused(m, d, i, sound, k, ProvenanceMismatch);
          assert AnalysisReads(m, d, i, v, sound, Err(ProvenanceMismatch));
          return Err(ProvenanceMismatch);
        }
        selected := Some(k);
        assert LastFinished(m, d, i, k + 1, selected);
        if Classify(attempt.result).Pass? || Classify(attempt.result).Fail? {
          assert TerminalAt(m, d, i, k);
          assert AnalysisReads(m, d, i, k + 1, sound, Ok(selected));
          return Ok(selected);
        }
      }
      k := k + 1;
    }
    assert Visits(m, d, i, k);
    r := Ok(selected);
    assert AnalysisReads(m, d, i, k, sound, r);
  }

  /** The same attempt or none is shown for the trial, or both readers give up on the experiment. */
  predicate Agree(smoke: Result<Option<nat>, DispatchError>, analysis: Result<Option<nat>, DispatchError>) {
    smoke == analysis || (smoke.Err? && analysis.Err?)
  }

  /** Does the smoke report give up on a trial with v visited attempts? */
  ghost predicate SmokeFails(m: Manifest, d: Directory, i: int, v: nat, source: RunResult -> bool) {
    || (exists k :: 0 <= k < v && FirstUnreadable(m, d, i, k) && !d[IdAt(m, i, k)].missingLog)
    || ((forall k :: 0 <= k < v ==> !UnreadableAt(m, d, i, k)) && FinishedAt(m, d, i, v - 1)
        && !(MatchesTask(m, i, v - 1, d[IdAt(m, i, v - 1)].result) && source(d[IdAt(m, i, v - 1)].result)))
  }

  /** When the readers agree on a trial, in any directory. Where the analysis accepts every attempt, the
      last one must have a result the smoke report accepts too, or none may have one: the smoke report
      drops a trial whose last attempt was interrupted. Elsewhere the smoke report must give up as well,
      which it does not on an attempt without its event file. */
  lemma ReadersAgree(m: Manifest, d: Directory, i: int, v: nat, source: RunResult -> bool, sound: RunResult -> bool,
      smoke: Result<Option<nat>, DispatchError>, analysis: Result<Option<nat>, DispatchError>)
    requires SmokeReads(m, d, i, v, source, smoke) && AnalysisReads(m, d, i, v, sound, analysis)
    ensures Agree(smoke, analysis) <==>
      if !(forall k :: 0 <= k < v ==> Acceptable(m, d, i, k, sound)) then SmokeFails(m, d, i, v, source)
      else if FinishedAt(m, d, i, v - 1) then source(d[IdAt(m, i, v - 1)].result)
      else forall k :: 0 <= k < v ==> !FinishedAt(m, d, i, k)
  {
    if k :| 0 <= k < v && UnreadableAt(m, d, i, k) {
      var f := SomeUnreadableFirst(m, d, i, k);
      assert !Acceptable(m, d, i, f, sound);
      forall l | FirstUnreadable(m, d, i, l) ensures l == f {
        assert UnreadableAt(m, d, i, l) && UnreadableAt(m, d, i, f);
      }
    }
    if analysis.Err? {
      var k :| 0 <= k < v && Refused(m, d, i, sound, k, analysis.error);
      assert !Acceptable(m, d, i, k, sound);
    } else {
      forall k | 0 <= k < v ensures !UnreadableAt(m, d, i, k) {
        assert Acceptable(m, d, i, k, sound);
      }
      assert FinishedAt(m, d, i, v - 1) ==> Acceptable(m, d, i, v - 1, sound);
    }
  }

  /** Every result of the trial passes both readers' comparisons of provenance. */
  ghost predicate AllSound(m: Manifest, d: Directory, i: int, source: RunResult -> bool, sound: RunResult -> bool) {
    forall k :: FinishedAt(m, d, i, k) ==> source(d[IdAt(m, i, k)].result) && sound(d[IdAt(m, i, k)].result)
  }

  /** In a reachable directory only the last attempt of a trial can be unreadable, and no result carries
      another attempt's identity. */
  lemma ReachableTrial(m: Manifest, d: Directory, i: int, v: nat, source: RunResult -> bool, sound: RunResult -> bool)
    requires Inv(m, d) && Visits(m, d, i, v) && AllSound(m, d, i, source, sound)
    ensures forall k :: 0 <= k < v - 1 ==> Acceptable(m, d, i, k, sound)
    ensures v > 0 ==> (Acceptable(m, d, i, v - 1, sound) <==> !UnreadableAt(m, d, i, v - 1))
    ensures FinishedAt(m, d, i, v - 1) ==> MatchesTask(m, i, v - 1, d[IdAt(m, i, v - 1)].result)
    ensures forall k :: UnreadableAt(m, d, i, k) ==> k == v - 1 && FirstUnreadable(m, d, i, k)
  {
    forall k | 0 <= k < v - 1 ensures Acceptable(m, d, i, k, sound) {
      EarlierPassedOver(m, d, i, k, v - 1);
    }
    forall k | UnreadableAt(m, d, i, k) ensures k == v - 1 && FirstUnreadable(m, d, i, k) {
      if k >= v {
        if v > 0 && TerminalAt(m, d, i, v - 1) {
          EarlierPassedOver(m, d, i, v - 1, k);
        } else if k > v {
          EarlierPassedOver(m, d, i, v, k);
        }
      }
      assert 0 <= k < v - 1 ==> Acceptable(m, d, i, k, sound);
      forall l | 0 <= l < k ensures !UnreadableAt(m, d, i, l) {
        assert Acceptable(m, d, i, l, sound);
      }
    }
  }

  /** The last of v visited attempts has no event file, or was interrupted after one with a result. */
  ghost predicate Differing(m: Manifest, d: Directory, i: int, v: nat) {
    v > 0 && Present(m, d, i, v - 1) &&
    match d[IdAt(m, i, v - 1)]
    case Unreadable(missingLog) => missingLog
    case Unfinished => exists k :: 0 <= k < v && FinishedAt(m, d, i, k)
    case Finished(_, _) => false
  }

  /** In a reachable directory whose results all pass both readers' comparisons, the readers differ on a
      trial exactly when its last attempt has no event file, or was interrupted after one with a result. */
  lemma ReachableReadersAgree(m: Manifest, deeds: seq<Deed>, i: int, v: nat, source: RunResult -> bool,
      sound: RunResult -> bool, smoke: Result<Option<nat>, DispatchError>, analysis: Result<Option<nat>, DispatchError>)
    requires DistinctIds(m) && After(m, deeds).Some? && AllSound(m, After(m, deeds).value, i, source, sound)
    requires SmokeReads(m, After(m, deeds).value, i, v, source, smoke)
    requires AnalysisReads(m, After(m, deeds).value, i, v, sound, analysis)
    ensures smoke != analysis <==> Differing(m, After(m, deeds).value, i, v)
  {
    hide After;
    var d := After(m, deeds).value;
    RunInv(m, deeds);
    ReachableTrial(m, d, i, v, source, sound);
    ReadersAgree(m, d, i, v, source, sound, smoke, analysis);
    assert analysis.Err? ==> analysis.error.UnreadableAttempt?;
  }

  /** Of a reachable directory whose results all pass, the smoke report can be made exactly if no event log
      is corrupt, and the analysis exactly if moreover none is missing. */
  lemma ReadersFailIff(m: Manifest, deeds: seq<Deed>, source: RunResult -> bool, sound: RunResult -> bool)
    requires DistinctIds(m) && After(m, deeds).Some?
    requires forall i :: AllSound(m, After(m, deeds).value, i, source, sound)
    ensures var d := After(m, deeds).value;
      && ((exists i, v, e :: SmokeReads(m, d, i, v, source, Err(e)))
          <==> exists i, k :: UnreadableAt(m, d, i, k) && !d[IdAt(m, i, k)].missingLog)
      && ((exists i, v, e :: AnalysisReads(m, d, i, v, sound, Err(e))) <==> exists i, k :: UnreadableAt(m, d, i, k))
  {
    hide After;
    var d := After(m, deeds).value;
    RunInv(m, deeds);
    forall i, k | UnreadableAt(m, d, i, k)
      ensures exists v, e :: AnalysisReads(m, d, i, v, sound, Err(e))
      ensures !d[IdAt(m, i, k)].missingLog ==> exists v, e :: SmokeReads(m, d, i, v, source, Err(e))
    {
      var v := VisitsExists(m, d, i, 0);
      ReachableTrial(m, d, i, v, source, sound);
      assert Refused(m, d, i, sound, k, UnreadableAttempt);
      assert AnalysisReads(m, d, i, v, sound, Err(UnreadableAttempt));
      assert !d[IdAt(m, i, k)].missingLog ==> SmokeReads(m, d, i, v, source, Err(UnreadableAttempt));
    }
    forall i, v: nat, e | AnalysisReads(m, d, i, v, sound, Err(e)) ensures UnreadableAt(m, d, i, v - 1) {
      ReachableTrial(m, d, i, v, source, sound);
    }
    forall i, v: nat, e | SmokeReads(m, d, i, v, source, Err(e))
      ensures UnreadableAt(m, d, i, v - 1) && !d[IdAt(m, i, v - 1)].missingLog
    {
      ReachableTrial(m, d, i, v, source, sound);
    }
  }

  /** When dispatch is done, every trial's last attempt passed or failed, and both readers show exactly
      that attempt. */
  lemma DoneMeans(m: Manifest, deeds: seq<Deed>, i: nat, source: RunResult -> bool, sound: RunResult -> bool)
    requires DistinctIds(m) && After(m, deeds).Some? && NextAction(m, After(m, deeds).value) == Ok(Done)
    requires i < |m.schedule| && AllSound(m, After(m, deeds).value, i, source, sound)
    ensures var d := After(m, deeds).value;
      exists k: nat :: LastIsTerminal(m, d, i, k)
        && (forall v, r :: SmokeReads(m, d, i, v, source, r) ==> r == Ok(Some(k)))
        && (forall v, r :: AnalysisReads(m, d, i, v, sound, r) ==> r == Ok(Some(k)))
  {
    hide After, NextAction;
    var d := After(m, deeds).value;
    RunInv(m, deeds);
    OutcomeOf(m, d);
    assert Settled(m, d, i);
    SettledAtLast(m, d, i);
    var k: nat :| LastIsTerminal(m, d, i, k);
    TerminalShown(m, d, i, k, source, sound);
  }

  lemma TerminalShown(m: Manifest, d: Directory, i: nat, k: nat, source: RunResult -> bool, sound: RunResult -> bool)
    requires Inv(m, d) && LastIsTerminal(m, d, i, k) && AllSound(m, d, i, source, sound)
    ensures forall v, r :: SmokeReads(m, d, i, v, source, r) ==> r == Ok(Some(k))
    ensures forall v, r :: AnalysisReads(m, d, i, v, sound, r) ==> r == Ok(Some(k))
  {
    forall l | 0 <= l < k ensures Present(m, d, i, l) && !TerminalAt(m, d, i, l) {
      EarlierPassedOver(m, d, i, l, k);
    }
    assert Visits(m, d, i, k + 1);
    ReachableTrial(m, d, i, k + 1, source, sound);
    forall v | Visits(m, d, i, v) ensures v == k + 1 {
      VisitsUnique(m, d, i, v, k + 1);
    }
    assert FinishedAt(m, d, i, k);
  }

  /** An unavailable first attempt and an interrupted second one: the analysis shows the first, the smoke
      report nothing. */
  lemma ReadersDisagree(m: Manifest, r: RunResult, source: RunResult -> bool, sound: RunResult -> bool)
    requires DistinctIds(m) && InSchedule(m, 0, 1) && m.maxCost.None? && Matches(m, 0, 0, r)
      && r.execution.OtherFailure? && sound(r)
    ensures var deeds := [Created(Finished(r, false)), Created(Unfinished)];
      && After(m, deeds).Some?
      && SmokeReads(m, After(m, deeds).value, 0, 2, source, Ok(None))
      && AnalysisReads(m, After(m, deeds).value, 0, 2, sound, Ok(Some(0)))
  {
    var first, second := Created(Finished(r, false)), Created(Unfinished);
    var d: Directory := map[IdAt(m, 0, 0) := Finished(r, false)];
    FirstAction(m);
    RunSnoc(m, [], first);
    assert [] + [first] == [first] && [first] + [second] == [first, second];
    assert After(m, [first]) == Some(d);
    SecondAction(m, d);
    RunSnoc(m, [first], second);
    var e := d[IdAt(m, 0, 1) := Unfinished];
    assert After(m, [first, second]) == Some(e);
    assert IdAt(m, 0, 0) != IdAt(m, 0, 1);
    assert InSchedule(m, 0, 2) ==> IdAt(m, 0, 2) != IdAt(m, 0, 0) && IdAt(m, 0, 2) != IdAt(m, 0, 1);
    assert Visits(m, e, 0, 2);
    assert LastFinished(m, e, 0, 2, Some(0));
    assert forall k :: !UnreadableAt(m, e, 0, k);
  }

  /** A first run interrupted before its event file existed: the smoke report drops the trial, the analysis
      throws, and dispatch is stopped for good. */
  lemma MissingLogDisagrees(m: Manifest, source: RunResult -> bool, sound: RunResult -> bool)
    requires DistinctIds(m) && InSchedule(m, 0, 0) && m.maxCost.None?
    ensures var deeds := [Created(Unreadable(true))];
      && After(m, deeds).Some?
      && SmokeReads(m, After(m, deeds).value, 0, 1, source, Ok(None))
      && AnalysisReads(m, After(m, deeds).value, 0, 1, sound, Err(UnreadableAttempt))
      && NextAction(m, After(m, deeds).value) == Err(UnreadableAttempt)
  {
    var only := Created(Unreadable(true));
    var d: Directory := map[IdAt(m, 0, 0) := Unreadable(true)];
    FirstAction(m);
    RunSnoc(m, [], only);
    assert [] + [only] == [only];
    assert After(m, [only]) == Some(d);
    assert UnreadableAt(m, d, 0, 0);
    UnreadableIsFinal(m, [only]);
    assert InSchedule(m, 0, 1) ==> IdAt(m, 0, 1) != IdAt(m, 0, 0);
    assert Visits(m, d, 0, 1);
    assert Refused(m, d, 0, sound, 0, UnreadableAttempt);
  }

  lemma SecondAction(m: Manifest, d: Directory)
    requires DistinctIds(m) && InSchedule(m, 0, 1) && m.maxCost.None?
    requires d.Keys == {IdAt(m, 0, 0)} && d[IdAt(m, 0, 0)].Finished? && Matches(m, 0, 0, d[IdAt(m, 0, 0)].result)
    requires d[IdAt(m, 0, 0)].result.execution.OtherFailure?
    ensures NextAction(m, d) == Ok(Run(0, 1))
  {
    assert IdAt(m, 0, 0) != IdAt(m, 0, 1);
    assert Inv(m, d);
    SpendKnownIff(m, d, 0, 0, 0.0);
    assert forall i, k :: !UnreadableAt(m, d, i, k);
    assert ScanTrial(m, d, SpendFrom(m, d, 0, 0, 0.0).total, 0, 1) == Act(Run(0, 1));
  }

  // ----- the budget -----

  function CostIn(d: Directory): string -> real {
    (id: string) => if id in d && d[id].Finished? && d[id].result.cost.Some? then d[id].result.cost.value else 0.0
  }

  function TrialCost(d: Directory): Schedule.Entry -> real {
    (trial: Schedule.Entry) => Sum(CostIn(d), trial.attemptIds)
  }

  /** The recorded cost of every attempt of the experiment. */
  function Recorded(m: Manifest, d: Directory): real { Sum(TrialCost(d), m.schedule) }

  lemma SumCons<T>(f: T -> real, x: T, s: seq<T>)
    ensures Sum(f, [x] + s) == f(x) + Sum(f, s)
  {
    SumConcat(f, [x], s);
    SumSnoc(f, [], x);
    assert [] + [x] == [x];
  }

  lemma {:induction false} SumZero<T>(f: T -> real, s: seq<T>)
    requires forall i :: 0 <= i < |s| ==> f(s[i]) == 0.0
    ensures Sum(f, s) == 0.0
  {
    if s != [] {
      SumZero(f, s[..|s| - 1]);
    }
  }

  /** Changing one term changes the sum by as much. */
  lemma {:induction false} SumChange<T>(f: T -> real, g: T -> real, s: seq<T>, k: nat)
    requires k < |s| && forall i :: 0 <= i < |s| && i != k ==> f(s[i]) == g(s[i])
    ensures Sum(g, s) == Sum(f, s) - f(s[k]) + g(s[k])
  {
    if k < |s| - 1 {
      SumChange(f, g, s[..|s| - 1], k);
    } else {
      SumSame(f, g, s[..|s| - 1]);
    }
  }

  /** What is recorded at or after attempt k of trial i. */
  function RecordedFrom(m: Manifest, d: Directory, i: nat, k: nat): real
    requires i <= |m.schedule| && (i < |m.schedule| ==> k <= |m.schedule[i].attemptIds|)
  {
    if i == |m.schedule| then 0.0
    else Sum(CostIn(d), m.schedule[i].attemptIds[k..]) + Sum(TrialCost(d), m.schedule[i + 1..])
  }

  lemma RecordedTrial(m: Manifest, d: Directory, i: nat)
    requires i < |m.schedule|
    ensures Sum(TrialCost(d), m.schedule[i..]) == RecordedFrom(m, d, i, 0)
  {
    assert m.schedule[i..] == [m.schedule[i]] + m.schedule[i + 1..];
    SumCons(TrialCost(d), m.schedule[i], m.schedule[i + 1..]);
    assert m.schedule[i].attemptIds[0..] == m.schedule[i].attemptIds;
  }

  lemma RecordedNext(m: Manifest, d: Directory, i: nat, k: nat)
    requires InSchedule(m, i, k)
    ensures RecordedFrom(m, d, i, k) == CostIn(d)(IdAt(m, i, k)) + RecordedFrom(m, d, i, k + 1)
  {
    var ids := m.schedule[i].attemptIds;
    assert ids[k..] == [ids[k]] + ids[k + 1..];
    SumCons(CostIn(d), ids[k], ids[k + 1..]);
  }

  /** Nothing is recorded for a trial past its first missing attempt. */
  lemma RecordedSkips(m: Manifest, d: Directory, i: nat, k: nat)
    requires Inv(m, d) && i < |m.schedule| && k <= |m.schedule[i].attemptIds| && !Present(m, d, i, k)
    ensures RecordedFrom(m, d, i, k) == RecordedFrom(m, d, i + 1, 0)
  {
    var rest := m.schedule[i].attemptIds[k..];
    forall l | 0 <= l < |rest| ensures CostIn(d)(rest[l]) == 0.0 {
      assert rest[l] == IdAt(m, i, k + l);
      if Present(m, d, i, k + l) && l > 0 {
        EarlierPassedOver(m, d, i, k, k + l);
      }
    }
    SumZero(CostIn(d), rest);
    if i + 1 < |m.schedule| {
      RecordedTrial(m, d, i + 1);
    } else {
      assert m.schedule[i + 1..] == [];
    }
  }

  /** A known spend is exactly what all attempts recorded. */
  lemma {:induction false} SpendIsRecorded(m: Manifest, d: Directory, i: nat, k: nat, total: real)
    requires Inv(m, d) && i <= |m.schedule| && (i < |m.schedule| ==> k <= |m.schedule[i].attemptIds|)
    ensures SpendFrom(m, d, i, k, total).Known?
      ==> SpendFrom(m, d, i, k, total).total == total + RecordedFrom(m, d, i, k)
    decreases |m.schedule| - i, if i < |m.schedule| then |m.schedule[i].attemptIds| - k else 0
  {
    hide RecordedFrom;
    if i == |m.schedule| {
      RecordedEnd(m, d, k);
    } else if k == |m.schedule[i].attemptIds| || IdAt(m, i, k) !in d {
      RecordedSkips(m, d, i, k);
      SpendIsRecorded(m, d, i + 1, 0, total);
    } else {
      RecordedNext(m, d, i, k);
      var s := Charge(d[IdAt(m, i, k)], total);
      if s.Known? {
        SpendIsRecorded(m, d, i, k + 1, s.total);
      }
    }
  }

  lemma RecordedEnd(m: Manifest, d: Directory, k: nat)
    ensures RecordedFrom(m, d, |m.schedule|, k) == 0.0
  {
  }

  lemma KnownSpend(m: Manifest, d: Directory)
    requires Inv(m, d) && SpendFrom(m, d, 0, 0, 0.0).Known?
    ensures SpendFrom(m, d, 0, 0, 0.0).total == Recorded(m, d)
  {
    SpendIsRecorded(m, d, 0, 0, 0.0);
    if m.schedule != [] {
      RecordedTrial(m, d, 0);
      assert m.schedule[0..] == m.schedule;
    }
  }

  /** Writing one attempt changes what is recorded by that attempt's cost. */
  lemma RecordedChange(m: Manifest, d: Directory, i: nat, k: nat, a: Attempt)
    requires DistinctIds(m) && InSchedule(m, i, k)
    ensures var e, id := d[IdAt(m, i, k) := a], IdAt(m, i, k);
      Recorded(m, e) == Recorded(m, d) - CostIn(d)(id) + CostIn(e)(id)
  {
    var e, id := d[IdAt(m, i, k) := a], IdAt(m, i, k);
    forall j | 0 <= j < |m.schedule| && j != i ensures TrialCost(d)(m.schedule[j]) == TrialCost(e)(m.schedule[j]) {
      forall l | 0 <= l < |m.schedule[j].attemptIds|
        ensures CostIn(d)(m.schedule[j].attemptIds[l]) == CostIn(e)(m.schedule[j].attemptIds[l])
      {
        assert IdAt(m, j, l) != id;
      }
      SumSame(CostIn(d), CostIn(e), m.schedule[j].attemptIds);
    }
    SumChange(TrialCost(d), TrialCost(e), m.schedule, i);
    forall l | 0 <= l < |m.schedule[i].attemptIds| && l != k
      ensures CostIn(d)(m.schedule[i].attemptIds[l]) == CostIn(e)(m.schedule[i].attemptIds[l])
    {
      assert IdAt(m, i, l) != id;
    }
    SumChange(CostIn(d), CostIn(e), m.schedule[i].attemptIds, k);
  }

  /** The recorded cost of a new attempt is within the bound reserved for its mode. */
  predicate WithinBound(m: Manifest, deed: Deed) {
    deed.Created? && deed.attempt.Finished? && deed.attempt.result.cost.Some? ==>
      var bound := CostBound.ConservativeTrialCostBound(m.configuration, deed.attempt.result.mode);
      bound.Ok? && deed.attempt.result.cost.value <= bound.result
  }

  lemma PerformWithinBudget(m: Manifest, d: Directory, deed: Deed)
    requires DistinctIds(m) && Inv(m, d) && Perform(m, d, deed).Some?
    requires m.maxCost.Some? && Recorded(m, d) <= m.maxCost.value && WithinBound(m, deed)
    ensures Recorded(m, Perform(m, d, deed).value) <= m.maxCost.value
  {
    hide Recorded, CostBound.ConservativeTrialCostBound, Inv;
    match NextAction(m, d) {
      case Ok(Run(i, k)) =>
        RunMeans(m, d, i, k);
        KnownSpend(m, d);
        RecordedChange(m, d, i, k, deed.attempt);
      case Ok(Validate(i, k)) =>
        RecordedChange(m, d, i, k, AttachValidationResult(d[IdAt(m, i, k)], deed.validation).result);
    }
  }

  /** With a cap, recorded spend never exceeds it in any reachable directory, provided every attempt's
      recorded cost is within the bound for its mode. */
  lemma {:induction false} BudgetHolds(m: Manifest, deeds: seq<Deed>)
    requires DistinctIds(m) && After(m, deeds).Some?
    requires m.maxCost.Some? && m.maxCost.value > 0.0 && forall deed :: deed in deeds ==> WithinBound(m, deed)
    ensures Recorded(m, After(m, deeds).value) <= m.maxCost.value
  {
    if deeds == [] {
      NothingRecorded(m);
    } else {
      var init, last := deeds[..|deeds| - 1], deeds[|deeds| - 1];
      assert last in deeds && forall deed :: deed in init ==> deed in deeds;
      BudgetHolds(m, init);
      RunInv(m, init);
      PerformWithinBudget(m, After(m, init).value, last);
    }
  }

  lemma NothingRecorded(m: Manifest)
    ensures Recorded(m, map[]) == 0.0
  {
    forall i | 0 <= i < |m.schedule| ensures TrialCost(map[])(m.schedule[i]) == 0.0 {
      SumZero(CostIn(map[]), m.schedule[i].attemptIds);
    }
    SumZero(TrialCost(map[]), m.schedule);
  }

  /** When the premise of `BudgetHolds` holds: for a result whose cost was computed from a ledger within the
      caps whose coding and compaction calls fit into the turn budget. */
  lemma PresumedRunsWithinBound(m: Manifest, r: RunResult, decided: Option<Trials.Tier>, calls: seq<Usage.Call>)
    requires CostBound.ValidConfig(m.configuration) && CostBound.MonetaryLimitReason(m.configuration).None?
    requires CostBound.TierFits(r.mode, decided) && CostBound.Presumed(m.configuration, r.mode, calls)
    requires r.cost == CostBound.TotalEstimatedCost(m.configuration, r.mode, decided, calls)
    ensures WithinBound(m, Created(Finished(r, false))) && WithinBound(m, Created(Finished(r, true)))
  {
    hide CostBound.ValidConfig, CostBound.MonetaryLimitReason, CostBound.Presumed, CostBound.TotalEstimatedCost;
    hide CostBound.ConservativeTrialCostBound, CostBound.TierFits;
    CostBound.TrialWithinBound(m.configuration, r.mode, decided, calls);
  }

  /** An empty experiment starts with the first attempt of the first trial, if its reserve is free. */
  lemma FirstAction(m: Manifest)
    requires InSchedule(m, 0, 0) && DistinctIds(m)
    ensures NextAction(m, map[]) == match Reserve(m, 0.0, 0, 0)
      case Act(action) => Ok(action)
      case Refuse(error) => Err(error)
      case TrialTerminal => Ok(Done)
  {
    RunInv(m, []);
    SpendKnownIff(m, map[], 0, 0, 0.0);
    KnownSpend(m, map[]);
    NothingRecorded(m);
  }

  /** One compaction call beyond the turn budget can spend more than the cap: the first trial of this
      experiment was started because its reserve just fitted. */
  lemma CompactionExceedsCap(m: Manifest, r: RunResult, submission: bool)
    requires CostBound.ValidConfig(m.configuration) && CostBound.MonetaryLimitReason(m.configuration).None?
    requires DistinctIds(m) && InSchedule(m, 0, 0) && Matches(m, 0, 0, r)
    requires m.maxCost == Some(CostBound.Reserve(m.configuration, r.mode))
    requires CostBound.CodingBound(m.configuration, r.mode) > 0.0
    requires r.cost == CostBound.TotalEstimatedCost(
      m.configuration, r.mode, Some(CostBound.DearestTier(m.configuration, r.mode)),
      CostBound.DearestCalls(m.configuration, r.mode, m.configuration.maxAgentTurns, 1))
    ensures var deeds := [Created(Finished(r, submission))];
      && After(m, deeds).Some?
      && Recorded(m, After(m, deeds).value) == m.maxCost.value + CostBound.CodingBound(m.configuration, r.mode)
  {
    hide CostBound.ValidConfig, CostBound.TotalEstimatedCost, CostBound.DearestTier, CostBound.DearestCalls;
    hide CostBound.WithCounts, CostBound.MonetaryLimitReason, CostBound.CodingBound, Recorded;
    CostBound.CompactionExceedsBound(m.configuration, r.mode);
    FirstAction(m);
    RunSnoc(m, [], Created(Finished(r, submission)));
    assert [] + [Created(Finished(r, submission))] == [Created(Finished(r, submission))];
    RecordedChange(m, map[], 0, 0, Finished(r, submission));
    NothingRecorded(m);
  }

  /** The generated schedule has the distinct ids that every result above asks for. */
  lemma GeneratedScheduleDistinct(m: Manifest, tasks: seq<string>, stream: Shuffling.Stream, seed: int,
    repetitions: nat)
    requires Shuffling.InRange(stream) && NoDuplicates(tasks)
    requires m.schedule == Schedule.ScheduleOf(tasks, stream, seed, repetitions)
    ensures DistinctIds(m)
    ensures forall i :: 0 <= i < |m.schedule| ==> |m.schedule[i].attemptIds| == Schedule.MAX_ATTEMPTS
  {
    hide Schedule.ScheduleOf, Shuffling.InRange;
    forall i | 0 <= i < |m.schedule| ensures |m.schedule[i].attemptIds| == Schedule.MAX_ATTEMPTS {
      Schedule.IdentifiersDistinct(tasks, stream, seed, repetitions, i, 0, i, 0);
    }
    forall i, k, j, l | InSchedule(m, i, k) && InSchedule(m, j, l) && IdAt(m, i, k) == IdAt(m, j, l)
      ensures i == j && k == l
    {
      Schedule.IdentifiersDistinct(tasks, stream, seed, repetitions, i, k, j, l);
    }
  }

  // ----- which results decide a trial, and what comes next -----

  /** A run that timed out or ran out of budget, or a completed one that was validated either way. */
  predicate Decides(r: RunResult) {
    || r.execution.Timeout? || r.execution.BudgetExhausted?
    || (r.execution.Completed? && (r.validation.Passed? || r.validation.Failed?))
  }

  ghost predicate DecidedAt(m: Manifest, d: Directory, i: int, k: int) {
    Present(m, d, i, k) && d[IdAt(m, i, k)].Finished? && Decides(d[IdAt(m, i, k)].result)
  }

  ghost predicate Decided(m: Manifest, d: Directory, i: int) { exists k :: DecidedAt(m, d, i, k) }

  ghost predicate FirstUndecided(m: Manifest, d: Directory, i: int) {
    !Decided(m, d, i) && forall j :: 0 <= j < i ==> Decided(m, d, j)
  }

  /** A trial is settled exactly if one of its results decides it, and passed exactly if that run completed
      and passed its validation. */
  lemma SettledIff(m: Manifest, d: Directory, i: int)
    ensures Settled(m, d, i) <==> Decided(m, d, i)
    ensures forall k :: TerminalAt(m, d, i, k) <==> DecidedAt(m, d, i, k)
    ensures forall k :: DecidedAt(m, d, i, k) ==> var r := d[IdAt(m, i, k)].result;
      && (Classify(r).Pass? <==> r.execution.Completed? && r.validation.Passed?)
      && (Classify(r).Fail? <==> !(r.execution.Completed? && r.validation.Passed?))
  {
    assert forall k :: TerminalAt(m, d, i, k) <==> DecidedAt(m, d, i, k);
  }

  /** What a result is reported as: a cancelled run, or a completed one that nobody validated, is incomplete; any
      other failure, also of the validator, is unavailable. */
  lemma OutcomeIff(r: RunResult)
    ensures Classify(r) == Trials.Pass <==> r.execution == Completed && r.validation == Passed
    ensures Classify(r) == Trials.Fail <==>
      r.execution == Timeout || r.execution == BudgetExhausted || (r.execution == Completed && r.validation == Failed)
    ensures Classify(r) == Trials.Incomplete <==>
      r.execution == Cancelled || (r.execution == Completed && r.validation == NotRun)
    ensures Classify(r) == Trials.Unavailable <==>
      r.execution == OtherFailure || (r.execution == Completed && r.validation == ValidatorError)
  {
  }

  /** A validation can be attached once, to a result that has none, and to a cancelled run only that there is
      none; it changes nothing else of the attempt. */
  lemma AttachIff(a: Attempt, v: Validation)
    ensures AttachValidationResult(a, v).Ok? <==>
      a.Finished? && a.result.validation == NotRun && (a.result.execution == Cancelled ==> v == NotRun)
    ensures AttachValidationResult(a, v).Ok? ==> var b := AttachValidationResult(a, v).result;
      b.Finished? && b.submission == a.submission && b.result.validation == v
      && b.result.(validation := NotRun) == a.result
  {
  }

  /** A completed run with a submission that nobody validated. */
  predicate Awaits(a: Attempt) {
    a.Finished? && a.result.execution.Completed? && a.result.validation.NotRun? && a.submission
  }

  ghost predicate AwaitsAt(m: Manifest, d: Directory, i: int, k: int) {
    Present(m, d, i, k) && Awaits(d[IdAt(m, i, k)])
  }

  /** Trial i has exactly k attempts. */
  ghost predicate Used(m: Manifest, d: Directory, i: int, k: int) {
    && 0 <= i < |m.schedule| && 0 <= k <= |m.schedule[i].attemptIds|
    && (forall l :: 0 <= l < k ==> Present(m, d, i, l)) && (k < |m.schedule[i].attemptIds| ==> !Present(m, d, i, k))
  }

  /** Trial i is the first undecided one and has k attempts: its last attempt is validated if it waits for
      that; else the next one is run, as long as there is one and the recorded costs leave its reserve free. */
  ghost function Expected(m: Manifest, d: Directory, i: nat, k: nat): Result<Action, DispatchError>
    requires Used(m, d, i, k)
  {
    if AwaitsAt(m, d, i, k - 1) then Ok(Validate(i, k - 1))
    else if k == |m.schedule[i].attemptIds| then Err(AttemptLimit(i))
    else if m.maxCost.None? then Ok(Run(i, k))
    else
      match CostBound.ConservativeTrialCostBound(m.configuration, m.schedule[i].mode)
      case Err(_) => Err(NoMonetaryLimit)
      case Ok(bound) => if Recorded(m, d) + bound <= m.maxCost.value then Ok(Run(i, k)) else Err(BudgetExceeded(i))
  }

  /** The scan reaches the first trial that is not settled. */
  lemma ScanReaches(m: Manifest, d: Directory, total: real, i: nat)
    requires Inv(m, d) && i <= |m.schedule| && InTurn(m, d, i) && !Settled(m, d, i)
    ensures i == |m.schedule| ==> ScanFrom(m, d, total, 0) == Ok(Done)
    ensures i < |m.schedule| ==> ScanFrom(m, d, total, 0) == ScanFrom(m, d, total, i)
    ensures i < |m.schedule| ==> !ScanTrial(m, d, total, i, 0).TrialTerminal?
  {
    hide ScanTrial;
    var n := ScanStops(m, d, total, 0);
    if n < i {
      assert Settled(m, d, n);
      var t :| TerminalAt(m, d, n, t);
      StopsAtTerminal(m, d, total, n, t);
    }
    assert n > i ==> Settled(m, d, i);
  }

  /** In a trial whose attempts can all be read and have not decided it, the scan looks at the last attempt if
      it waits for its validation, else at the first free id. */
  lemma ScanLooks(m: Manifest, d: Directory, total: real, i: nat, k: nat)
    requires Inv(m, d) && Used(m, d, i, k) && !Settled(m, d, i) && (forall l :: !UnreadableAt(m, d, i, l))
    ensures ScanTrial(m, d, total, i, 0) ==
      if AwaitsAt(m, d, i, k - 1) then Act(Validate(i, k - 1))
      else if k == |m.schedule[i].attemptIds| then Refuse(AttemptLimit(i))
      else Reserve(m, total, i, k)
  {
    hide ScanTrial, Reserve;
    var l := ScanTrialStops(m, d, total, i, 0);
    forall j | 0 <= j < k - 1 ensures PassedOver(m, d, i, j) {
      EarlierPassedOver(m, d, i, j, k - 1);
    }
    if k > 0 {
      assert Present(m, d, i, k - 1) && !TerminalAt(m, d, i, k - 1) && !UnreadableAt(m, d, i, k - 1);
      assert Fits(m, i, k - 1, d[IdAt(m, i, k - 1)]);
      assert AwaitsAt(m, d, i, k - 1) <==> !PassedOver(m, d, i, k - 1);
    }
    assert l <= k by {
      assert k < l ==> PassedOver(m, d, i, k);
    }
    if l < |m.schedule[i].attemptIds| {
      LookAt(m, d, total, i, l);
      assert !PassedOver(m, d, i, l);
    }
    assert l < k ==> l == k - 1 && AwaitsAt(m, d, i, l);
    assert l == k ==> k == 0 || PassedOver(m, d, i, k - 1);
  }

  /** The scan does not stop at an attempt that was passed over, and asks for a validation of one that waits. */
  lemma LookAt(m: Manifest, d: Directory, total: real, i: nat, k: nat)
    requires Inv(m, d) && InSchedule(m, i, k)
    ensures PassedOver(m, d, i, k) ==> Look(m, d, total, i, k).None?
    ensures AwaitsAt(m, d, i, k) ==> Look(m, d, total, i, k) == Some(Act(Validate(i, k)))
    ensures !Present(m, d, i, k) ==> Look(m, d, total, i, k) == Some(Reserve(m, total, i, k))
  {
    hide Reserve;
    assert Present(m, d, i, k) ==> Fits(m, i, k, d[IdAt(m, i, k)]);
  }

  /** The next action in every reachable directory, on its records alone. It is an error if some attempt is
      unreadable, or if under a cap some attempt's cost is unknown. Otherwise trials are taken in order, each
      until a result decides it. */
  lemma NextActionIs(m: Manifest, deeds: seq<Deed>)
    requires DistinctIds(m) && After(m, deeds).Some?
    ensures var d := After(m, deeds).value;
      if exists i, k :: UnreadableAt(m, d, i, k) then NextAction(m, d) == Err(UnreadableAttempt)
      else if m.maxCost.Some? && exists i, k :: UnchargedAt(m, d, i, k) then NextAction(m, d) == Err(SpendUnknown)
      else
        && ((forall i :: 0 <= i < |m.schedule| ==> Decided(m, d, i)) ==> NextAction(m, d) == Ok(Done))
        && (forall i: nat, k: nat | Used(m, d, i, k) && FirstUndecided(m, d, i)
              :: NextAction(m, d) == Expected(m, d, i, k))
  {
    var d := After(m, deeds).value;
    RunInv(m, deeds);
    UnreadableIsFinal(m, deeds);
    if exists i, k :: UnreadableAt(m, d, i, k) {
    } else if m.maxCost.Some? && exists i, k :: UnchargedAt(m, d, i, k) {
      var i, k :| UnchargedAt(m, d, i, k);
      UnknownSpendIsFinal(m, deeds, i, k);
    } else {
      ClearActionIs(m, d);
    }
  }

  lemma ClearActionIs(m: Manifest, d: Directory)
    requires DistinctIds(m) && Inv(m, d) && (forall i, k :: !UnreadableAt(m, d, i, k))
    requires m.maxCost.Some? ==> forall i, k :: !UnchargedAt(m, d, i, k)
    ensures (forall i :: 0 <= i < |m.schedule| ==> Decided(m, d, i)) ==> NextAction(m, d) == Ok(Done)
    ensures forall i: nat, k: nat | Used(m, d, i, k) && FirstUndecided(m, d, i)
      :: NextAction(m, d) == Expected(m, d, i, k)
  {
    var total := ClearTotal(m, d);
    forall i ensures Settled(m, d, i) <==> Decided(m, d, i) {
      SettledIff(m, d, i);
    }
    hide NextAction, Settled, Decided, ScanFrom, Inv;
    if forall i :: 0 <= i < |m.schedule| ==> Decided(m, d, i) {
      NothingPastTheEnd(m, d);
      ScanReaches(m, d, total, |m.schedule|);
    }
    forall i: nat, k: nat | Used(m, d, i, k) && FirstUndecided(m, d, i)
      ensures NextAction(m, d) == Expected(m, d, i, k)
    {
      ScanReaches(m, d, total, i);
      ScanLooks(m, d, total, i, k);
      ExpectedIs(m, d, total, i, k);
    }
  }

  lemma NothingPastTheEnd(m: Manifest, d: Directory)
    ensures !Settled(m, d, |m.schedule|)
  {
  }

  /** With everything read and, under a cap, charged, the scan starts from the recorded costs. */
  lemma ClearTotal(m: Manifest, d: Directory) returns (total: real)
    requires DistinctIds(m) && Inv(m, d) && (forall i, k :: !UnreadableAt(m, d, i, k))
    requires m.maxCost.Some? ==> forall i, k :: !UnchargedAt(m, d, i, k)
    ensures NextAction(m, d) == ScanFrom(m, d, total, 0) && (m.maxCost.Some? ==> total == Recorded(m, d))
  {
    SpendKnownIff(m, d, 0, 0, 0.0);
    total := SpendFrom(m, d, 0, 0, 0.0).total;
    if m.maxCost.Some? {
      KnownSpend(m, d);
    }
  }

  lemma ExpectedIs(m: Manifest, d: Directory, total: real, i: nat, k: nat)
    requires Used(m, d, i, k) && (m.maxCost.Some? ==> total == Recorded(m, d))
    requires ScanTrial(m, d, total, i, 0) ==
      if AwaitsAt(m, d, i, k - 1) then Act(Validate(i, k - 1))
      else if k == |m.schedule[i].attemptIds| then Refuse(AttemptLimit(i))
      else Reserve(m, total, i, k)
    ensures ScanFrom(m, d, total, i) == Expected(m, d, i, k)
  {
    hide ScanTrial, Recorded, AwaitsAt;
  }

  lemma PerformKeepsDecided(m: Manifest, d: Directory, deed: Deed, i: int, k: int)
    requires DecidedAt(m, d, i, k) && Perform(m, d, deed).Some?
    ensures var e := Perform(m, d, deed).value;
      DecidedAt(m, e, i, k) && e[IdAt(m, i, k)] == d[IdAt(m, i, k)]
  {
    hide NextAction;
    match NextAction(m, d) {
      case Ok(Run(i2, k2)) => RunMeans(m, d, i2, k2);
      case Ok(Validate(i2, k2)) => ValidateMeans(m, d, i2, k2);
    }
  }

  /** A result that decides its trial stays as it is, and the trial never gets another attempt. */
  lemma {:induction false} DecidedIsFinal(m: Manifest, deeds: seq<Deed>, n: nat, i: int, k: int)
    requires DistinctIds(m) && After(m, deeds).Some? && n <= |deeds| && After(m, deeds[..n]).Some?
    requires DecidedAt(m, After(m, deeds[..n]).value, i, k)
    ensures var d, e := After(m, deeds[..n]).value, After(m, deeds).value;
      && DecidedAt(m, e, i, k) && e[IdAt(m, i, k)] == d[IdAt(m, i, k)]
      && (forall l :: Present(m, e, i, l) ==> l <= k)
  {
    if n == |deeds| {
      assert deeds[..n] == deeds;
    } else {
      var init := deeds[..|deeds| - 1];
      assert init[..n] == deeds[..n];
      DecidedIsFinal(m, init, n, i, k);
      PerformKeepsDecided(m, After(m, init).value, deeds[|deeds| - 1], i, k);
    }
    var e := After(m, deeds).value;
    RunInv(m, deeds);
    SettledIff(m, e, i);
    forall l | Present(m, e, i, l) ensures l <= k {
      if k < l {
        EarlierPassedOver(m, e, i, k, l);
      }
    }
  }
}
