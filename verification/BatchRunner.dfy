/** The bounded batch runner of evaluator/15-cancel-batch: claimed task bodies, their two
    microtask callbacks (`then`, later `finally`) and the abort listener may interleave freely. */
module BatchRunner {
  import opened Wrappers

  /** What a task reports. `Threw(None)` is a rejection whose reason is `null`. */
  datatype Report<+T> = Returned(value: T) | Threw(reason: Option<int>)

  datatype Failure = RangeError | AbortError | TaskError(reason: int)

  datatype Settlement<+T> = Resolved(results: seq<Option<T>>) | Rejected(failure: Failure)

  /** A claimed task is running until its `then` callback ran, then waits for `finally`. */
  datatype Phase<+T> = Waiting | Running | Reported(report: Report<T>) | Finished(report: Report<T>)

  datatype State<+T> = State(
    concurrency: nat, next: nat, active: int, terminal: Option<Failure>,
    results: seq<Option<T>>, settlements: seq<Settlement<T>>, listening: bool, aborted: bool,
    phases: seq<Phase<T>>)

  datatype Event<+T> = Reports(task: nat, report: Report<T>) | Finally(task: nat) | Abort

  // ----- what each callback does, as functions of the state -----

  function Min(a: int, b: int): int { if a < b then a else b }

  function ClaimLimit<T>(s: State<T>): (limit: int) {
    if s.terminal.None? && s.active <= s.concurrency
    then Min(|s.phases|, s.next + s.concurrency - s.active) else s.next
  }

  function Claimed<T>(phases: seq<Phase<T>>, lo: int, hi: int): (r: seq<Phase<T>>)
    ensures |r| == |phases|
    ensures forall i :: 0 <= i < |r| ==> r[i] == if lo <= i < hi then Running else phases[i]
  {
    seq(|phases|, i requires 0 <= i < |phases| => if lo <= i < hi then Running else phases[i])
  }

  function Finish<T>(s: State<T>): State<T> {
    s.(listening := false, settlements := s.settlements +
      [if s.terminal.Some? then Rejected(s.terminal.value) else Resolved(s.results)])
  }

  predicate Shape<T>(s: State<T>) {
    s.next <= |s.phases| == |s.results|
  }

  function Pump<T>(s: State<T>): (r: State<T>)
    requires Shape(s)
    ensures Shape(r)
  {
    if s.active == 0 && (s.terminal.Some? || s.next == |s.phases|) then Finish(s)
    else
      var limit := ClaimLimit(s);
      s.(next := limit, active := s.active + limit - s.next, phases := Claimed(s.phases, s.next, limit))
  }

  /** A later failure never replaces an earlier one, and a `null` reason leaves no trace. */
  function FirstOf(terminal: Option<Failure>, later: Option<Failure>): Option<Failure> {
    if terminal.Some? then terminal else later
  }

  function FailureOf<T>(e: Event<T>): Option<Failure> {
    match e
    case Reports(_, Threw(Some(reason))) => Some(TaskError(reason))
    case Abort => Some(AbortError)
    case _ => None
  }

  /** Which callback may run: `then` of a running task, `finally` after it, an abort still listened for. */
  predicate Enabled<T>(s: State<T>, e: Event<T>) {
    match e
    case Reports(i, _) => i < |s.phases| && s.phases[i].Running?
    case Finally(i) => i < |s.phases| && s.phases[i].Reported?
    case Abort => s.listening && !s.aborted
  }

  ghost predicate Inv<T>(s: State<T>) {
    && Shape(s)
    && (forall i :: 0 <= i < |s.phases| ==> (s.phases[i].Waiting? <==> s.next <= i))
    && s.active == Busy(s.phases) <= s.concurrency
    && (s.settlements == [] <==> s.listening)
    && (s.listening ==> 0 < s.active && (s.terminal.None? ==> s.active == s.concurrency || s.next == |s.phases|))
    && (!s.listening ==> Settled(s))
    && forall i :: 0 <= i < |s.phases| ==> s.results[i] == ResultOf(s.phases[i])
  }

  /** Settled exactly once, with nothing active, and by the first failure if there was one. */
  predicate Settled<T(==)>(s: State<T>) {
    && s.active == 0
    && (s.terminal.Some? || s.next == |s.phases|)
    && s.settlements == [if s.terminal.Some? then Rejected(s.terminal.value) else Resolved(s.results)]
  }

  function ResultOf<T>(p: Phase<T>): Option<T> {
    if (p.Reported? || p.Finished?) && p.report.Returned? then Some(p.report.value) else None
  }

  /** Tasks claimed whose `finally` has not run. */
  function Busy<T>(phases: seq<Phase<T>>): nat {
    if phases == [] then 0
    else
      var last := phases[|phases| - 1];
      Busy(phases[..|phases| - 1]) + (if last.Running? || last.Reported? then 1 else 0)
  }

  /** The `then` callbacks. */
  function OnReport<T>(s: State<T>, i: nat, report: Report<T>): (r: State<T>)
    requires Shape(s) && i < |s.phases|
    ensures Shape(r)
  {
    s.(phases := s.phases[i := Reported(report)],
       results := if report.Returned? then s.results[i := Some(report.value)] else s.results,
       terminal := FirstOf(s.terminal, FailureOf(Reports(i, report))))
  }

  /** The state in which `finally` calls `pump`. */
  function Released<T>(s: State<T>, i: nat): (r: State<T>)
    requires Shape(s) && i < |s.phases| && s.phases[i].Reported?
    ensures Shape(r)
  {
    s.(phases := s.phases[i := Finished(s.phases[i].report)], active := s.active - 1)
  }

  /** The state in which the abort listener calls `pump`. */
  function Aborted<T>(s: State<T>): State<T> {
    s.(terminal := FirstOf(s.terminal, Some(AbortError)), aborted := true)
  }

  function Step<T>(s: State<T>, e: Event<T>): (r: State<T>)
    requires Shape(s) && Enabled(s, e)
    ensures Shape(r)
  {
    match e
    case Reports(i, report) => OnReport(s, i, report)
    case Finally(i) => Pump(Released(s, i))
    case Abort => Pump(Aborted(s))
  }

  lemma {:induction false} BusyUpdate<T>(phases: seq<Phase<T>>, i: nat, p: Phase<T>)
    requires i < |phases|
    ensures Busy(phases[i := p]) == Busy(phases)
      - (if phases[i].Running? || phases[i].Reported? then 1 else 0) + (if p.Running? || p.Reported? then 1 else 0)
  {
    var n := |phases| - 1;
    if i == n {
      assert phases[i := p][..n] == phases[..n];
    } else {
      assert phases[i := p][..n] == phases[..n][i := p];
      BusyUpdate(phases[..n], i, p);
    }
  }

  lemma {:induction false} BusyClaimed<T>(phases: seq<Phase<T>>, lo: nat, hi: nat)
    requires lo <= hi <= |phases|
    requires forall i :: lo <= i < hi ==> phases[i].Waiting?
    ensures Busy(Claimed(phases, lo, hi)) == Busy(phases) + hi - lo
    decreases hi
  {
    if lo < hi {
      BusyClaimed(phases, lo, hi - 1);
      BusyUpdate(Claimed(phases, lo, hi - 1), hi - 1, Running);
      assert Claimed(phases, lo, hi) == Claimed(phases, lo, hi - 1)[hi - 1 := Running];
    } else {
      assert Claimed(phases, lo, hi) == phases;
    }
  }

  lemma {:induction false} BusyBound<T>(phases: seq<Phase<T>>)
    ensures Busy(phases) == 0 <==> forall i :: 0 <= i < |phases| ==> !phases[i].Running? && !phases[i].Reported?
  {
    if phases != [] {
      BusyBound(phases[..|phases| - 1]);
    }
  }

  /** What holds whenever `pump` is called: the invariant short of the saturation it restores. */
  ghost predicate Pumpable<T>(s: State<T>) {
    && Shape(s) && 0 < s.concurrency
    && (forall i :: 0 <= i < |s.phases| ==> (s.phases[i].Waiting? <==> s.next <= i))
    && s.active == Busy(s.phases) <= s.concurrency
    && s.settlements == [] && s.listening
    && forall i :: 0 <= i < |s.phases| ==> s.results[i] == ResultOf(s.phases[i])
  }

  lemma {:induction false} PumpInv<T>(s: State<T>)
    requires Pumpable(s)
    ensures Inv(Pump(s))
    ensures Callbacks(Pump(s).phases) == Callbacks(s.phases)
  {
    BusyClaimed(s.phases, s.next, ClaimLimit(s));
    CallbacksClaimed(s.phases, s.next, ClaimLimit(s));
  }

  lemma {:induction false} ReportInv<T>(s: State<T>, i: nat, report: Report<T>)
    requires Inv(s) && i < |s.phases| && s.phases[i].Running?
    ensures Inv(OnReport(s, i, report))
    ensures Callbacks(OnReport(s, i, report).phases) == Callbacks(s.phases) + 1
  {
    BusyUpdate(s.phases, i, Reported(report));
    CallbacksUpdate(s.phases, i, Reported(report));
    BusyAt(s.phases, i);
  }

  lemma {:induction false} FinallyInv<T>(s: State<T>, i: nat)
    requires Inv(s) && 0 < s.concurrency && i < |s.phases| && s.phases[i].Reported?
    ensures Inv(Pump(Released(s, i)))
    ensures Callbacks(Pump(Released(s, i)).phases) == Callbacks(s.phases) + 1
  {
    BusyUpdate(s.phases, i, Finished(s.phases[i].report));
    CallbacksUpdate(s.phases, i, Finished(s.phases[i].report));
    BusyAt(s.phases, i);
    PumpInv(Released(s, i));
  }

  lemma {:induction false} AbortInv<T>(s: State<T>)
    requires Inv(s) && 0 < s.concurrency && s.listening
    ensures Inv(Pump(Aborted(s)))
    ensures Callbacks(Pump(Aborted(s)).phases) == Callbacks(s.phases)
  {
    PumpInv(Aborted(s));
  }

  lemma {:induction false} BusyAt<T>(phases: seq<Phase<T>>, i: nat)
    requires i < |phases| && (phases[i].Running? || phases[i].Reported?)
    ensures Busy(phases) > 0
  {
    if i < |phases| - 1 {
      BusyAt(phases[..|phases| - 1], i);
    }
  }

  /** Every callback keeps the invariant; none claims a task once a failure or an abort is recorded. */
  lemma {:induction false} StepInv<T>(s: State<T>, e: Event<T>)
    requires Inv(s) && Enabled(s, e) && 0 < s.concurrency
    ensures Inv(Step(s, e))
    ensures Step(s, e).terminal == FirstOf(s.terminal, FailureOf(e))
    ensures Step(s, e).terminal.Some? ==> Step(s, e).next == s.next
    ensures |Step(s, e).phases| == |s.phases| && Step(s, e).concurrency == s.concurrency
    ensures Step(s, e).aborted == (s.aborted || e.Abort?)
    ensures Callbacks(Step(s, e).phases) == Callbacks(s.phases) + (if e.Abort? then 0 else 1)
  {
    match e
    case Reports(i, report) => ReportInv(s, i, report);
    case Finally(i) => FinallyInv(s, i);
    case Abort => AbortInv(s);
  }

  function ReportOf<T>(p: Phase<T>): Option<Report<T>> {
    if p.Reported? || p.Finished? then Some(p.report) else None
  }

  // ----- whole runs -----

  function Initial<T>(n: nat, concurrency: nat): State<T> {
    State(concurrency, 0, 0, None, seq(n, _ => None), [], true, false, seq(n, _ => Waiting))
  }

  function Start<T>(n: nat, concurrency: nat): State<T> {
    Pump(Initial(n, concurrency))
  }

  /** The state after the callbacks `es` ran in that order, if each was enabled when it ran. */
  function After<T>(n: nat, concurrency: nat, es: seq<Event<T>>): (r: Option<State<T>>)
    ensures r.Some? ==> Shape(r.value)
  {
    if es == [] then Some(Start(n, concurrency))
    else
      match After(n, concurrency, es[..|es| - 1])
      case None => None
      case Some(s) => if Enabled(s, es[|es| - 1]) then Some(Step(s, es[|es| - 1])) else None
  }

  function FirstFailure<T>(es: seq<Event<T>>): Option<Failure> {
    if es == [] then None else FirstOf(FirstFailure(es[..|es| - 1]), FailureOf(es[|es| - 1]))
  }

  /** Callbacks a task has already had: none, `then`, or `then` and `finally`. */
  function Callbacks<T>(phases: seq<Phase<T>>): nat {
    if phases == [] then 0
    else Callbacks(phases[..|phases| - 1]) + Weight(phases[|phases| - 1])
  }

  function Weight<T>(p: Phase<T>): nat { if p.Finished? then 2 else if p.Reported? then 1 else 0 }

  lemma {:induction false} CallbacksUpdate<T>(phases: seq<Phase<T>>, i: nat, p: Phase<T>)
    requires i < |phases|
    ensures Callbacks(phases[i := p]) == Callbacks(phases) - Weight(phases[i]) + Weight(p)
  {
    var n := |phases| - 1;
    if i == n {
      assert phases[i := p][..n] == phases[..n];
    } else {
      assert phases[i := p][..n] == phases[..n][i := p];
      CallbacksUpdate(phases[..n], i, p);
    }
  }

  lemma {:induction false} CallbacksClaimed<T>(phases: seq<Phase<T>>, lo: nat, hi: nat)
    requires lo <= hi <= |phases|
    requires forall i :: lo <= i < hi ==> phases[i].Waiting?
    ensures Callbacks(Claimed(phases, lo, hi)) == Callbacks(phases)
    decreases hi
  {
    if lo < hi {
      CallbacksClaimed(phases, lo, hi - 1);
      CallbacksUpdate(Claimed(phases, lo, hi - 1), hi - 1, Running);
      assert Claimed(phases, lo, hi) == Claimed(phases, lo, hi - 1)[hi - 1 := Running];
    } else {
      assert Claimed(phases, lo, hi) == phases;
    }
  }

  lemma {:induction false} CallbacksBound<T>(phases: seq<Phase<T>>)
    ensures Callbacks(phases) <= 2 * |phases|
  {
    if phases != [] {
      CallbacksBound(phases[..|phases| - 1]);
    }
  }

  /** Each callback is accounted for, so a run has at most two per task and one abort. */
  lemma {:induction false} RunInv<T>(n: nat, concurrency: nat, es: seq<Event<T>>)
    requires 0 < concurrency && After(n, concurrency, es).Some?
    ensures var s := After(n, concurrency, es).value;
      && Inv(s) && |s.phases| == n && s.concurrency == concurrency
      && s.terminal == FirstFailure(es)
      && |es| == Callbacks(s.phases) + (if s.aborted then 1 else 0)
  {
    if es == [] {
      var first := Initial<T>(n, concurrency);
      NothingBusy<T>(n);
      PumpInv(first);
    } else {
      RunInv(n, concurrency, es[..|es| - 1]);
      StepInv(After(n, concurrency, es[..|es| - 1]).value, es[|es| - 1]);
    }
  }

  /** A task's recorded report is the one it made in the run. */
  lemma {:induction false} RunReports<T>(n: nat, concurrency: nat, es: seq<Event<T>>, i: nat, report: Report<T>)
    requires 0 < concurrency && After(n, concurrency, es).Some? && i < n
    ensures |After(n, concurrency, es).value.phases| == n
    ensures Reports(i, report) in es <==> ReportOf(After(n, concurrency, es).value.phases[i]) == Some(report)
  {
    if es == [] {
    } else {
      var init, e := es[..|es| - 1], es[|es| - 1];
      RunReports(n, concurrency, init, i, report);
      RunInv(n, concurrency, init);
      StepReports(After(n, concurrency, init).value, e, i, report);
      MemberOfSnoc(init, e, es, Reports(i, report));
      hide Step, Inv, ReportOf;
    }
  }

  lemma StepReports<T>(s: State<T>, e: Event<T>, i: nat, report: Report<T>)
    requires Inv(s) && Enabled(s, e) && i < |s.phases|
    ensures |Step(s, e).phases| == |s.phases|
    ensures ReportOf(Step(s, e).phases[i]) == Some(report)
      <==> ReportOf(s.phases[i]) == Some(report) || e == Reports(i, report)
  {
  }

  lemma {:induction false} MemberOfSnoc<T>(init: seq<T>, e: T, es: seq<T>, x: T)
    requires es != [] && init == es[..|es| - 1] && e == es[|es| - 1]
    ensures x in es <==> x in init || x == e
  {
    assert es == init + [e];
  }

  lemma {:induction false} NothingBusy<T>(n: nat)
    ensures Busy<T>(seq(n, _ => Waiting)) == 0 && Callbacks<T>(seq(n, _ => Waiting)) == 0
  {
    if n > 0 {
      NothingBusy<T>(n - 1);
      assert seq<Phase<T>>(n, _ => Waiting)[..n - 1] == seq<Phase<T>>(n - 1, _ => Waiting);
    }
  }

  /** The promise settles at most once, only when nothing is active; it resolves exactly when no
      failure and no abort came first, and then slot `i` holds what task `i` returned. */
  lemma {:induction false} SettlesOnce<T>(n: nat, concurrency: nat, es: seq<Event<T>>)
    requires 0 < concurrency && After(n, concurrency, es).Some?
    ensures var s := After(n, concurrency, es).value;
      && s.next <= n && 0 <= s.active <= concurrency && |s.settlements| <= 1
      && (s.settlements != [] ==>
           && s.active == 0
           && (FirstFailure(es).Some? ==> s.settlements[0] == Rejected(FirstFailure(es).value))
           && (FirstFailure(es).None? ==>
                && s.settlements[0].Resolved? && |s.settlements[0].results| == n
                && forall i :: 0 <= i < n ==>
                     match s.settlements[0].results[i]
                     case Some(v) => Reports(i, Returned(v)) in es
                     case None => Reports(i, Threw(None)) in es))
  {
    RunInv(n, concurrency, es);
    var s := After(n, concurrency, es).value;
    BusyBound(s.phases);
    if s.settlements != [] && FirstFailure(es).None? {
      forall i | 0 <= i < n
        ensures match s.results[i]
          case Some(v) => Reports(i, Returned(v)) in es
          case None => Reports(i, Threw(None)) in es
      {
        assert s.phases[i].Finished?;
        RunReports(n, concurrency, es, i, s.phases[i].report);
        if s.results[i].None? {
          assert s.phases[i].report.Threw?;
          if s.phases[i].report.reason.Some? {
            FailureShows(es, Reports(i, s.phases[i].report));
          }
        }
      }
    }
  }

  lemma {:induction false} FailureShows<T>(es: seq<Event<T>>, e: Event<T>)
    requires e in es && FailureOf(e).Some?
    ensures FirstFailure(es).Some?
  {
    if e != es[|es| - 1] {
      assert e in es[..|es| - 1];
      FailureShows(es[..|es| - 1], e);
    }
  }

  /** Once a failure or an abort is recorded no later callback claims a task. */
  lemma {:induction false} NoClaimAfterFailure<T>(n: nat, concurrency: nat, es: seq<Event<T>>, k: nat)
    requires 0 < concurrency && After(n, concurrency, es).Some?
    requires k <= |es| && FirstFailure(es[..k]).Some?
    ensures After(n, concurrency, es[..k]).Some?
    ensures After(n, concurrency, es[..k]).value.next == After(n, concurrency, es).value.next
    ensures FirstFailure(es) == FirstFailure(es[..k])
  {
    if k < |es| {
      var init := es[..|es| - 1];
      assert init[..k] == es[..k];
      NoClaimAfterFailure(n, concurrency, init, k);
      RunInv(n, concurrency, init);
      StepInv(After(n, concurrency, init).value, es[|es| - 1]);
    } else {
      assert es[..k] == es;
    }
  }

  /** No deadlock: an unsettled batch always has a callback to run, and every run is finite. */
  lemma {:induction false} Progress<T>(n: nat, concurrency: nat, es: seq<Event<T>>)
    requires 0 < concurrency && After(n, concurrency, es).Some?
    ensures |es| <= 2 * n + 1
    ensures var s := After(n, concurrency, es).value;
      s.settlements == [] ==> exists i: nat :: Enabled<T>(s, Reports(i, Threw(None))) || Enabled<T>(s, Finally(i))
  {
    RunInv(n, concurrency, es);
    var s := After(n, concurrency, es).value;
    CallbacksBound(s.phases);
    BusyBound(s.phases);
    if s.settlements == [] {
      var i: nat :| i < |s.phases| && (s.phases[i].Running? || s.phases[i].Reported?);
      assert Enabled<T>(s, if s.phases[i].Running? then Reports(i, Threw(None)) else Finally(i));
    }
  }

  // ----- the closure itself -----

  /** The variables `runBatch` closes over; `phases` and `settlements` record what it did to the
      tasks and to its promise. */
  class Runner<T> {
    const concurrency: nat
    const results: array<Option<T>>
    var next: nat
    var active: int
    var terminal: Option<Failure>
    var listening: bool
    ghost var aborted: bool
    ghost var settlements: seq<Settlement<T>>
    ghost var phases: seq<Phase<T>>

    ghost function Model(): State<T>
      reads this, results
    {
      State(concurrency, next, active, terminal, results[..], settlements, listening, aborted, phases)
    }

    constructor (tasks: nat, concurrency: nat)
      requires 0 < concurrency
      ensures fresh(results)
      ensures Model() == Start(tasks, concurrency) && Inv(Model())
    {
      this.concurrency := concurrency;
      results := new Option<T>[tasks](_ => None);
      next, active, terminal, listening := 0, 0, None, true;
      aborted, settlements, phases := false, [], seq(tasks, _ => Waiting);
      new;
      assert Model() == Initial(tasks, concurrency);
      NothingBusy<T>(tasks);
      PumpInv(Model());
      PumpTasks();
    }

    /** `pump`: settle if there is nothing left to wait for, else claim while there is room. */
    method PumpTasks()
      requires Shape(Model()) && active <= concurrency
      modifies this
      ensures Model() == Pump(old(Model()))
    {
      if active == 0 && (terminal.Some? || next == results.Length) {
        listening := false;
        settlements := settlements + [if terminal.Some? then Rejected(terminal.value) else Resolved(results[..])];
        return;
      }
      ghost var was := phases;
      assert Claimed(was, next, next) == was;
      while terminal.None? && active < concurrency && next < results.Length
        invariant old(next) <= next <= results.Length == |phases|
        invariant active <= concurrency && active - next == old(active - next)
        invariant terminal == old(terminal) && listening == old(listening)
        invariant aborted == old(aborted) && settlements == old(settlements)
        invariant phases == Claimed(was, old(next), next)
        invariant terminal.Some? ==> next == old(next)
      {
        phases := phases[next := Running];
        next, active := next + 1, active + 1;
      }
    }

    /** The two `then` callbacks of a claimed task. */
    method Then(task: nat, report: Report<T>)
      requires Shape(Model()) && Enabled(Model(), Reports(task, report))
      modifies this, results
      ensures Model() == Step(old(Model()), Reports(task, report))
    {
      match report {
        case Returned(value) =>
          results[task] := Some(value);
        case Threw(reason) =>
          if terminal.None? && reason.Some? {
            terminal := Some(TaskError(reason.value));
          }
      }
      phases := phases[task := Reported(report)];
    }

    method FinallyCallback(task: nat)
      requires Inv(Model()) && Enabled(Model(), Finally(task))
      modifies this
      ensures Model() == Step(old(Model()), Finally(task))
    {
      active := active - 1;
      phases := phases[task := Finished(phases[task].report)];
      PumpTasks();
    }

    method OnAbort()
      requires Inv(Model()) && Enabled(Model(), Abort)
      modifies this
      ensures Model() == Step(old(Model()), Abort)
    {
      aborted := true;
      if terminal.None? {
        terminal := Some(AbortError);
      }
      PumpTasks();
    }
  }

  /** `runBatch`: a bad bound or an already aborted signal is refused before any task is claimed. */
  method RunBatch<T>(tasks: nat, concurrency: int, aborted: bool)
    returns (runner: Runner?<T>, refusal: Option<Failure>)
    ensures refusal == if concurrency <= 0 then Some(RangeError) else if aborted then Some(AbortError) else None
    ensures runner == null <==> refusal.Some?
    ensures runner != null ==> fresh(runner) && runner.Model() == Start(tasks, concurrency) && Inv(runner.Model())
  {
    if concurrency <= 0 {
      return null, Some(RangeError);
    }
    if aborted {
      return null, Some(AbortError);
    }
    runner := new Runner(tasks, concurrency);
    refusal := None;
  }
}
