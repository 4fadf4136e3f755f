/** The session guard of src/pi/session-routing.ts with the recorder of src/artifacts/runtime-recorder.ts.
    Each handler is split at its awaits; the pieces of different handlers, timers and changes of the
    model interleave in any order. */
module SessionRouting {
  import opened Wrappers

  datatype Tier = Weak | Strong

  datatype Model = Model(provider: string, id: string)

  /** The selected model is stored with the decision, which `create` takes from the configured role, and
      compared with that role on use. */
  datatype Decision = Decision(decisionId: string, tier: Tier, model: Model)

  /** A fixed baseline decides its own tier; a routed session asks the bridge. */
  datatype Mode = WeakOnly | StrongOnly | Routed

  datatype Config = Config(mode: Mode, weak: Model, strong: Model, maxAgentTurns: nat)

  datatype Limit = Timeout | BudgetExhausted

  datatype Status = Completed | Limited(limit: Limit) | Cancelled | AuthRequired | RateLimited | ProviderError
    | HarnessError

  /** Where an `input` handler is waiting: before its decision in `preflightAuth`, in the bridge or in the
      store, with the signal of its own controller. */
  datatype Phase =
    | Preflight(aborted: bool)
    | Asking(aborted: bool)
    | Chosen(decision: Decision)
    | Written(decision: Decision)
    | Restoring
    | Setting(model: Model)
    | Finishing

  /** `durable` is the session's file in the decision store; `limitFailure` and `lastError` are the
      recorder's, the other fields the extension's and its controller's. `runner` is the input whose
      controller `runAbort` holds. `stale` says that frames of an earlier call are left in the bridge's pipes. */
  datatype State = State(
    durable: Option<Decision>, current: Option<Decision>, startupError: bool, repairing: Option<Model>,
    contextModel: Option<Model>, limitError: Option<Limit>, turnCount: nat, inputs: map<nat, Phase>,
    runner: Option<nat>, stale: bool, limitFailure: Option<Limit>, lastError: Option<Status>)

  /** `left` says whether a call to the bridge leaves frames behind. */
  datatype Event =
    | InputBegins(id: nat)
    | RoutingFails(id: nat, limit: Option<Limit>, status: Status, left: bool)
    | BridgeAsked(id: nat)
    | DecisionChosen(id: nat, decision: Decision, left: bool)
    | StoreWritten(id: nat)
    | DecisionCurrent(id: nat)
    | Authenticated(id: nat)
    | SetModelReturns(id: nat, applied: bool)
    | InputFinishes(id: nat, late: bool)
    | TimerFires
    | TurnStarts(normal: bool)
    | ProviderRequest(passed: bool)
    | ModelSelected(model: Model)
    | RepairReturns(applied: bool)
    | CompactionApplies(applied: bool)
    | AgentSettled
    | ShutDown
    | ErrorReported(status: Status)

  function RoleModel(c: Config, tier: Tier): Model { if tier.Weak? then c.weak else c.strong }

  /** `selectedModel`, None where it throws. */
  function SelectedModel(c: Config, d: Decision): Option<Model> {
    if d.model != RoleModel(c, d.tier) then None else Some(d.model)
  }

  /** `??=`. */
  function FirstOf(kept: Option<Limit>, offered: Limit): Option<Limit> {
    if kept.Some? then kept else Some(offered)
  }

  /** The recorder's status for the message of a limit error. */
  function LimitMessage(limit: Limit): Status { if limit.Timeout? then Limited(Timeout) else HarnessError }

  /** An aborted signal stops an input only until the bridge has answered. */
  function Aborted(phase: Phase): Phase {
    match phase
    case Preflight(_) => Preflight(true)
    case Asking(_) => Asking(true)
    case _ => phase
  }

  /** `runAbort?.abort()`. */
  function AbortRun(s: State): State {
    if s.runner.None? || s.runner.value !in s.inputs then s
    else s.(inputs := s.inputs[s.runner.value := Aborted(s.inputs[s.runner.value])])
  }

  function StopForLimit(s: State, limit: Limit): State {
    var kept := FirstOf(s.limitError, limit);
    AbortRun(s.(limitError := kept, limitFailure := FirstOf(s.limitFailure, kept.value),
                lastError := Some(LimitMessage(kept.value))))
  }

  /** The catch clause of the `input` handler; it forgets whichever controller is in place. */
  function InputCaught(s: State, id: nat, limit: Option<Limit>, status: Status): State {
    var stopped := if limit.Some? then StopForLimit(s, limit.value) else s;
    stopped.(lastError := Some(status), inputs := stopped.inputs - {id}, runner := None)
  }

  /** `applySelectedModel` up to its await, for the decision that is now current. */
  function Apply(c: Config, s: State, id: nat): State
    requires s.current.Some?
  {
    match SelectedModel(c, s.current.value)
    case None => InputCaught(s, id, None, HarnessError)
    case Some(model) =>
      s.(inputs := s.inputs[id := if s.contextModel == Some(model) then Finishing else Setting(model)])
  }

  predicate RequestPasses(c: Config, s: State) {
    && s.limitError.None? && s.current.Some?
    && SelectedModel(c, s.current.value).Some? && s.contextModel == SelectedModel(c, s.current.value)
  }

  predicate NobodyAsking(s: State) { forall id :: id in s.inputs ==> !s.inputs[id].Asking? }

  predicate IsInput(e: Event) {
    e.InputBegins? || e.RoutingFails? || e.BridgeAsked? || e.DecisionChosen? || e.StoreWritten? || e.DecisionCurrent?
    || e.Authenticated? || e.SetModelReturns? || e.InputFinishes?
  }

  function Begin(s: State, id: nat): State {
    if s.startupError then s
    else
      var cut := AbortRun(s);
      cut.(limitError := None, runner := Some(id),
           inputs := cut.inputs[id := if s.current.None? then Preflight(false) else Restoring])
  }

  /** A call to the bridge is refused while another is active or if its signal has fired; it returns a decision
      only if the pipes were empty when it began, and leaves frames behind if its signal fired meanwhile. */
  function RouteStep(c: Config, s: State, e: Event): Option<State>
    requires e.BridgeAsked? || e.DecisionChosen? || e.StoreWritten?
    requires e.id in s.inputs
  {
    var phase := s.inputs[e.id];
    match e
    case BridgeAsked(id) =>
      if c.mode.Routed? && phase == Preflight(false) && NobodyAsking(s)
      then Some(s.(inputs := s.inputs[id := Asking(false)])) else None
    case DecisionChosen(id, d, left) =>
      if d.model != RoleModel(c, d.tier) then None
      else if c.mode.Routed? then
        if phase.Asking? && !s.stale
        then Some(s.(stale := phase.aborted || left, inputs := s.inputs[id := Chosen(d)])) else None
      else if phase.Preflight? && d.tier == BaselineTier(c.mode)
      then Some(s.(inputs := s.inputs[id := Chosen(d)])) else None
    case StoreWritten(id) =>
      if phase.Chosen?
      then Some(s.(durable := Some(phase.decision), inputs := s.inputs[id := Written(phase.decision)])) else None
  }

  function BaselineTier(mode: Mode): Tier { if mode.StrongOnly? then Strong else Weak }

  function InputStep(c: Config, s: State, e: Event): Option<State>
    requires IsInput(e)
  {
    if e.InputBegins? then (if e.id in s.inputs then None else Some(Begin(s, e.id)))
    else if e.id !in s.inputs then None
    else if e.BridgeAsked? || e.DecisionChosen? || e.StoreWritten? then RouteStep(c, s, e)
    else
      var phase := s.inputs[e.id];
      match e
      case RoutingFails(id, limit, status, left) =>
        if phase.Preflight? || phase.Asking? || phase.Chosen? || phase.Restoring?
        then Some(InputCaught(s.(stale := if phase.Asking? then left else s.stale), id, limit, status)) else None
      case DecisionCurrent(id) =>
        if phase.Written? then Some(Apply(c, s.(current := Some(phase.decision)), id)) else None
      case Authenticated(id) =>
        if phase.Restoring? && s.current.Some? then Some(Apply(c, s, id)) else None
      case SetModelReturns(id, applied) =>
        if !phase.Setting? then None
        else if !applied then Some(InputCaught(s, id, None, AuthRequired))
        else Some(s.(contextModel := Some(phase.model), inputs := s.inputs[id := Finishing]))
      case InputFinishes(id, late) =>
        if !phase.Finishing? then None
        else if late then
          var stopped := StopForLimit(s, Timeout);
          Some(InputCaught(stopped, id, stopped.limitError, LimitMessage(stopped.limitError.value)))
        else Some(s.(turnCount := 0, inputs := s.inputs - {id}))
  }

  function Step(c: Config, s: State, e: Event): Option<State> {
    match e
    case TimerFires => Some(StopForLimit(s, Timeout))
    case TurnStarts(normal) =>
      var counted := s.(turnCount := s.turnCount + 1);
      if normal != (counted.turnCount <= c.maxAgentTurns) then None
      else Some(if normal then counted else StopForLimit(counted, BudgetExhausted))
    case ProviderRequest(passed) => if passed == RequestPasses(c, s) then Some(s) else None
    case ModelSelected(model) =>
      var changed := s.(contextModel := Some(model));
      if s.current.None? || s.repairing.Some? then Some(changed)
      else
        (match SelectedModel(c, s.current.value)
         case None => Some(changed)
         case Some(selected) => Some(if model == selected then changed else changed.(repairing := Some(selected))))
    case RepairReturns(applied) =>
      if s.repairing.None? then None
      else Some(s.(repairing := None, contextModel := if applied then s.repairing else s.contextModel))
    case CompactionApplies(applied) =>
      if s.startupError || s.current.None? || SelectedModel(c, s.current.value).None? then None
      else Some(if applied then s.(contextModel := SelectedModel(c, s.current.value)) else s)
    case AgentSettled => Some(s.(runner := None))
    case ShutDown => Some(AbortRun(s))
    case ErrorReported(status) => Some(s.(lastError := Some(status)))
    case _ => InputStep(c, s, e)
  }

  /** After `session_start`: `load` returned the durable decision or null, or threw. */
  predicate Started(s: State) {
    && s.inputs == map[] && s.limitError.None? && s.limitFailure.None? && s.turnCount == 0 && s.repairing.None?
    && s.runner.None?
    && (if s.startupError then s.current.None? else s.current == s.durable)
  }

  function After(c: Config, start: State, events: seq<Event>): Option<State> {
    if events == [] then Some(start)
    else
      match After(c, start, events[..|events| - 1])
      case None => None
      case Some(s) => Step(c, s, events[|events| - 1])
  }

  lemma {:induction false} Prefix(c: Config, start: State, events: seq<Event>, n: nat)
    requires After(c, start, events).Some? && n <= |events|
    ensures After(c, start, events[..n]).Some?
  {
    if n < |events| {
      assert events[..|events| - 1][..n] == events[..n];
      Prefix(c, start, events[..|events| - 1], n);
    } else {
      assert events[..n] == events;
    }
  }

  /** The state in which the n-th event happened. */
  function Before(c: Config, start: State, events: seq<Event>, n: nat): State
    requires n <= |events| && After(c, start, events).Some?
  {
    Prefix(c, start, events, n);
    After(c, start, events[..n]).value
  }

  lemma StepBefore(c: Config, start: State, events: seq<Event>, n: nat)
    requires n < |events| && After(c, start, events).Some?
    ensures Step(c, Before(c, start, events, n), events[n]) == Some(Before(c, start, events, n + 1))
  {
    Prefix(c, start, events, n);
    Prefix(c, start, events, n + 1);
    assert events[..n + 1][..n] == events[..n];
  }

  // ----- what lets a provider request through -----

  /** A decision becomes current only after it is durable, and one call to the bridge is active at a time. */
  ghost predicate Inv(c: Config, s: State) {
    && (s.startupError ==> s.current.None? && s.inputs == map[])
    && (s.current.Some? ==> s.durable.Some?)
    && (forall id :: id in s.inputs && s.inputs[id].Written? ==> s.durable.Some?)
    && (forall id :: id in s.inputs && (s.inputs[id].Chosen? || s.inputs[id].Written?) ==>
          SelectedModel(c, s.inputs[id].decision).Some?)
    && (forall id :: id in s.inputs && !Deciding(s.inputs[id]) ==> s.current.Some?)
    && (forall a, b :: a in s.inputs && b in s.inputs && s.inputs[a].Asking? && s.inputs[b].Asking? ==> a == b)
    && (forall id :: id in s.inputs && s.inputs[id].Asking? ==> c.mode.Routed?)
  }

  /** Waiting for the session's first decision. */
  predicate Deciding(phase: Phase) { phase.Preflight? || phase.Asking? || phase.Chosen? || phase.Written? }

  ghost predicate NobodyDeciding(s: State) { forall id :: id in s.inputs ==> !Deciding(s.inputs[id]) }

  /** An abort changes nothing but the flag of one input. */
  lemma AbortChanges(s: State)
    ensures var r := AbortRun(s);
      && r == s.(inputs := r.inputs) && r.inputs.Keys == s.inputs.Keys
      && forall id :: id in s.inputs ==>
           r.inputs[id] == if s.runner == Some(id) then Aborted(s.inputs[id]) else s.inputs[id]
  {
  }

  lemma AbortInv(c: Config, s: State)
    requires Inv(c, s)
    ensures Inv(c, AbortRun(s))
  {
    AbortChanges(s);
    hide AbortRun;
  }

  lemma StopInv(c: Config, s: State, limit: Limit)
    requires Inv(c, s)
    ensures Inv(c, StopForLimit(s, limit))
  {
    var kept := FirstOf(s.limitError, limit);
    AbortInv(c, s.(limitError := kept, limitFailure := FirstOf(s.limitFailure, kept.value),
                   lastError := Some(LimitMessage(kept.value))));
    hide AbortRun;
  }

  lemma CaughtInv(c: Config, s: State, id: nat, limit: Option<Limit>, status: Status)
    requires Inv(c, s)
    ensures Inv(c, InputCaught(s, id, limit, status))
  {
    if limit.Some? {
      StopInv(c, s, limit.value);
    }
    hide StopForLimit;
  }

  lemma BeginInv(c: Config, s: State, id: nat)
    requires Inv(c, s) && id !in s.inputs
    ensures Inv(c, Begin(s, id))
  {
    AbortInv(c, s);
    AbortChanges(s);
    hide AbortRun;
  }

  lemma RouteInv(c: Config, s: State, e: Event)
    requires e.BridgeAsked? || e.DecisionChosen? || e.StoreWritten?
    requires Inv(c, s) && e.id in s.inputs && RouteStep(c, s, e).Some?
    ensures Inv(c, RouteStep(c, s, e).value)
  {
  }

  lemma ApplyInv(c: Config, s: State, id: nat)
    requires s.current.Some? && id in s.inputs
    requires Inv(c, s.(inputs := s.inputs - {id}))
    ensures Inv(c, Apply(c, s, id))
  {
    var others, r := s.(inputs := s.inputs - {id}), Apply(c, s, id);
    assert forall x :: x in r.inputs && x != id ==> x in others.inputs && r.inputs[x] == others.inputs[x];
  }

  lemma InputStepInv(c: Config, s: State, e: Event)
    requires IsInput(e) && Inv(c, s) && InputStep(c, s, e).Some?
    ensures Inv(c, InputStep(c, s, e).value)
  {
    hide Begin, RouteStep, InputCaught, StopForLimit, Apply;
    match e {
      case InputBegins(id) => BeginInv(c, s, id);
      case RoutingFails(id, limit, status, left) =>
        CaughtInv(c, s.(stale := if s.inputs[id].Asking? then left else s.stale), id, limit, status);
      case DecisionCurrent(id) => ApplyInv(c, s.(current := Some(s.inputs[id].decision)), id);
      case Authenticated(id) => ApplyInv(c, s, id);
      case SetModelReturns(id, _) => CaughtInv(c, s, id, None, AuthRequired);
      case InputFinishes(id, _) =>
        StopInv(c, s, Timeout);
        StopKeepsStale(s, Timeout);
        var stopped := StopForLimit(s, Timeout);
        CaughtInv(c, stopped, id, stopped.limitError, LimitMessage(stopped.limitError.value));
      case _ => RouteInv(c, s, e);
    }
  }

  lemma StepInv(c: Config, s: State, e: Event)
    requires Inv(c, s) && Step(c, s, e).Some?
    ensures Inv(c, Step(c, s, e).value)
  {
    hide InputStep, StopForLimit, AbortRun;
    match e {
      case TimerFires => StopInv(c, s, Timeout);
      case TurnStarts(_) => StopInv(c, s.(turnCount := s.turnCount + 1), BudgetExhausted);
      case ShutDown => AbortInv(c, s);
      case _ =>
        if IsInput(e) {
          InputStepInv(c, s, e);
        }
    }
  }

  lemma {:induction false} RunInv(c: Config, start: State, events: seq<Event>)
    requires Inv(c, start) && After(c, start, events).Some?
    ensures Inv(c, After(c, start, events).value)
  {
    if events != [] {
      RunInv(c, start, events[..|events| - 1]);
      StepInv(c, After(c, start, events[..|events| - 1]).value, events[|events| - 1]);
    }
  }

  /** No input was submitted while an earlier one still waited for the session's first decision. */
  ghost predicate OneAtATime(c: Config, start: State, events: seq<Event>)
    requires After(c, start, events).Some?
  {
    forall n :: 0 <= n < |events| && events[n].InputBegins? ==> NobodyDeciding(Before(c, start, events, n))
  }

  ghost predicate DecidingAt(s: State, id: nat) { id in s.inputs && Deciding(s.inputs[id]) }

  ghost predicate WrittenAt(s: State, id: nat) { id in s.inputs && s.inputs[id].Written? }

  /** In routed mode: the input's call to the bridge will be refused, or will not return a decision. */
  ghost predicate Dead(c: Config, s: State, id: nat)
    requires id in s.inputs
  {
    var phase := s.inputs[id];
    c.mode.Routed? && ((phase.Preflight? && (phase.aborted || s.stale)) || (phase.Asking? && s.stale))
  }

  /** At most one of two inputs can still get a decision: one is dead, or is asking with its signal fired,
      so that a decision it gets all the same leaves a frame which spoils the other's call. */
  ghost predicate Apart(c: Config, s: State, a: nat, b: nat)
    requires a in s.inputs && b in s.inputs
  {
    || Dead(c, s, a) || Dead(c, s, b)
    || (c.mode.Routed? && s.inputs[a] == Asking(true) && s.inputs[b].Preflight?)
    || (c.mode.Routed? && s.inputs[b] == Asking(true) && s.inputs[a].Preflight?)
  }

  /** The current decision is the durable one, and no second one can be written. */
  ghost predicate Exclusive(c: Config, s: State) {
    && (s.current.Some? ==> s.durable == s.current)
    && (s.current.Some? ==> forall id :: DecidingAt(s, id) ==> Dead(c, s, id))
    && (s.current.Some? ==> forall a, b :: DecidingAt(s, a) && DecidingAt(s, b) ==> a == b)
    && (s.durable.Some? && !s.startupError ==> s.current == s.durable || exists id :: WrittenAt(s, id))
    && (forall id :: WrittenAt(s, id) ==> s.durable == Some(s.inputs[id].decision))
    && (forall a, b :: DecidingAt(s, a) && DecidingAt(s, b) && a != b ==> Apart(c, s, a, b))
    && (forall a, b, d :: DecidingAt(s, a) && DecidingAt(s, b) && DecidingAt(s, d) ==> a == b || b == d || a == d)
  }

  /** Inputs were aborted or ended, none of them with a written decision; only the end of a deciding input
      can change what is left in the pipes. */
  ghost predicate Fewer(s: State, r: State) {
    && r.durable == s.durable && r.current == s.current && r.startupError == s.startupError
    && (forall id :: DecidingAt(r, id) ==>
          DecidingAt(s, id) && (r.inputs[id] == s.inputs[id] || r.inputs[id] == Aborted(s.inputs[id])))
    && (forall id :: WrittenAt(s, id) ==> WrittenAt(r, id))
    && (r.stale == s.stale || exists id :: DecidingAt(s, id) && !DecidingAt(r, id))
  }

  lemma FewerExclusive(c: Config, s: State, r: State)
    requires Exclusive(c, s) && Fewer(s, r)
    ensures Exclusive(c, r)
  {
    if s.durable.Some? && !s.startupError && s.current != s.durable {
      var id :| WrittenAt(s, id);
      assert WrittenAt(r, id);
    }
    if r.stale == s.stale {
      forall id | DecidingAt(r, id) && Dead(c, s, id) ensures Dead(c, r, id) {
      }
    } else {
      var gone :| DecidingAt(s, gone) && !DecidingAt(r, gone);
      assert forall a, b :: DecidingAt(r, a) && DecidingAt(r, b) ==> a == b;
      assert s.current.Some? ==> forall id :: !DecidingAt(r, id);
    }
  }

  lemma AbortFewer(s: State)
    ensures Fewer(s, AbortRun(s))
  {
    AbortChanges(s);
    hide AbortRun;
  }

  lemma FewerTwice(s: State, t: State, r: State)
    requires Fewer(s, t) && Fewer(t, r)
    ensures Fewer(s, r)
  {
  }

  lemma StopFewer(s: State, limit: Limit)
    ensures Fewer(s, StopForLimit(s, limit))
  {
    var kept := FirstOf(s.limitError, limit);
    AbortFewer(s.(limitError := kept, limitFailure := FirstOf(s.limitFailure, kept.value),
                  lastError := Some(LimitMessage(kept.value))));
    hide AbortRun;
  }

  /** The end of an input whose decision is not written yet; its failed call may leave frames or clear them. */
  lemma CaughtFewer(s: State, id: nat, limit: Option<Limit>, status: Status, stale: bool)
    requires !WrittenAt(s, id) && (stale == s.stale || DecidingAt(s, id))
    ensures Fewer(s, InputCaught(s.(stale := stale), id, limit, status))
  {
    var left := s.(stale := stale);
    var stopped := if limit.Some? then StopForLimit(left, limit.value) else left;
    if limit.Some? {
      StopFewer(left, limit.value);
    }
    hide StopForLimit;
    var r := InputCaught(left, id, limit, status);
    assert stopped.stale == stale by {
      StopKeepsStale(left, if limit.Some? then limit.value else Timeout);
    }
    assert !DecidingAt(r, id);
  }

  lemma StopKeepsStale(s: State, limit: Limit)
    ensures StopForLimit(s, limit).stale == s.stale && StopForLimit(s, limit).limitError.Some?
  {
  }

  lemma ApplyFewer(c: Config, s: State, id: nat)
    requires s.current.Some? && id in s.inputs && !Deciding(s.inputs[id])
    ensures Fewer(s, Apply(c, s, id))
  {
    if SelectedModel(c, s.current.value).None? {
      CaughtFewer(s, id, None, HarnessError, s.stale);
      assert s.(stale := s.stale) == s;
    }
    hide InputCaught;
  }

  lemma LateFewer(s: State, id: nat)
    requires id in s.inputs && s.inputs[id].Finishing?
    ensures var stopped := StopForLimit(s, Timeout);
      stopped.limitError.Some?
      && Fewer(s, InputCaught(stopped, id, stopped.limitError, LimitMessage(stopped.limitError.value)))
  {
    var stopped := StopForLimit(s, Timeout);
    StopFewer(s, Timeout);
    StopKeepsStale(s, Timeout);
    hide StopForLimit;
    assert stopped.(stale := stopped.stale) == stopped;
    assert !WrittenAt(stopped, id) by {
      StopSame(s, id);
    }
    CaughtFewer(stopped, id, stopped.limitError, LimitMessage(stopped.limitError.value), stopped.stale);
    FewerTwice(s, stopped, InputCaught(stopped, id, stopped.limitError, LimitMessage(stopped.limitError.value)));
  }

  lemma StopSame(s: State, id: nat)
    requires id in s.inputs && s.inputs[id].Finishing?
    ensures var r := StopForLimit(s, Timeout); id in r.inputs && r.inputs[id].Finishing?
  {
  }

  /** The steps that bring a decision forward; all others make the inputs fewer. */
  predicate Advances(e: Event) {
    e.InputBegins? || e.BridgeAsked? || e.DecisionChosen? || e.StoreWritten? || e.DecisionCurrent?
  }

  lemma InputFewer(c: Config, s: State, e: Event)
    requires IsInput(e) && !Advances(e) && InputStep(c, s, e).Some?
    ensures Fewer(s, InputStep(c, s, e).value)
  {
    hide InputCaught, StopForLimit, Apply;
    match e {
      case RoutingFails(id, limit, status, left) =>
        CaughtFewer(s, id, limit, status, if s.inputs[id].Asking? then left else s.stale);
      case Authenticated(id) => ApplyFewer(c, s, id);
      case SetModelReturns(id, applied) =>
        CaughtFewer(s, id, None, AuthRequired, s.stale);
        assert s.(stale := s.stale) == s;
      case InputFinishes(id, late) => LateFewer(s, id);
    }
  }

  lemma StepFewer(c: Config, s: State, e: Event)
    requires !Advances(e) && Step(c, s, e).Some?
    ensures Fewer(s, Step(c, s, e).value)
  {
    hide InputStep, StopForLimit, AbortRun;
    match e {
      case TimerFires => StopFewer(s, Timeout);
      case TurnStarts(_) => StopFewer(s.(turnCount := s.turnCount + 1), BudgetExhausted);
      case ShutDown => AbortFewer(s);
      case _ =>
        if IsInput(e) {
          InputFewer(c, s, e);
        }
    }
  }

  lemma BeginInputs(s: State, id: nat)
    requires !s.startupError && id !in s.inputs
    ensures var r := Begin(s, id);
      && r.durable == s.durable && r.current == s.current && r.startupError == s.startupError && r.stale == s.stale
      && r.limitError.None? && r.runner == Some(id)
      && r.inputs.Keys == s.inputs.Keys + {id}
      && r.inputs[id] == (if s.current.None? then Preflight(false) else Restoring)
      && forall x :: x in s.inputs ==> r.inputs[x] == if s.runner == Some(x) then Aborted(s.inputs[x]) else s.inputs[x]
  {
    AbortChanges(s);
    hide AbortRun;
  }

  lemma BeginExclusive(c: Config, s: State, id: nat)
    requires NobodyDeciding(s) && Exclusive(c, s) && id !in s.inputs
    ensures Exclusive(c, Begin(s, id))
  {
    if !s.startupError {
      BeginInputs(s, id);
      hide Begin;
      var r := Begin(s, id);
      assert forall x :: DecidingAt(r, x) ==> x == id;
      assert forall x :: !WrittenAt(s, x) && !WrittenAt(r, x);
    }
  }

  /** One deciding input moved on, without a decision being written or taken: what is left in the pipes can
      only have become more, and the input is as dead, and as far apart from any other, as before. */
  lemma MovedExclusive(c: Config, s: State, r: State, id: nat)
    requires Exclusive(c, s) && DecidingAt(s, id) && DecidingAt(r, id)
    requires r.durable == s.durable && r.current == s.current && r.startupError == s.startupError
    requires r.inputs.Keys == s.inputs.Keys && forall x :: x in s.inputs && x != id ==> r.inputs[x] == s.inputs[x]
    requires forall x :: DecidingAt(r, x) <==> DecidingAt(s, x)
    requires forall x :: WrittenAt(r, x) <==> WrittenAt(s, x)
    requires !WrittenAt(s, id) && (Dead(c, s, id) ==> Dead(c, r, id))
    requires forall x :: DecidingAt(s, x) && x != id && Apart(c, s, id, x) ==> Apart(c, r, id, x) && Apart(c, r, x, id)
    ensures Exclusive(c, r)
  {
    hide Dead, Apart;
    if s.durable.Some? && !s.startupError && s.current != s.durable {
      var x :| WrittenAt(s, x);
      assert WrittenAt(r, x);
    }
  }

  lemma AskedExclusive(c: Config, s: State, e: Event)
    requires e.BridgeAsked? && e.id in s.inputs && Inv(c, s) && Exclusive(c, s) && RouteStep(c, s, e).Some?
    ensures Exclusive(c, RouteStep(c, s, e).value)
  {
    var r := RouteStep(c, s, e).value;
    assert DecidingAt(s, e.id) && DecidingAt(r, e.id);
    hide Exclusive, Inv;
    MovedExclusive(c, s, r, e.id);
  }

  lemma ChosenExclusive(c: Config, s: State, e: Event)
    requires e.DecisionChosen? && e.id in s.inputs && Inv(c, s) && Exclusive(c, s) && RouteStep(c, s, e).Some?
    ensures Exclusive(c, RouteStep(c, s, e).value)
  {
    var r := RouteStep(c, s, e).value;
    assert DecidingAt(s, e.id) && DecidingAt(r, e.id) && !Dead(c, s, e.id);
    hide Exclusive;
    if c.mode.Routed? {
      assert forall x :: x in s.inputs && x != e.id ==> !s.inputs[x].Asking?;
    }
    hide Inv;
    MovedExclusive(c, s, r, e.id);
  }

  lemma StoredExclusive(c: Config, s: State, e: Event)
    requires e.StoreWritten? && e.id in s.inputs && Inv(c, s) && Exclusive(c, s) && RouteStep(c, s, e).Some?
    ensures Exclusive(c, RouteStep(c, s, e).value) && s.durable.None?
  {
    var r := RouteStep(c, s, e).value;
    assert DecidingAt(s, e.id) && !Dead(c, s, e.id);
    assert forall x :: WrittenAt(s, x) ==> Apart(c, s, x, e.id);
    assert WrittenAt(r, e.id);
    StoredKeeps(c, s, e);
    hide RouteStep, Inv, Apart, Dead;
  }

  /** Writing the store changes neither who is deciding nor who is still able to. */
  lemma StoredKeeps(c: Config, s: State, e: Event)
    requires e.StoreWritten? && e.id in s.inputs && RouteStep(c, s, e).Some?
    ensures var r := RouteStep(c, s, e).value;
      && (forall x :: DecidingAt(r, x) <==> DecidingAt(s, x))
      && (forall x :: DecidingAt(s, x) ==> (Dead(c, r, x) <==> Dead(c, s, x)))
      && (forall x, y :: DecidingAt(s, x) && DecidingAt(s, y) && Apart(c, s, x, y) ==> Apart(c, r, x, y))
  {
  }

  /** The decision taken is the durable one, and every input left is dead. */
  lemma TakenExclusive(c: Config, s: State, r: State, id: nat)
    requires Exclusive(c, s) && WrittenAt(s, id)
    requires r.durable == s.durable && r.current == Some(s.inputs[id].decision) && r.stale == s.stale
    requires forall x :: DecidingAt(r, x) ==> DecidingAt(s, x) && x != id && r.inputs[x] == s.inputs[x]
    ensures Exclusive(c, r)
  {
    assert DecidingAt(s, id);
    forall x | DecidingAt(r, x) ensures Dead(c, r, x) && !WrittenAt(r, x) {
      assert Apart(c, s, id, x);
    }
    assert forall x :: WrittenAt(r, x) ==> DecidingAt(r, x);
    hide Dead, Apart;
  }

  lemma CurrentExclusive(c: Config, s: State, e: Event)
    requires e.DecisionCurrent? && Inv(c, s) && Exclusive(c, s) && InputStep(c, s, e).Some?
    ensures Exclusive(c, InputStep(c, s, e).value)
  {
    var r := InputStep(c, s, e).value;
    assert WrittenAt(s, e.id);
    hide Exclusive, Inv;
    TakenExclusive(c, s, r, e.id);
  }

  lemma StepExclusive(c: Config, s: State, e: Event)
    requires Inv(c, s) && Exclusive(c, s) && Step(c, s, e).Some? && (e.InputBegins? ==> NobodyDeciding(s))
    ensures Exclusive(c, Step(c, s, e).value)
    ensures e.StoreWritten? ==> s.durable.None?
  {
    if !Advances(e) {
      StepFewer(c, s, e);
      hide Step;
      FewerExclusive(c, s, Step(c, s, e).value);
    } else {
      assert Step(c, s, e) == InputStep(c, s, e);
      hide Exclusive, Inv, RouteStep, Apply, Begin;
      match e {
        case InputBegins(id) => BeginExclusive(c, s, id);
        case BridgeAsked(_) => AskedExclusive(c, s, e);
        case DecisionChosen(_, _, _) => ChosenExclusive(c, s, e);
        case StoreWritten(_) => StoredExclusive(c, s, e);
        case DecisionCurrent(_) => CurrentExclusive(c, s, e);
      }
    }
  }

  lemma {:induction false} RunExclusive(c: Config, start: State, events: seq<Event>)
    requires Inv(c, start) && Exclusive(c, start) && After(c, start, events).Some? && OneAtATime(c, start, events)
    ensures Exclusive(c, After(c, start, events).value)
  {
    if events != [] {
      var init, last := events[..|events| - 1], events[|events| - 1];
      OneAtATimePrefix(c, start, events);
      RunExclusive(c, start, init);
      RunInv(c, start, init);
      if last.InputBegins? {
        assert NobodyDeciding(Before(c, start, events, |events| - 1));
      }
      StepExclusive(c, After(c, start, init).value, last);
    }
  }

  lemma OneAtATimePrefix(c: Config, start: State, events: seq<Event>)
    requires events != [] && After(c, start, events).Some? && OneAtATime(c, start, events)
    ensures OneAtATime(c, start, events[..|events| - 1])
  {
    var init := events[..|events| - 1];
    forall n | 0 <= n < |init| && init[n].InputBegins? ensures NobodyDeciding(Before(c, start, init, n)) {
      assert init[..n] == events[..n];
      assert events[n].InputBegins? && NobodyDeciding(Before(c, start, events, n));
    }
  }

  /** A provider request passes only if no limit is pending, a decision for the session is durable, and
      the context model is the configured model of the current decision's tier. */
  lemma RequestPassesOnlyIf(c: Config, start: State, events: seq<Event>, n: nat)
    requires Started(start) && After(c, start, events).Some? && n < |events| && events[n] == ProviderRequest(true)
    ensures var s := Before(c, start, events, n);
      && s.limitError.None? && s.durable.Some? && s.current.Some? && !s.startupError
      && s.contextModel == Some(s.current.value.model)
      && s.contextModel == Some(if s.current.value.tier.Strong? then c.strong else c.weak)
  {
    Prefix(c, start, events, n);
    RunInv(c, start, events[..n]);
    StepBefore(c, start, events, n);
  }

  lemma BeforePrefix(c: Config, start: State, events: seq<Event>, n: nat)
    requires n <= |events| && After(c, start, events).Some? && OneAtATime(c, start, events)
    ensures After(c, start, events[..n]).Some? && OneAtATime(c, start, events[..n])
  {
    Prefix(c, start, events, n);
    forall k | 0 <= k < n && events[..n][k].InputBegins? ensures NobodyDeciding(Before(c, start, events[..n], k)) {
      assert events[..n][..k] == events[..k];
      assert events[k].InputBegins? && NobodyDeciding(Before(c, start, events, k));
    }
  }

  /** From a state in which no second decision can be written, as long as inputs wait their turn: the current
      decision a request was checked against is the durable one, and only one decision is ever written. */
  lemma ExclusiveUsesDurable(c: Config, start: State, events: seq<Event>, n: nat)
    requires Inv(c, start) && Exclusive(c, start)
    requires After(c, start, events).Some? && OneAtATime(c, start, events) && n < |events|
    ensures events[n] == ProviderRequest(true) ==>
      Before(c, start, events, n).current == Before(c, start, events, n).durable
    ensures events[n].StoreWritten? ==> Before(c, start, events, n).durable.None?
  {
    BeforePrefix(c, start, events, n);
    RunExclusive(c, start, events[..n]);
    RunInv(c, start, events[..n]);
    StepBefore(c, start, events, n);
    StepExclusiveHere(c, Before(c, start, events, n), events[n]);
    PassedMeans(c, Before(c, start, events, n));
  }

  lemma StepExclusiveHere(c: Config, s: State, e: Event)
    requires Inv(c, s) && Exclusive(c, s) && Step(c, s, e).Some?
    ensures e.StoreWritten? ==> s.durable.None?
    ensures e == ProviderRequest(true) ==> s.current == s.durable
  {
    if e.StoreWritten? {
      StepExclusive(c, s, e);
    }
  }

  /** If inputs wait their turn for the first decision, every request is checked against the durable one. */
  lemma RequestUsesDurable(c: Config, start: State, events: seq<Event>, n: nat)
    requires Started(start) && After(c, start, events).Some? && OneAtATime(c, start, events) && n < |events|
    ensures events[n] == ProviderRequest(true) ==>
      Before(c, start, events, n).current == Before(c, start, events, n).durable
    ensures events[n].StoreWritten? ==> Before(c, start, events, n).durable.None?
  {
    ExclusiveUsesDurable(c, start, events, n);
  }

  lemma Snoc(c: Config, start: State, events: seq<Event>, e: Event)
    requires After(c, start, events).Some?
    ensures After(c, start, events + [e]) == Step(c, After(c, start, events).value, e)
  {
    assert (events + [e])[..|events|] == events;
  }

  lemma {:induction false} AfterConcat(c: Config, start: State, a: seq<Event>, b: seq<Event>)
    requires After(c, start, a).Some?
    ensures After(c, start, a + b) == After(c, After(c, start, a).value, b)
  {
    if b == [] {
      assert a + b == a;
    } else {
      assert (a + b)[..|a + b| - 1] == a + b[..|b| - 1];
      AfterConcat(c, start, a, b[..|b| - 1]);
    }
  }

  // ----- exactly when the current decision stays the durable one -----

  /** However the session goes on from here, with inputs waiting their turn, every request that passes
      is checked against the durable decision. */
  ghost predicate KeepsDurable(c: Config, s: State) {
    forall events, n ::
      After(c, s, events).Some? && OneAtATime(c, s, events) && 0 <= n < |events| && events[n] == ProviderRequest(true)
      ==> Before(c, s, events, n).current == Before(c, s, events, n).durable
  }

  /** At most one input is deciding, and none once there is a decision. */
  ghost predicate Single(s: State) {
    && (s.current.Some? ==> NobodyDeciding(s))
    && (forall a, b :: DecidingAt(s, a) && DecidingAt(s, b) ==> a == b)
  }

  lemma StepSingle(c: Config, s: State, e: Event)
    requires Single(s) && Step(c, s, e).Some? && (e.InputBegins? ==> NobodyDeciding(s))
    ensures Single(Step(c, s, e).value)
  {
    var r := Step(c, s, e).value;
    if e.InputBegins? {
      if !s.startupError {
        BeginInputs(s, e.id);
      }
      hide Begin;
      assert forall x :: DecidingAt(r, x) ==> x == e.id;
    } else if !Advances(e) {
      StepFewer(c, s, e);
      hide Step, AbortRun;
      assert forall x :: DecidingAt(r, x) ==> DecidingAt(s, x);
    } else {
      AdvanceInputs(c, s, e);
      hide Step;
      assert forall x :: x in r.inputs && Deciding(r.inputs[x]) ==> DecidingAt(r, x);
    }
  }

  /** Only the input itself moves; with its decision current it is not deciding any more. */
  lemma AdvanceInputs(c: Config, s: State, e: Event)
    requires Advances(e) && !e.InputBegins? && Step(c, s, e).Some?
    ensures var r := Step(c, s, e).value;
      && DecidingAt(s, e.id) && (forall x :: DecidingAt(r, x) ==> DecidingAt(s, x))
      && (if e.DecisionCurrent? then !DecidingAt(r, e.id) else r.current == s.current && r.runner == s.runner)
  {
  }

  lemma {:induction false} RunSingle(c: Config, start: State, events: seq<Event>)
    requires Started(start) && After(c, start, events).Some? && OneAtATime(c, start, events)
    ensures Single(After(c, start, events).value)
  {
    if events != [] {
      var init, last := events[..|events| - 1], events[|events| - 1];
      OneAtATimePrefix(c, start, events);
      RunSingle(c, start, init);
      if last.InputBegins? {
        assert NobodyDeciding(Before(c, start, events, |events| - 1));
      }
      StepSingle(c, After(c, start, init).value, last);
    }
  }

  /** An input that will still get its decision, and leave the pipes of the bridge empty, if nothing else happens. */
  ghost predicate CanDecide(c: Config, s: State, id: nat) {
    DecidingAt(s, id) &&
    var phase := s.inputs[id];
    c.mode.Routed? ==> !s.stale && (phase.Preflight? || phase.Asking? ==> !phase.aborted)
  }

  /** In routed mode an input that begins overtakes one whose controller is still in place and which has no
      answer from the bridge yet, or which has been aborted before; and nothing can be decided after it if
      the pipes are not empty. */
  ghost predicate Overtaken(c: Config, s: State, id: nat)
    requires id in s.inputs
  {
    var phase := s.inputs[id];
    c.mode.Routed? && (s.stale || ((phase.Preflight? || phase.Asking?) && (phase.aborted || s.runner == Some(id))))
  }

  /** The tier and the model are those of the mode, or any tier the library chooses. */
  function DecisionFor(c: Config, decisionId: string): Decision {
    Decision(decisionId, BaselineTier(c.mode), RoleModel(c, BaselineTier(c.mode)))
  }

  /** A decision is chosen, unless that has happened. */
  lemma ToChosen(c: Config, s: State, id: nat, decisionId: string) returns (events: seq<Event>)
    requires CanDecide(c, s, id) && !s.inputs[id].Written?
    requires forall x :: x in s.inputs && s.inputs[x].Asking? ==> x == id && c.mode.Routed?
    ensures forall n :: 0 <= n < |events| ==> !events[n].InputBegins?
    ensures var d := if s.inputs[id].Chosen? then s.inputs[id].decision else DecisionFor(c, decisionId);
      After(c, s, events) == Some(s.(inputs := s.inputs[id := Chosen(d)]))
  {
    events := [];
    var d := DecisionFor(c, decisionId);
    if s.inputs[id].Chosen? {
      assert s.inputs[id := s.inputs[id]] == s.inputs;
    } else {
      if c.mode.Routed? && s.inputs[id].Preflight? {
        Snoc(c, s, [], BridgeAsked(id));
        events := [BridgeAsked(id)];
        assert [] + [BridgeAsked(id)] == events;
      }
      Snoc(c, s, events, DecisionChosen(id, d, false));
      events := events + [DecisionChosen(id, d, false)];
      assert s.inputs[id := Asking(false)][id := Chosen(d)] == s.inputs[id := Chosen(d)];
    }
  }

  /** A decision is chosen and written, unless that has happened. */
  lemma ToWritten(c: Config, s: State, id: nat, decisionId: string) returns (events: seq<Event>, d: Decision)
    requires Inv(c, s) && CanDecide(c, s, id)
    requires forall x :: x in s.inputs && s.inputs[x].Asking? ==> x == id
    ensures forall n :: 0 <= n < |events| ==> !events[n].InputBegins?
    ensures SelectedModel(c, d).Some? && (s.inputs[id].Preflight? ==> d.decisionId == decisionId)
    ensures After(c, s, events) == Some(s.(
      durable := if s.inputs[id].Written? then s.durable else Some(d), inputs := s.inputs[id := Written(d)]))
  {
    events, d := [], DecisionFor(c, decisionId);
    if s.inputs[id].Written? {
      d := s.inputs[id].decision;
      assert s.inputs[id := s.inputs[id]] == s.inputs;
    } else {
      if s.inputs[id].Chosen? {
        d := s.inputs[id].decision;
      }
      var chosen := ToChosen(c, s, id, decisionId);
      Snoc(c, s, chosen, StoreWritten(id));
      events := chosen + [StoreWritten(id)];
      assert s.inputs[id := Chosen(d)][id := Written(d)] == s.inputs[id := Written(d)];
    }
  }

  /** The decision becomes current, and its model is applied. */
  lemma ModelApplied(c: Config, s: State, id: nat) returns (events: seq<Event>)
    requires id in s.inputs && s.inputs[id].Written? && SelectedModel(c, s.inputs[id].decision).Some?
    ensures forall n :: 0 <= n < |events| ==> !events[n].InputBegins?
    ensures var d := s.inputs[id].decision;
      After(c, s, events)
      == Some(s.(current := Some(d), contextModel := Some(d.model), inputs := s.inputs[id := Finishing]))
  {
    var d := s.inputs[id].decision;
    events := [DecisionCurrent(id)];
    Snoc(c, s, [], DecisionCurrent(id));
    assert [] + [DecisionCurrent(id)] == events;
    if s.contextModel != Some(d.model) {
      Snoc(c, s, events, SetModelReturns(id, true));
      events := events + [SetModelReturns(id, true)];
      assert s.inputs[id := Setting(d.model)][id := Finishing] == s.inputs[id := Finishing];
    }
  }

  /** An input whose model is applied goes on to its first turn. */
  lemma TurnStarted(c: Config, s: State, id: nat)
    requires id in s.inputs && s.inputs[id].Finishing? && c.maxAgentTurns > 0
    ensures After(c, s, [InputFinishes(id, false), TurnStarts(true)])
      == Some(s.(turnCount := 1, inputs := s.inputs - {id}))
  {
    var e0, e1 := InputFinishes(id, false), TurnStarts(true);
    assert [] + [e0] == [e0] && [e0] + [e1] == [e0, e1];
    Snoc(c, s, [], e0);
    Snoc(c, s, [e0], e1);
  }

  /** An input whose decision was written goes on to its first turn. */
  lemma FirstTurn(c: Config, s: State, id: nat) returns (events: seq<Event>)
    requires id in s.inputs && s.inputs[id].Written? && SelectedModel(c, s.inputs[id].decision).Some?
    requires c.maxAgentTurns > 0
    ensures forall n :: 0 <= n < |events| ==> !events[n].InputBegins?
    ensures var d := s.inputs[id].decision;
      After(c, s, events)
      == Some(s.(current := Some(d), contextModel := Some(d.model), turnCount := 1, inputs := s.inputs - {id}))
  {
    var applied := ModelApplied(c, s, id);
    TurnStarted(c, After(c, s, applied).value, id);
    AfterConcat(c, s, applied, [InputFinishes(id, false), TurnStarts(true)]);
    events := applied + [InputFinishes(id, false), TurnStarts(true)];
    hide After;
    assert s.inputs[id := Finishing] - {id} == s.inputs - {id};
  }

  /** One input decides, is accepted and starts its turn; another one, in `preflightAuth` until then, decides
      after it. */
  lemma BothDecide(c: Config, s: State, first: nat, second: nat) returns (events: seq<Event>)
    requires Inv(c, s) && s.limitError.None? && c.maxAgentTurns > 0 && first != second
    requires CanDecide(c, s, first) && second in s.inputs && s.inputs[second] == Preflight(false)
    requires forall x :: x in s.inputs && s.inputs[x].Asking? ==> x == first
    ensures After(c, s, events).Some? && forall n :: 0 <= n < |events| ==> !events[n].InputBegins?
    ensures var r := After(c, s, events).value; RequestPasses(c, r) && r.current != r.durable
  {
    var written, d := ToWritten(c, s, first, "");
    var w := After(c, s, written).value;
    var turn := FirstTurn(c, w, first);
    AfterConcat(c, s, written, turn);
    var t := After(c, w, turn).value;
    RunInv(c, s, written + turn);
    assert t.inputs == s.inputs[first := Written(d)] - {first};
    assert t.inputs[second] == Preflight(false);
    var other, e := ToWritten(c, t, second, d.decisionId + "'");
    AfterConcat(c, s, written + turn, other);
    events := written + turn + other;
    hide After, Inv;
    assert |d.decisionId + "'"| == |d.decisionId| + 1;
  }

  /** From any state without a pending limit in which one input can still get its decision while another is in
      `preflightAuth`: both decisions are written, and a request of the first turn passes on the one that is
      no longer durable. */
  lemma TwoDeciding(c: Config, s: State, first: nat, second: nat) returns (events: seq<Event>)
    requires Inv(c, s) && s.limitError.None? && c.maxAgentTurns > 0 && first != second
    requires CanDecide(c, s, first) && second in s.inputs && s.inputs[second] == Preflight(false)
    requires forall x :: x in s.inputs && s.inputs[x].Asking? ==> x == first
    ensures After(c, s, events).Some? && forall n :: 0 <= n < |events| ==> !events[n].InputBegins?
    ensures events != [] && events[|events| - 1] == ProviderRequest(true)
    ensures Before(c, s, events, |events| - 1).current != Before(c, s, events, |events| - 1).durable
  {
    var both := BothDecide(c, s, first, second);
    PassedMeans(c, After(c, s, both).value);
    Snoc(c, s, both, ProviderRequest(true));
    events := both + [ProviderRequest(true)];
    assert events[..|events| - 1] == both;
  }

  /** The input that begins, and the one it found deciding: no second decision if that one is overtaken. */
  lemma OvertakenExclusive(c: Config, s: State, id: nat)
    requires Inv(c, s) && Exclusive(c, s) && Single(s) && id !in s.inputs
    requires forall x :: DecidingAt(s, x) ==> Overtaken(c, s, x)
    ensures Exclusive(c, Begin(s, id))
  {
    if !s.startupError {
      BeginInputs(s, id);
      hide Begin, Inv;
      if first :| DecidingAt(s, first) {
        assert s.current.None?;
        var r := Begin(s, id);
        OvertakenApart(c, s, r, id, first);
        assert forall x :: DecidingAt(r, x) ==> x == id || DecidingAt(s, x);
        assert forall x :: WrittenAt(r, x) <==> WrittenAt(s, x);
        JoinedExclusive(c, s, Begin(s, id), id, first);
      } else {
        assert NobodyDeciding(s) by {
          assert forall x :: x in s.inputs && Deciding(s.inputs[x]) ==> DecidingAt(s, x);
        }
        BeginExclusive(c, s, id);
      }
    }
  }

  lemma OvertakenApart(c: Config, s: State, r: State, id: nat, first: nat)
    requires DecidingAt(s, first) && Overtaken(c, s, first) && first in r.inputs && id in r.inputs
    requires r.stale == s.stale && r.inputs[id] == Preflight(false)
    requires r.inputs[first] == if s.runner == Some(first) then Aborted(s.inputs[first]) else s.inputs[first]
    ensures DecidingAt(r, first)
    ensures Apart(c, r, id, first) && Apart(c, r, first, id)
  {
  }

  /** One more input beside the only one that was deciding. */
  lemma JoinedExclusive(c: Config, s: State, r: State, id: nat, first: nat)
    requires Exclusive(c, s) && s.current.None? && DecidingAt(s, first) && DecidingAt(r, first) && first != id
    requires r.durable == s.durable && r.current == s.current && r.startupError == s.startupError
    requires forall x :: DecidingAt(s, x) ==> x == first
    requires forall x :: DecidingAt(r, x) ==> x == first || x == id
    requires forall x :: WrittenAt(r, x) <==> WrittenAt(s, x)
    requires WrittenAt(s, first) ==> r.inputs[first] == s.inputs[first]
    requires id in r.inputs && Apart(c, r, id, first) && Apart(c, r, first, id)
    ensures Exclusive(c, r)
  {
    hide Dead, Apart;
    if s.durable.Some? && !s.startupError {
      var x :| WrittenAt(s, x);
      assert WrittenAt(r, x);
    }
    assert forall x :: WrittenAt(r, x) ==> DecidingAt(s, x);
  }

  lemma NotOvertakenCanDecide(c: Config, s: State, id: nat, first: nat)
    requires Inv(c, s) && Single(s) && id !in s.inputs && DecidingAt(s, first) && !Overtaken(c, s, first)
    ensures var r := Begin(s, id);
      && first != id && r.limitError.None? && CanDecide(c, r, first)
      && id in r.inputs && r.inputs[id] == Preflight(false)
      && forall x :: x in r.inputs && r.inputs[x].Asking? ==> x == first
  {
    assert s.current.None? && !s.startupError;
    BeginInputs(s, id);
    hide Begin;
    var r := Begin(s, id);
    assert forall x :: x in r.inputs && r.inputs[x].Asking? ==> x == id || DecidingAt(s, x);
  }

  /** As long as inputs waited their turn, letting one more begin keeps every later request on the durable
      decision exactly if every input that still waits for the first decision is overtaken by it. */
  lemma BeginKeepsDurableIff(c: Config, start: State, events: seq<Event>, id: nat)
    requires Started(start) && After(c, start, events).Some? && OneAtATime(c, start, events) && c.maxAgentTurns > 0
    requires Step(c, After(c, start, events).value, InputBegins(id)).Some?
    ensures var s := After(c, start, events).value;
      KeepsDurable(c, Step(c, s, InputBegins(id)).value) <==> forall x :: DecidingAt(s, x) ==> Overtaken(c, s, x)
  {
    var s := After(c, start, events).value;
    var r := Step(c, s, InputBegins(id)).value;
    RunInv(c, start, events);
    RunExclusive(c, start, events);
    RunSingle(c, start, events);
    StepInv(c, s, InputBegins(id));
    BeginIs(c, s, id);
    hide Inv, Exclusive, Single, Step, Begin, Overtaken, RequestPasses;
    if forall x :: DecidingAt(s, x) ==> Overtaken(c, s, x) {
      OvertakenExclusive(c, s, id);
      forall more, n |
        After(c, r, more).Some? && OneAtATime(c, r, more) && 0 <= n < |more| && more[n] == ProviderRequest(true)
        ensures Before(c, r, more, n).current == Before(c, r, more, n).durable
      {
        ExclusiveUsesDurable(c, r, more, n);
      }
    } else {
      var first :| DecidingAt(s, first) && !Overtaken(c, s, first);
      NotOvertakenCanDecide(c, s, id, first);
      var more := TwoDeciding(c, r, first, id);
      assert OneAtATime(c, r, more);
    }
  }

  lemma BeginIs(c: Config, s: State, id: nat)
    ensures Step(c, s, InputBegins(id)) == if id in s.inputs then None else Some(Begin(s, id))
  {
  }

  /** After `agent_settled` a beginning input finds no controller to abort: an input still in `preflightAuth` goes
      on to ask the bridge beside the new one. */
  lemma SettledAbortsNobody(c: Config, s: State, first: nat, second: nat)
    requires c.mode.Routed? && !s.startupError && s.current.None? && NobodyAsking(s)
    requires first in s.inputs && s.inputs[first] == Preflight(false) && second !in s.inputs
    ensures var settled := Step(c, s, AgentSettled);
      && settled.Some? && Step(c, settled.value, InputBegins(second)).Some?
      && var r := Step(c, settled.value, InputBegins(second)).value;
      && r.inputs == s.inputs[second := Preflight(false)]
      && Step(c, r, BridgeAsked(first)).Some? && Step(c, r, BridgeAsked(second)).Some?
  {
  }

  // ----- the same as long as no agent has settled in between -----

  /** The controller in place is that of the input without an answer. */
  ghost predicate OwnRunner(s: State) {
    forall id :: id in s.inputs && (s.inputs[id].Preflight? || s.inputs[id].Asking?) ==> s.runner == Some(id)
  }

  lemma BeginOwnRunner(s: State, id: nat)
    requires NobodyDeciding(s) && id !in s.inputs && OwnRunner(s)
    ensures OwnRunner(Begin(s, id))
  {
    if !s.startupError {
      BeginInputs(s, id);
      hide Begin;
    }
  }

  /** An abort keeps the controller in place, and the end of an input that forgets it is the end of the only
      deciding one. */
  lemma KeptOwnRunner(s: State, r: State)
    requires OwnRunner(s) && Fewer(s, r) && (r.runner == s.runner || NobodyDeciding(r))
    ensures OwnRunner(r)
  {
    assert forall id :: id in r.inputs && (r.inputs[id].Preflight? || r.inputs[id].Asking?) ==> DecidingAt(r, id);
  }

  lemma RunnerKept(c: Config, s: State, e: Event)
    requires Inv(c, s) && Single(s) && !Advances(e) && !e.AgentSettled? && Step(c, s, e).Some?
    ensures var r := Step(c, s, e).value; r.runner == s.runner || NobodyDeciding(r)
  {
    var r := Step(c, s, e).value;
    StepFewer(c, s, e);
    if IsInput(e) {
      hide Fewer, AbortRun;
      EndsDeciding(c, s, e);
    }
  }

  lemma EndsDeciding(c: Config, s: State, e: Event)
    requires Inv(c, s) && Single(s) && IsInput(e) && !Advances(e) && Step(c, s, e).Some?
    ensures NobodyDeciding(Step(c, s, e).value)
  {
    StepFewer(c, s, e);
    var r := Step(c, s, e).value;
    assert forall id :: DecidingAt(r, id) ==> DecidingAt(s, id);
    if s.current.None? {
      assert DecidingAt(s, e.id);
      assert !DecidingAt(r, e.id);
    }
  }

  lemma AdvanceOwnRunner(c: Config, s: State, e: Event)
    requires Advances(e) && !e.InputBegins? && Inv(c, s) && Single(s) && OwnRunner(s) && Step(c, s, e).Some?
    ensures OwnRunner(Step(c, s, e).value)
  {
    var r := Step(c, s, e).value;
    AdvanceInputs(c, s, e);
    assert forall id :: id in r.inputs && (r.inputs[id].Preflight? || r.inputs[id].Asking?) ==> DecidingAt(r, id);
  }

  lemma {:induction false} RunOwnRunner(c: Config, start: State, events: seq<Event>)
    requires Started(start) && After(c, start, events).Some? && OneAtATime(c, start, events) && AgentSettled !in events
    ensures OwnRunner(After(c, start, events).value)
  {
    if events != [] {
      var init, last := events[..|events| - 1], events[|events| - 1];
      var s := After(c, start, init).value;
      assert forall e :: e in init ==> e in events;
      assert last in events;
      OneAtATimePrefix(c, start, events);
      RunOwnRunner(c, start, init);
      RunSingle(c, start, init);
      RunInv(c, start, init);
      if last.InputBegins? {
        assert NobodyDeciding(Before(c, start, events, |events| - 1));
        BeginIs(c, s, last.id);
        BeginOwnRunner(s, last.id);
      } else if Advances(last) {
        AdvanceOwnRunner(c, s, last);
      } else {
        StepFewer(c, s, last);
        RunnerKept(c, s, last);
        KeptOwnRunner(s, Step(c, s, last).value);
      }
    }
  }

  /** In a baseline an input may begin exactly if none is deciding; in routed mode exactly if none has been
      answered by the bridge whose decision is not current yet, or nothing can be asked any more. */
  lemma BeginSafeIff(c: Config, start: State, events: seq<Event>, id: nat)
    requires Started(start) && After(c, start, events).Some? && OneAtATime(c, start, events) && AgentSettled !in events
    requires c.maxAgentTurns > 0 && Step(c, After(c, start, events).value, InputBegins(id)).Some?
    ensures var s := After(c, start, events).value;
      KeepsDurable(c, Step(c, s, InputBegins(id)).value) <==>
        if !c.mode.Routed? then NobodyDeciding(s)
        else s.stale || forall x :: x in s.inputs ==> !s.inputs[x].Chosen? && !s.inputs[x].Written?
  {
    BeginKeepsDurableIff(c, start, events, id);
    RunOwnRunner(c, start, events);
    hide KeepsDurable, Step, After, Started;
    OwnOvertaken(c, After(c, start, events).value);
  }

  lemma OwnOvertaken(c: Config, s: State)
    requires OwnRunner(s)
    ensures (forall x :: DecidingAt(s, x) ==> Overtaken(c, s, x)) <==>
      if !c.mode.Routed? then NobodyDeciding(s)
      else s.stale || forall x :: x in s.inputs ==> !s.inputs[x].Chosen? && !s.inputs[x].Written?
  {
    if !c.mode.Routed? {
      assert forall x :: DecidingAt(s, x) ==> !Overtaken(c, s, x);
      assert forall x :: x in s.inputs && Deciding(s.inputs[x]) ==> DecidingAt(s, x);
    } else if x :| x in s.inputs && (s.inputs[x].Chosen? || s.inputs[x].Written?) {
      assert DecidingAt(s, x);
    }
  }

  /** A fresh routed session whose first input still waits for `preflightAuth` when a second one begins: the
      first one is deciding, but it can no longer ask the bridge, and every later request is safe. */
  lemma WaitingInputIsOvertaken(c: Config, start: State)
    requires Started(start) && !start.startupError && start.durable.None? && c.mode.Routed? && c.maxAgentTurns > 0
    ensures var events := [InputBegins(0)];
      && After(c, start, events).Some? && OneAtATime(c, start, events)
      && var s := After(c, start, events).value; var r := Step(c, s, InputBegins(1));
      && !NobodyDeciding(s) && r.Some? && KeepsDurable(c, r.value)
      && r.value.inputs == map[0 := Preflight(true), 1 := Preflight(false)] && Step(c, r.value, BridgeAsked(0)).None?
  {
    var events := [InputBegins(0)];
    Snoc(c, start, [], InputBegins(0));
    assert [] + [InputBegins(0)] == events;
    var s := After(c, start, events).value;
    BeginInputs(start, 0);
    BeginInputs(s, 1);
    hide Begin;
    assert s.inputs == map[0 := Preflight(false)];
    assert events[..0] == [];
    assert NobodyDeciding(start);
    assert DecidingAt(s, 0);
    BeginKeepsDurableIff(c, start, events, 1);
    hide KeepsDurable;
  }

  // ----- which model a request runs on -----

  /** The decisions that were durable at the start or chosen since. */
  function Origins(start: State, events: seq<Event>): set<Decision> {
    if events == [] then (if start.durable.Some? then {start.durable.value} else {})
    else
      var last := events[|events| - 1];
      Origins(start, events[..|events| - 1]) + (if last.DecisionChosen? then {last.decision} else {})
  }

  /** Every decision that the state holds is one of these. */
  ghost predicate Sourced(s: State, from: set<Decision>) {
    && (s.durable.Some? ==> s.durable.value in from) && (s.current.Some? ==> s.current.value in from)
    && (forall id :: id in s.inputs && s.inputs[id].Chosen? ==> s.inputs[id].decision in from)
    && (forall id :: id in s.inputs && s.inputs[id].Written? ==> s.inputs[id].decision in from)
  }

  lemma FewerSourced(s: State, r: State, from: set<Decision>)
    requires Sourced(s, from) && Fewer(s, r)
    ensures Sourced(r, from)
  {
    forall id | id in r.inputs && (r.inputs[id].Chosen? || r.inputs[id].Written?)
      ensures r.inputs[id].decision in from
    {
      assert DecidingAt(r, id) && DecidingAt(s, id);
    }
  }

  lemma RouteSourced(c: Config, s: State, e: Event, from: set<Decision>)
    requires (e.BridgeAsked? || e.DecisionChosen? || e.StoreWritten?) && e.id in s.inputs
    requires Sourced(s, from) && RouteStep(c, s, e).Some? && (e.DecisionChosen? ==> e.decision in from)
    ensures Sourced(RouteStep(c, s, e).value, from)
  {
  }

  lemma CurrentSourced(c: Config, s: State, id: nat, from: set<Decision>)
    requires id in s.inputs && s.inputs[id].Written? && Sourced(s, from)
    ensures Sourced(Apply(c, s.(current := Some(s.inputs[id].decision)), id), from)
  {
  }

  lemma BeginSourced(s: State, id: nat, from: set<Decision>)
    requires Sourced(s, from) && id !in s.inputs
    ensures Sourced(Begin(s, id), from)
  {
    if !s.startupError {
      BeginInputs(s, id);
      hide Begin;
    }
  }

  lemma StepSourced(c: Config, s: State, e: Event, from: set<Decision>)
    requires Sourced(s, from) && Step(c, s, e).Some?
    ensures Sourced(Step(c, s, e).value, from + (if e.DecisionChosen? then {e.decision} else {}))
  {
    var more := from + (if e.DecisionChosen? then {e.decision} else {});
    assert Sourced(s, more);
    if !Advances(e) {
      StepFewer(c, s, e);
      FewerSourced(s, Step(c, s, e).value, more);
    } else {
      hide Sourced, RouteStep, Begin, Apply;
      match e {
        case InputBegins(id) => BeginSourced(s, id, more);
        case DecisionCurrent(id) => CurrentSourced(c, s, id, more);
        case _ => RouteSourced(c, s, e, more);
      }
    }
  }

  lemma {:induction false} RunSourced(c: Config, start: State, events: seq<Event>)
    requires Started(start) && After(c, start, events).Some?
    ensures Sourced(After(c, start, events).value, Origins(start, events))
  {
    if events != [] {
      RunSourced(c, start, events[..|events| - 1]);
      StepSourced(c, After(c, start, events[..|events| - 1]).value, events[|events| - 1],
                  Origins(start, events[..|events| - 1]));
    }
  }

  /** A baseline chooses its own tier only. */
  lemma ChosenTier(c: Config, s: State, e: Event)
    requires e.DecisionChosen? && Step(c, s, e).Some?
    ensures c.mode.WeakOnly? ==> e.decision.tier.Weak?
    ensures c.mode.StrongOnly? ==> e.decision.tier.Strong?
  {
  }

  lemma {:induction false} OriginsAre(c: Config, start: State, events: seq<Event>, d: Decision)
    requires Started(start) && After(c, start, events).Some? && d in Origins(start, events)
    ensures start.durable == Some(d)
      || ((exists k, id, left :: 0 <= k < |events| && events[k] == DecisionChosen(id, d, left))
          && (c.mode.WeakOnly? ==> d.tier.Weak?) && (c.mode.StrongOnly? ==> d.tier.Strong?))
  {
    if events != [] {
      var init, last := events[..|events| - 1], events[|events| - 1];
      if d in Origins(start, init) {
        OriginsAre(c, start, init, d);
        if k, id, left :| 0 <= k < |init| && init[k] == DecisionChosen(id, d, left) {
          assert events[k] == DecisionChosen(id, d, left);
        }
      } else {
        ChosenTier(c, After(c, start, init).value, last);
        assert events[|events| - 1] == DecisionChosen(last.id, d, last.left);
      }
    }
  }

  /** Every request that passes runs on the weak or the strong model as the current decision's tier says, and
      that decision was durable at the start or was chosen since: by the bridge, or as the mode of a baseline
      fixes. So in a session that starts undecided a baseline's requests run on its own model only. */
  lemma RequestModel(c: Config, start: State, events: seq<Event>, n: nat)
    requires Started(start) && After(c, start, events).Some? && n < |events| && events[n] == ProviderRequest(true)
    ensures var s := Before(c, start, events, n);
      && s.current.Some? && s.contextModel == Some(if s.current.value.tier.Weak? then c.weak else c.strong)
      && (s.current == start.durable
          || exists k, id, left :: 0 <= k < n && events[k] == DecisionChosen(id, s.current.value, left))
    ensures start.durable.None? && c.mode.WeakOnly? ==> Before(c, start, events, n).contextModel == Some(c.weak)
    ensures start.durable.None? && c.mode.StrongOnly? ==> Before(c, start, events, n).contextModel == Some(c.strong)
  {
    RequestPassesOnlyIf(c, start, events, n);
    Prefix(c, start, events, n);
    RunSourced(c, start, events[..n]);
    hide Started, After, Origins, RoleModel;
    var d := Before(c, start, events, n).current.value;
    OriginsAre(c, start, events[..n], d);
    if k, id, left :| 0 <= k < n && events[..n][k] == DecisionChosen(id, d, left) {
      assert events[k] == DecisionChosen(id, d, left);
    }
  }

  // ----- the model lock -----

  /** The model a decision locks the session to, None if it names another than the configured one. */
  function LockedModel(c: Config, d: Decision): Option<Model> {
    var configured := if d.tier == Strong then c.strong else c.weak;
    if d.model == configured then Some(configured) else None
  }

  /** Selecting another model than the locked one starts a repair unless one is under way; once the repair's model
      is applied the context is on the locked model again, and a request passes unless a limit is pending. */
  lemma ForeignModelRepaired(c: Config, s: State, model: Model)
    requires s.current.Some? && LockedModel(c, s.current.value).Some? && s.repairing.None?
    ensures var locked := LockedModel(c, s.current.value); var r := Step(c, s, ModelSelected(model));
      && r.Some?
      && r.value == s.(contextModel := Some(model), repairing := if Some(model) == locked then None else locked)
      && (Some(model) != locked ==> !RequestPasses(c, r.value))
      && (Some(model) != locked ==> var t := Step(c, r.value, RepairReturns(true));
           && t.Some? && t.value == s.(contextModel := locked)
           && (RequestPasses(c, t.value) <==> s.limitError.None?))
  {
  }

  /** Without a decision, or while a repair is under way, a selected model is left alone; a repair whose model
      could not be applied leaves the context as it is; nothing else ends one. */
  lemma SelectionLeftAlone(c: Config, s: State, model: Model, applied: bool)
    requires s.current.None? || s.repairing.Some?
    ensures Step(c, s, ModelSelected(model)) == Some(s.(contextModel := Some(model)))
    ensures Step(c, s, RepairReturns(applied)).Some? <==> s.repairing.Some?
    ensures s.repairing.Some? ==>
      Step(c, s, RepairReturns(applied))
      == Some(s.(repairing := None, contextModel := if applied then s.repairing else s.contextModel))
  {
  }

  /** A compaction is run on the locked model, and refused without one. */
  lemma CompactionOnLocked(c: Config, s: State, applied: bool)
    ensures var r := Step(c, s, CompactionApplies(applied));
      && (r.Some? <==> !s.startupError && s.current.Some? && LockedModel(c, s.current.value).Some?)
      && (r.Some? ==> r.value == if applied then s.(contextModel := LockedModel(c, s.current.value)) else s)
  {
  }

  /** An abort does not end a call to the bridge: the input still asks, keeps others from asking, and may get its
      decision; but the call leaves frames behind. */
  lemma AbortedStillAsks(c: Config, s: State, id: nat, other: nat, d: Decision, left: bool)
    requires c.mode.Routed? && s.runner == Some(id) && id in s.inputs && s.inputs[id] == Asking(false) && !s.stale
    requires LockedModel(c, d).Some?
    ensures var r := AbortRun(s);
      && r == s.(inputs := s.inputs[id := Asking(true)]) && Step(c, r, BridgeAsked(other)).None?
      && Step(c, r, DecisionChosen(id, d, left))
         == Some(r.(stale := true, inputs := s.inputs[id := Chosen(d)]))
  {
    assert s.inputs[id := Asking(true)][id := Chosen(d)] == s.inputs[id := Chosen(d)];
    assert !NobodyAsking(AbortRun(s)) by {
      assert AbortRun(s).inputs[id].Asking?;
    }
  }

  /** An input that ends in an error is gone and takes the controller in place with it; an accepted one leaves
      the controller to the next input. */
  lemma EndsIff(c: Config, s: State, e: Event)
    requires Step(c, s, e).Some?
    requires e.RoutingFails? || (e.SetModelReturns? && !e.applied) || e.InputFinishes?
    ensures var r := Step(c, s, e).value;
      && e.id in s.inputs && r.inputs.Keys == s.inputs.Keys - {e.id}
      && r.runner == (if e.InputFinishes? && !e.late then s.runner else None)
  {
    AbortChanges(s.(limitError := FirstOf(s.limitError, Timeout)));
  }

  /** Routing and restoring can fail at any of their awaits, and only there. */
  lemma FailsIff(c: Config, s: State, id: nat, limit: Option<Limit>, status: Status, left: bool)
    ensures Step(c, s, RoutingFails(id, limit, status, left)).Some? <==>
      id in s.inputs && !s.inputs[id].Written? && !s.inputs[id].Setting? && !s.inputs[id].Finishing?
  {
  }

  // ----- a run in which the decisions diverge -----

  /** The first input has its answer from the bridge when the second one begins. */
  function AnsweredFirst(a: Decision): seq<Event> {
    [InputBegins(0), BridgeAsked(0), DecisionChosen(0, a, false), InputBegins(1)]
  }

  lemma FirstAnswered(c: Config, start: State, a: Decision)
    requires Started(start) && !start.startupError && start.durable.None? && !start.stale
    requires c.mode.Routed? && a.model == RoleModel(c, a.tier)
    ensures After(c, start, AnsweredFirst(a))
      == Some(start.(runner := Some(1), inputs := map[0 := Chosen(a), 1 := Preflight(false)]))
  {
    var e0, e1, e2, e3 := InputBegins(0), BridgeAsked(0), DecisionChosen(0, a, false), InputBegins(1);
    assert [] + [e0] == [e0] && [e0] + [e1] == [e0, e1] && [e0, e1] + [e2] == [e0, e1, e2];
    Snoc(c, start, [], e0);
    Snoc(c, start, [e0], e1);
    Snoc(c, start, [e0, e1], e2);
    Snoc(c, start, [e0, e1, e2], e3);
    assert [e0, e1, e2] + [e3] == AnsweredFirst(a);
    var asked := start.inputs[0 := Preflight(false)][0 := Asking(false)];
    assert asked[0 := Chosen(a)] == map[0 := Chosen(a)];
    assert map[0 := Chosen(a)][0 := Chosen(a)] == map[0 := Chosen(a)];
    assert map[0 := Chosen(a)][1 := Preflight(false)] == map[0 := Chosen(a), 1 := Preflight(false)];
  }

  /** It is accepted and starts its turn. */
  lemma FirstAccepted(c: Config, s: State, a: Decision)
    requires s.inputs == map[0 := Chosen(a), 1 := Preflight(false)] && c.maxAgentTurns > 0
    requires a.model == RoleModel(c, a.tier) && s.contextModel == Some(a.model)
    ensures After(c, s, [StoreWritten(0), DecisionCurrent(0)] + [InputFinishes(0, false), TurnStarts(true)])
      == Some(s.(durable := Some(a), current := Some(a), turnCount := 1, inputs := map[1 := Preflight(false)]))
  {
    FirstCurrent(c, s, a);
    hide After, Step;
    var current := s.(durable := Some(a), current := Some(a), inputs := map[0 := Finishing, 1 := Preflight(false)]);
    AfterConcat(c, s, [StoreWritten(0), DecisionCurrent(0)], [InputFinishes(0, false), TurnStarts(true)]);
    TurnStarted(c, current, 0);
    assert current.inputs - {0} == map[1 := Preflight(false)];
  }

  lemma FirstCurrent(c: Config, s: State, a: Decision)
    requires s.inputs == map[0 := Chosen(a), 1 := Preflight(false)]
    requires a.model == RoleModel(c, a.tier) && s.contextModel == Some(a.model)
    ensures After(c, s, [StoreWritten(0), DecisionCurrent(0)])
      == Some(s.(durable := Some(a), current := Some(a), inputs := map[0 := Finishing, 1 := Preflight(false)]))
  {
    var e0, e1 := StoreWritten(0), DecisionCurrent(0);
    assert [] + [e0] == [e0] && [e0] + [e1] == [e0, e1];
    Snoc(c, s, [], e0);
    Snoc(c, s, [e0], e1);
    var written := s.inputs[0 := Written(a)];
    assert written[0 := Finishing] == map[0 := Finishing, 1 := Preflight(false)];
  }

  /** The second one asks the bridge, and writes its own decision. */
  lemma SecondWrites(c: Config, s: State, b: Decision)
    requires s.inputs == map[1 := Preflight(false)] && c.mode.Routed? && !s.stale && b.model == RoleModel(c, b.tier)
    ensures After(c, s, [BridgeAsked(1), DecisionChosen(1, b, false), StoreWritten(1)])
      == Some(s.(durable := Some(b), inputs := map[1 := Written(b)]))
  {
    var e0, e1, e2 := BridgeAsked(1), DecisionChosen(1, b, false), StoreWritten(1);
    assert [] + [e0] == [e0] && [e0] + [e1] == [e0, e1] && [e0, e1] + [e2] == [e0, e1, e2];
    Snoc(c, s, [], e0);
    Snoc(c, s, [e0], e1);
    Snoc(c, s, [e0, e1], e2);
    assert s.inputs[1 := Asking(false)][1 := Chosen(b)][1 := Written(b)] == map[1 := Written(b)];
  }

  /** A fresh routed session whose requests pass on a decision that is no longer the durable one. */
  lemma OverlappingInputsDiverge(c: Config, start: State, a: Decision, b: Decision)
    requires Started(start) && !start.startupError && start.durable.None? && !start.stale
    requires c.mode.Routed? && c.maxAgentTurns > 0 && start.contextModel == Some(a.model)
    requires a != b && a.model == RoleModel(c, a.tier) && b.model == RoleModel(c, b.tier)
    ensures var events := AnsweredFirst(a)
        + ([StoreWritten(0), DecisionCurrent(0)] + [InputFinishes(0, false), TurnStarts(true)])
        + [BridgeAsked(1), DecisionChosen(1, b, false), StoreWritten(1)];
      && After(c, start, events + [ProviderRequest(true)]).Some?
      && After(c, start, events).Some?
      && After(c, start, events).value.current == Some(a) && After(c, start, events).value.durable == Some(b)
  {
    var accepted := [StoreWritten(0), DecisionCurrent(0)] + [InputFinishes(0, false), TurnStarts(true)];
    var writes := [BridgeAsked(1), DecisionChosen(1, b, false), StoreWritten(1)];
    FirstAnswered(c, start, a);
    FirstAccepted(c, After(c, start, AnsweredFirst(a)).value, a);
    AfterConcat(c, start, AnsweredFirst(a), accepted);
    SecondWrites(c, After(c, start, AnsweredFirst(a) + accepted).value, b);
    AfterConcat(c, start, AnsweredFirst(a) + accepted, writes);
    Snoc(c, start, AnsweredFirst(a) + accepted + writes, ProviderRequest(true));
    hide After, AnsweredFirst;
  }

  // ----- limits -----

  /** Normal turns since an input was last accepted. */
  function NormalTurns(events: seq<Event>): nat {
    if events == [] then 0
    else
      var last := events[|events| - 1];
      if last.InputFinishes? && !last.late then 0
      else NormalTurns(events[..|events| - 1]) + (if last == TurnStarts(true) then 1 else 0)
  }

  lemma {:induction false} TurnsCounted(c: Config, start: State, events: seq<Event>)
    requires Started(start) && After(c, start, events).Some?
    ensures var turns := After(c, start, events).value.turnCount;
      NormalTurns(events) == if turns <= c.maxAgentTurns then turns else c.maxAgentTurns
  {
    if events != [] {
      TurnsCounted(c, start, events[..|events| - 1]);
      StepTurns(c, After(c, start, events[..|events| - 1]).value, events[|events| - 1]);
      hide Step;
    }
  }

  lemma StepTurns(c: Config, s: State, e: Event)
    requires Step(c, s, e).Some?
    ensures Step(c, s, e).value.turnCount
      == if e.InputFinishes? && !e.late then 0 else s.turnCount + (if e.TurnStarts? then 1 else 0)
    ensures e.TurnStarts? ==> (e.normal <==> s.turnCount < c.maxAgentTurns)
  {
  }

  /** Between accepted inputs at most `maxAgentTurns` turns start normally, and a turn is refused only
      when that many did. */
  lemma TurnBudget(c: Config, start: State, events: seq<Event>, n: nat)
    requires Started(start) && After(c, start, events).Some? && n < |events|
    ensures NormalTurns(events[..n + 1]) <= c.maxAgentTurns
    ensures events[n].TurnStarts? ==> (events[n].normal <==> NormalTurns(events[..n]) < c.maxAgentTurns)
  {
    Prefix(c, start, events, n);
    Prefix(c, start, events, n + 1);
    TurnsCounted(c, start, events[..n]);
    TurnsCounted(c, start, events[..n + 1]);
    StepBefore(c, start, events, n);
  }

  /** The limit an event enforces. */
  function LimitOf(e: Event): Option<Limit> {
    if e.TimerFires? || (e.InputFinishes? && e.late) then Some(Timeout)
    else if e.TurnStarts? && !e.normal then Some(BudgetExhausted)
    else if e.RoutingFails? then e.limit
    else None
  }

  /** What an event does to the controller's limit and to the recorder's. */
  ghost predicate KeepsFirst(e: Event, s: State, r: State) {
    && (LimitOf(e).Some? ==> r.limitError == FirstOf(s.limitError, LimitOf(e).value))
    && (LimitOf(e).None? && !e.InputBegins? ==> r.limitError == s.limitError)
    && (LimitOf(e).Some? ==> r.limitFailure == FirstOf(s.limitFailure, r.limitError.value))
    && (LimitOf(e).None? ==> r.limitFailure == s.limitFailure)
  }

  lemma RouteLimit(c: Config, s: State, e: Event)
    requires e.BridgeAsked? || e.DecisionChosen? || e.StoreWritten?
    requires e.id in s.inputs && RouteStep(c, s, e).Some?
    ensures KeepsFirst(e, s, RouteStep(c, s, e).value)
  {
  }

  lemma InputLimit(c: Config, s: State, e: Event)
    requires IsInput(e) && InputStep(c, s, e).Some?
    ensures KeepsFirst(e, s, InputStep(c, s, e).value)
  {
    hide RouteStep;
    if e.BridgeAsked? || e.DecisionChosen? || e.StoreWritten? {
      RouteLimit(c, s, e);
    }
  }

  lemma StepLimit(c: Config, s: State, e: Event)
    requires Step(c, s, e).Some?
    ensures KeepsFirst(e, s, Step(c, s, e).value)
  {
    hide InputStep;
    if IsInput(e) {
      InputLimit(c, s, e);
    }
  }

  /** After a limit, no provider request passes until the next input begins. */
  lemma {:induction false} LimitSticks(c: Config, start: State, events: seq<Event>, n: nat, k: nat)
    requires Started(start) && After(c, start, events).Some? && n < k < |events|
    requires LimitOf(events[n]).Some? && forall l :: n < l < k ==> !events[l].InputBegins?
    ensures Before(c, start, events, k).limitError == Before(c, start, events, n + 1).limitError
    ensures events[k] != ProviderRequest(true)
  {
    hide After, Step;
    if k == n + 1 {
      StepBefore(c, start, events, n);
      StepLimit(c, Before(c, start, events, n), events[n]);
    } else {
      LimitSticks(c, start, events, n, k - 1);
      StepBefore(c, start, events, k - 1);
      StepLimit(c, Before(c, start, events, k - 1), events[k - 1]);
      StepBefore(c, start, events, n);
      StepLimit(c, Before(c, start, events, n), events[n]);
    }
    StepBefore(c, start, events, k);
    PassedMeans(c, Before(c, start, events, k));
  }

  lemma PassedMeans(c: Config, s: State)
    ensures Step(c, s, ProviderRequest(true)).Some? <==> RequestPasses(c, s)
  {
  }

  /** The first limit of the run, if any. */
  function FirstLimit(events: seq<Event>): Option<Limit> {
    if events == [] then None
    else
      var earlier := FirstLimit(events[..|events| - 1]);
      if earlier.Some? then earlier else LimitOf(events[|events| - 1])
  }

  lemma {:induction false} LimitRecorded(c: Config, start: State, events: seq<Event>)
    requires Started(start) && After(c, start, events).Some?
    ensures After(c, start, events).value.limitFailure == FirstLimit(events)
    ensures After(c, start, events).value.limitError.Some? ==> FirstLimit(events).Some?
  {
    if events != [] {
      LimitRecorded(c, start, events[..|events| - 1]);
      StepLimit(c, After(c, start, events[..|events| - 1]).value, events[|events| - 1]);
      StepClears(c, After(c, start, events[..|events| - 1]).value, events[|events| - 1]);
      hide Step;
    }
  }

  lemma StepClears(c: Config, s: State, e: Event)
    requires Step(c, s, e).Some?
    ensures e.InputBegins? && Step(c, s, e).value.limitError.Some? ==> s.limitError.Some?
  {
  }

  /** What `finalize` is called with: nothing, a limit error, or another error classified by its message. */
  datatype Ending = Normally | WithLimit(limit: Limit) | WithError(status: Status)

  function FinalStatus(s: State, ending: Ending): Status {
    var limit := if ending.WithLimit? then FirstOf(s.limitFailure, ending.limit) else s.limitFailure;
    var error := match ending
      case Normally => s.lastError
      case WithLimit(l) => Some(LimitMessage(l))
      case WithError(status) => Some(status);
    if limit.Some? then Limited(limit.value) else if error.Some? then error.value else Completed
  }

  /** `finalize` reports the first limit that was enforced, whatever else followed; without any limit
      it reports the error it is given, else the last one reported, else completion. */
  lemma FirstLimitReported(c: Config, start: State, events: seq<Event>, ending: Ending)
    requires Started(start) && After(c, start, events).Some?
    ensures var status := FinalStatus(After(c, start, events).value, ending);
      && (FirstLimit(events).Some? ==> status == Limited(FirstLimit(events).value))
      && (FirstLimit(events).None? && ending.WithLimit? ==> status == Limited(ending.limit))
      && (FirstLimit(events).None? && ending.WithError? ==> status == ending.status)
  {
    LimitRecorded(c, start, events);
  }

  /** How the recorder classifies the message of a limit: that of a wall-time limit says so, a turn limit's does not. */
  function MessageOf(limit: Limit): Status { if limit == Timeout then Limited(Timeout) else HarnessError }

  /** The error an event reports, if any; a limit is reported with the message of the first one of the input. */
  function ErrorOf(c: Config, s: State, e: Event): Option<Status> {
    if LimitOf(e).Some? && !e.RoutingFails? then Some(MessageOf(FirstOf(s.limitError, LimitOf(e).value).value))
    else
      match e
      case ErrorReported(status) => Some(status)
      case RoutingFails(_, _, status, _) => Some(status)
      case SetModelReturns(_, applied) => if applied then None else Some(AuthRequired)
      case DecisionCurrent(id) =>
        if id in s.inputs && s.inputs[id].Written? && LockedModel(c, s.inputs[id].decision).None?
        then Some(HarnessError) else None
      case Authenticated(_) =>
        if s.current.Some? && LockedModel(c, s.current.value).None? then Some(HarnessError) else None
      case _ => None
  }

  /** The last error reported before or in a run. */
  function LastError(c: Config, start: State, events: seq<Event>): Option<Status>
    requires After(c, start, events).Some?
  {
    if events == [] then start.lastError
    else
      var s := After(c, start, events[..|events| - 1]).value;
      var error := ErrorOf(c, s, events[|events| - 1]);
      if error.Some? then error else LastError(c, start, events[..|events| - 1])
  }

  lemma InputReports(c: Config, s: State, e: Event)
    requires IsInput(e) && InputStep(c, s, e).Some?
    ensures var r, error := InputStep(c, s, e).value, ErrorOf(c, s, e);
      r.lastError == if error.Some? then error else s.lastError
  {
  }

  lemma StepReports(c: Config, s: State, e: Event)
    requires Step(c, s, e).Some?
    ensures var r, error := Step(c, s, e).value, ErrorOf(c, s, e);
      r.lastError == if error.Some? then error else s.lastError
  {
    hide InputStep;
    if IsInput(e) {
      InputReports(c, s, e);
    }
  }

  lemma {:induction false} RunReportsErrors(c: Config, start: State, events: seq<Event>)
    requires After(c, start, events).Some?
    ensures After(c, start, events).value.lastError == LastError(c, start, events)
  {
    if events != [] {
      RunReportsErrors(c, start, events[..|events| - 1]);
      StepReports(c, After(c, start, events[..|events| - 1]).value, events[|events| - 1]);
      hide Step, ErrorOf;
    }
  }

  /** A run without a limit that ends normally is reported with its last error, and as completed without any. */
  lemma LastErrorReported(c: Config, start: State, events: seq<Event>)
    requires Started(start) && After(c, start, events).Some? && FirstLimit(events).None?
    ensures var error := LastError(c, start, events);
      FinalStatus(After(c, start, events).value, Normally) == if error.Some? then error.value else Completed
  {
    LimitRecorded(c, start, events);
    RunReportsErrors(c, start, events);
    hide After, LastError;
  }

  // ----- the handlers themselves -----

  /** The extension's closure variables, its controller and the recorder it reports to, and what earlier calls
      left in the bridge's pipes. Each method is a handler, or the part of one between two awaits. */
  class SessionGuard {
    const config: Config
    var durable: Option<Decision>
    var current: Option<Decision>
    var startupError: bool
    var repairing: Option<Model>
    var contextModel: Option<Model>
    var limitError: Option<Limit>
    var turnCount: nat
    var inputs: map<nat, Phase>
    var runner: Option<nat>
    var stale: bool
    var limitFailure: Option<Limit>
    var lastError: Option<Status>

    function View(): State
      reads this
    {
      State(durable, current, startupError, repairing, contextModel, limitError, turnCount, inputs,
            runner, stale, limitFailure, lastError)
    }

    /** `loaded` is what `load` returned, None where it threw. */
    constructor SessionStart(config: Config, stored: Option<Decision>, loaded: Option<Option<Decision>>,
      contextModel: Option<Model>, stale: bool)
      requires loaded.Some? ==> loaded.value == stored
      ensures this.config == config && Started(View())
      ensures durable == stored && startupError == loaded.None? && this.contextModel == contextModel
      ensures this.stale == stale
    {
      this.config := config;
      durable := stored;
      current := if loaded.Some? then loaded.value else None;
      startupError := loaded.None?;
      repairing, limitError, limitFailure := None, None, None;
      this.contextModel := contextModel;
      turnCount, inputs, runner, this.stale := 0, map[], None, stale;
      lastError := if loaded.None? then Some(HarnessError) else None;
    }

    method Abort()
      modifies this
      ensures View() == AbortRun(old(View()))
    {
      if runner.Some? && runner.value in inputs {
        inputs := inputs[runner.value := Aborted(inputs[runner.value])];
      }
    }

    method Stop(limit: Limit)
      modifies this
      ensures View() == StopForLimit(old(View()), limit)
    {
      if limitError.None? {
        limitError := Some(limit);
      }
      if limitFailure.None? {
        limitFailure := limitError;
      }
      lastError := Some(LimitMessage(limitError.value));
      Abort();
    }

    method Caught(id: nat, limit: Option<Limit>, status: Status)
      modifies this
      ensures View() == InputCaught(old(View()), id, limit, status)
    {
      if limit.Some? {
        Stop(limit.value);
      }
      lastError := Some(status);
      inputs := inputs - {id};
      runner := None;
    }

    method ApplySelectedModel(id: nat)
      requires current.Some?
      modifies this
      ensures View() == Apply(config, old(View()), id)
    {
      var selected := RoleModel(config, current.value.tier);
      if current.value.model != selected {
        Caught(id, None, HarnessError);
      } else if contextModel != Some(selected) {
        inputs := inputs[id := Setting(selected)];
      } else {
        inputs := inputs[id := Finishing];
      }
    }

    method Input(id: nat)
      requires id !in inputs
      modifies this
      ensures Step(config, old(View()), InputBegins(id)) == Some(View())
    {
      if startupError {
        return;
      }
      limitError := None;
      Abort();
      runner := Some(id);
      inputs := inputs[id := if current.None? then Preflight(false) else Restoring];
    }

    /** `create` enters `resolveDecision`, which refuses a second call and an aborted one. */
    method AskBridge(id: nat) returns (accepted: bool)
      requires id in inputs && inputs[id].Preflight? && config.mode.Routed?
      modifies this
      ensures accepted <==> !old(inputs)[id].aborted && NobodyAsking(old(View()))
      ensures accepted ==> Step(config, old(View()), BridgeAsked(id)) == Some(View())
      ensures !accepted ==> View() == old(View())
    {
      accepted := !inputs[id].aborted && forall x :: x in inputs ==> !inputs[x].Asking?;
      if accepted {
        inputs := inputs[id := Asking(false)];
      }
    }

    /** `resolveDecision` returned; the tier is the library's choice. */
    method BridgeReturns(id: nat, decisionId: string, tier: Tier, left: bool) returns (decision: Decision)
      requires id in inputs && inputs[id].Asking? && config.mode.Routed? && !stale
      modifies this
      ensures decision.decisionId == decisionId && decision.tier == tier
      ensures Step(config, old(View()), DecisionChosen(id, decision, left)) == Some(View())
    {
      decision := Decision(decisionId, tier, RoleModel(config, tier));
      stale := inputs[id].aborted || left;
      inputs := inputs[id := Chosen(decision)];
    }

    /** A fixed baseline takes its mode's tier, whatever became of the signal. */
    method BaselineDecides(id: nat, decisionId: string) returns (decision: Decision)
      requires id in inputs && inputs[id].Preflight? && !config.mode.Routed?
      modifies this
      ensures decision.decisionId == decisionId && (decision.tier.Strong? <==> config.mode.StrongOnly?)
      ensures Step(config, old(View()), DecisionChosen(id, decision, false)) == Some(View())
    {
      var tier := if config.mode.WeakOnly? then Weak else Strong;
      decision := Decision(decisionId, tier, RoleModel(config, tier));
      inputs := inputs[id := Chosen(decision)];
    }

    method StoreWrites(id: nat)
      requires id in inputs && inputs[id].Chosen?
      modifies this
      ensures Step(config, old(View()), StoreWritten(id)) == Some(View())
    {
      durable := Some(inputs[id].decision);
      inputs := inputs[id := Written(inputs[id].decision)];
    }

    method CreateReturns(id: nat)
      requires id in inputs && inputs[id].Written?
      modifies this
      ensures Step(config, old(View()), DecisionCurrent(id)) == Some(View())
    {
      current := Some(inputs[id].decision);
      ApplySelectedModel(id);
    }

    /** `preflightAuth`, the bridge or the store threw; a failed call may leave frames in the pipes. */
    method CreateOrPreflightThrows(id: nat, limit: Option<Limit>, status: Status, left: bool)
      requires id in inputs
      requires inputs[id].Preflight? || inputs[id].Asking? || inputs[id].Chosen? || inputs[id].Restoring?
      modifies this
      ensures Step(config, old(View()), RoutingFails(id, limit, status, left)) == Some(View())
    {
      if inputs[id].Asking? {
        stale := left;
      }
      Caught(id, limit, status);
    }

    method PreflightReturns(id: nat)
      requires id in inputs && inputs[id].Restoring? && current.Some?
      modifies this
      ensures Step(config, old(View()), Authenticated(id)) == Some(View())
    {
      ApplySelectedModel(id);
    }

    method SetModelResolves(id: nat, applied: bool)
      requires id in inputs && inputs[id].Setting?
      modifies this
      ensures Step(config, old(View()), SetModelReturns(id, applied)) == Some(View())
    {
      if !applied {
        Caught(id, None, AuthRequired);
      } else {
        contextModel := Some(inputs[id].model);
        inputs := inputs[id := Finishing];
      }
    }

    method FinishInput(id: nat, late: bool)
      requires id in inputs && inputs[id].Finishing?
      modifies this
      ensures Step(config, old(View()), InputFinishes(id, late)) == Some(View())
    {
      if late {
        Stop(Timeout);
        Caught(id, limitError, LimitMessage(limitError.value));
      } else {
        turnCount := 0;
        inputs := inputs - {id};
      }
    }

    method TurnStart() returns (normal: bool)
      modifies this
      ensures Step(config, old(View()), TurnStarts(normal)) == Some(View())
    {
      turnCount := turnCount + 1;
      normal := turnCount <= config.maxAgentTurns;
      if !normal {
        Stop(BudgetExhausted);
      }
    }

    method BeforeProviderRequest() returns (passed: bool)
      ensures Step(config, View(), ProviderRequest(passed)) == Some(View())
    {
      if limitError.Some? || current.None? {
        return false;
      }
      var selected := RoleModel(config, current.value.tier);
      passed := current.value.model == selected && contextModel == Some(selected);
    }

    method ModelSelect(model: Model)
      modifies this
      ensures Step(config, old(View()), ModelSelected(model)) == Some(View())
    {
      contextModel := Some(model);
      if current.None? || repairing.Some? {
        return;
      }
      var selected := RoleModel(config, current.value.tier);
      if current.value.model == selected && model != selected {
        repairing := Some(selected);
      }
    }

    method RepairResolves(applied: bool)
      requires repairing.Some?
      modifies this
      ensures Step(config, old(View()), RepairReturns(applied)) == Some(View())
    {
      if applied {
        contextModel := repairing;
      }
      repairing := None;
    }

    method AgentSettles()
      modifies this
      ensures Step(config, old(View()), AgentSettled) == Some(View())
    {
      runner := None;
    }

    method SessionShutsDown()
      modifies this
      ensures Step(config, old(View()), ShutDown) == Some(View())
    {
      Abort();
    }
  }
}
