/** The observable store of evaluator/17-subscription-lifecycle. Listeners may call `set`, `subscribe`
    and `unsubscribe` while they are being notified, and may throw. */
module ReentrantStore {
  import opened Wrappers

  /** What can be observed from outside, in the order in which it happens. */
  datatype Event<+T> =
    | SetCalled(value: T)
    | Subscribed(id: nat)
    | Unsubscribed(id: nat)
    | DeliveryBegins(value: T)
    | Notified(id: nat, value: T)
    | Threw(reason: Option<int>)
    | DeliveryEnds

  // ----- what a lawful history is, independently of the code -----

  /** The delivery in progress: its value and the listeners still to be told, in order. */
  datatype Delivery<+T> = Idle | Delivering(value: T, remaining: seq<nat>)

  datatype Monitor<+T> = Monitor(registered: seq<nat>, pending: seq<T>, delivery: Delivery<T>)

  function Without(ids: seq<nat>, id: nat): (r: seq<nat>)
    ensures forall x :: x in r <==> x in ids && x != id
  {
    if ids == [] then []
    else Without(ids[..|ids| - 1], id) + (if ids[|ids| - 1] == id then [] else [ids[|ids| - 1]])
  }

  /** One event, if the rules allow it. A value is delivered when it is the oldest pending one and no
      delivery is in progress; it goes to the listeners registered at that moment, each once, in order. */
  function Observe<T(==)>(m: Monitor<T>, e: Event<T>): Option<Monitor<T>> {
    match e
    case SetCalled(v) => Some(m.(pending := m.pending + [v]))
    case Subscribed(id) => if id in m.registered then None else Some(m.(registered := m.registered + [id]))
    case Unsubscribed(id) => Some(m.(registered := Without(m.registered, id)))
    case DeliveryBegins(v) =>
      if m.delivery.Idle? && m.pending != [] && m.pending[0] == v
      then Some(m.(pending := m.pending[1..], delivery := Delivering(v, m.registered))) else None
    case Notified(id, v) =>
      if m.delivery.Delivering? && m.delivery.remaining != [] && m.delivery.remaining[0] == id && m.delivery.value == v
      then Some(m.(delivery := Delivering(v, m.delivery.remaining[1..]))) else None
    case Threw(_) => if m.delivery.Delivering? then Some(m) else None
    case DeliveryEnds =>
      if m.delivery.Delivering? && m.delivery.remaining == [] then Some(m.(delivery := Idle)) else None
  }

  function Watch<T(==)>(history: seq<Event<T>>): Option<Monitor<T>> {
    if history == [] then Some(Monitor([], [], Idle))
    else
      match Watch(history[..|history| - 1])
      case None => None
      case Some(m) => Observe(m, history[|history| - 1])
  }

  lemma {:induction false} WatchPrefix<T>(history: seq<Event<T>>, k: nat)
    requires Watch(history).Some? && k <= |history|
    ensures Watch(history[..k]).Some?
  {
    if k < |history| {
      assert history[..|history| - 1][..k] == history[..k];
      WatchPrefix(history[..|history| - 1], k);
    } else {
      assert history[..k] == history;
    }
  }

  function SetBy<T>(e: Event<T>): seq<T> { if e.SetCalled? then [e.value] else [] }

  function DeliveredBy<T>(e: Event<T>): seq<T> { if e.DeliveryBegins? then [e.value] else [] }

  function SetValues<T>(history: seq<Event<T>>): seq<T> {
    if history == [] then [] else SetValues(history[..|history| - 1]) + SetBy(history[|history| - 1])
  }

  function DeliveredValues<T>(history: seq<Event<T>>): seq<T> {
    if history == [] then [] else DeliveredValues(history[..|history| - 1]) + DeliveredBy(history[|history| - 1])
  }

  /** The first non-null reason a listener threw since position `from`. */
  function FirstThrow<T>(history: seq<Event<T>>, from: nat): Option<int>
    requires from <= |history|
  {
    if from == |history| then None
    else
      var earlier := FirstThrow(history[..|history| - 1], from);
      if earlier.None? && history[|history| - 1].Threw? then history[|history| - 1].reason else earlier
  }

  /** Values are delivered in the order of the `set` calls; none is lost, repeated or overtaken. */
  lemma {:induction false} SetOrder<T>(history: seq<Event<T>>)
    requires Watch(history).Some?
    ensures SetValues(history) == DeliveredValues(history) + Watch(history).value.pending
  {
    if history != [] {
      SetOrder(history[..|history| - 1]);
    }
  }

  /** The listeners told between position `lo` and `hi`. */
  function Told<T>(history: seq<Event<T>>, lo: nat, hi: nat): seq<nat>
    requires lo <= hi <= |history|
    decreases hi
  {
    if lo == hi then []
    else Told(history, lo, hi - 1) + ToldBy(history[hi - 1])
  }

  function ToldBy<T>(e: Event<T>): seq<nat> { if e.Notified? then [e.id] else [] }

  /** Inside a delivery, an event other than its end keeps it going and tells its next listener or none. */
  lemma WithinStep<T>(m: Monitor<T>, e: Event<T>)
    requires m.delivery.Delivering? && Observe(m, e).Some? && !e.DeliveryEnds?
    ensures !e.DeliveryBegins? && (e.Notified? ==> e.value == m.delivery.value)
    ensures var d := Observe(m, e).value.delivery;
      d.Delivering? && d.value == m.delivery.value && ToldBy(e) + d.remaining == m.delivery.remaining
  {
  }

  lemma WithinStart<T>(m: Monitor<T>, e: Event<T>)
    requires Observe(m, e).Some? && e.DeliveryBegins?
    ensures Observe(m, e).value.delivery == Delivering(e.value, m.registered)
  {
  }

  /** The monitor after a prefix is one observation away from the monitor before its last event. */
  lemma WatchTake<T>(history: seq<Event<T>>, hi: nat)
    requires Watch(history).Some? && 0 < hi <= |history|
    ensures Watch(history[..hi - 1]).Some? && Watch(history[..hi]).Some?
    ensures Watch(history[..hi]) == Observe(Watch(history[..hi - 1]).value, history[hi - 1])
  {
    WatchPrefix(history, hi);
    WatchPrefix(history, hi - 1);
    assert history[..hi][..hi - 1] == history[..hi - 1];
  }

  /** While the delivery begun at `lo` lasts, its recipients are a prefix of the listeners registered at
      `lo`, each told the delivered value; no other delivery begins inside it. */
  lemma {:induction false} WithinDelivery<T>(history: seq<Event<T>>, lo: nat, hi: nat)
    requires Watch(history).Some? && lo < hi <= |history| && history[lo].DeliveryBegins?
    requires forall k :: lo < k < hi ==> !history[k].DeliveryEnds?
    ensures Watch(history[..lo]).Some? && Watch(history[..hi]).Some?
    ensures var m := Watch(history[..hi]).value;
      && m.delivery.Delivering? && m.delivery.value == history[lo].value
      && Told(history, lo, hi) + m.delivery.remaining == Watch(history[..lo]).value.registered
    ensures forall k :: lo < k < hi ==> !history[k].DeliveryBegins?
    ensures forall k :: lo < k < hi && history[k].Notified? ==> history[k].value == history[lo].value
    decreases hi
  {
    hide Watch, Observe;
    WatchTake(history, hi);
    var e := history[hi - 1];
    if hi == lo + 1 {
      WithinStart(Watch(history[..lo]).value, e);
      assert Told(history, lo, lo) == [];
    } else {
      WithinDelivery(history, lo, hi - 1);
      WithinStep(Watch(history[..hi - 1]).value, e);
    }
  }

  lemma EndsWithNoneLeft<T>(m: Monitor<T>, e: Event<T>)
    requires m.delivery.Delivering? && Observe(m, e).Some? && e.DeliveryEnds?
    ensures m.delivery.remaining == []
  {
  }

  /** A finished delivery reached exactly the listeners registered when it began, once each, in order. */
  lemma {:induction false} ReachesExactlyTheRegistered<T>(history: seq<Event<T>>, lo: nat, hi: nat)
    requires Watch(history).Some? && lo < hi < |history|
    requires history[lo].DeliveryBegins? && history[hi].DeliveryEnds?
    requires forall k :: lo < k < hi ==> !history[k].DeliveryEnds?
    ensures Watch(history[..lo]).Some? && Told(history, lo, hi) == Watch(history[..lo]).value.registered
    ensures forall i, j :: 0 <= i < j < |Told(history, lo, hi)| ==> Told(history, lo, hi)[i] != Told(history, lo, hi)[j]
  {
    hide *;
    WithinDelivery(history, lo, hi);
    WatchTake(history, hi + 1);
    EndsWithNoneLeft(Watch(history[..hi]).value, history[hi]);
    RegisteredDistinct(history[..lo]);
  }

  lemma {:induction false} NotEmpty<T>(before: seq<Event<T>>, next: T, history: seq<Event<T>>)
    requires before + [SetCalled(next)] <= history
    ensures SetValues(history) != []
  {
    if |history| > |before| + 1 {
      NotEmpty(before, next, history[..|history| - 1]);
    }
  }

  lemma {:induction false} WithoutDistinct(ids: seq<nat>, id: nat)
    requires forall i, j :: 0 <= i < j < |ids| ==> ids[i] != ids[j]
    ensures forall i, j :: 0 <= i < j < |Without(ids, id)| ==> Without(ids, id)[i] != Without(ids, id)[j]
  {
    if ids != [] {
      WithoutDistinct(ids[..|ids| - 1], id);
      assert ids[|ids| - 1] !in ids[..|ids| - 1];
      var kept := Without(ids[..|ids| - 1], id);
      assert forall i :: 0 <= i < |kept| ==> kept[i] in kept;
    }
  }

  lemma {:induction false} RegisteredDistinct<T>(history: seq<Event<T>>)
    requires Watch(history).Some?
    ensures var ids := Watch(history).value.registered; forall i, j :: 0 <= i < j < |ids| ==> ids[i] != ids[j]
  {
    if history != [] {
      RegisteredDistinct(history[..|history| - 1]);
      if history[|history| - 1].Unsubscribed? {
        WithoutDistinct(Watch(history[..|history| - 1]).value.registered, history[|history| - 1].id);
      }
    }
  }

  lemma SetObserved<T>(m: Monitor<T>, next: T)
    ensures Observe(m, SetCalled(next)) == Some(m.(pending := m.pending + [next]))
    ensures DeliveredBy(SetCalled(next)) == []
  {
  }

  lemma NoThrowYet<T>(history: seq<Event<T>>)
    ensures FirstThrow(history, |history|) == None
  {
  }

  // ----- the store itself -----

  datatype Action<+T> = Set(value: T) | Subscribe | Unsubscribe(id: nat)

  /** What one listener call does: some calls back into the store, then possibly a throw. */
  datatype Turn<+T> = Turn(actions: seq<Action<T>>, ending: Ending)

  /** A thrown `null` has no reason. */
  datatype Ending = Returns | Throws(reason: Option<int>)

  function NestedSets<T>(actions: seq<Action<T>>): nat {
    if actions == [] then 0 else (if actions[0].Set? then 1 else 0) + NestedSets(actions[1..])
  }

  function ScriptedSets<T>(script: seq<Turn<T>>): nat {
    if script == [] then 0 else NestedSets(script[0].actions) + ScriptedSets(script[1..])
  }

  class Store<T(==)> {
    var value: T
    var nextId: nat
    var dispatching: bool
    /** Registered listener ids, in the insertion order a `Map` iterates in. */
    var listeners: seq<nat>
    var queue: seq<T>
    /** The environment: what the next listener calls will do; afterwards listeners do nothing. */
    var script: seq<Turn<T>>
    ghost var history: seq<Event<T>>
    /** What `history` amounts to so far, and its first throw since the outermost `set` began. */
    ghost var monitor: Monitor<T>
    ghost var delivered: seq<T>
    ghost var since: nat
    ghost var thrown: Option<int>

    ghost predicate Faithful()
      reads this`history, this`monitor, this`delivered, this`since, this`thrown
    {
      && Watch(history) == Some(monitor)
      && DeliveredValues(history) == delivered
      && since <= |history| && FirstThrow(history, since) == thrown
    }

    ghost predicate Valid()
      reads this
    {
      && Faithful()
      && monitor.registered == listeners
      && monitor.pending == queue
      && (monitor.delivery.Idle? || dispatching)
      && (forall id :: id in listeners ==> id < nextId)
      && (delivered != [] ==> value == delivered[|delivered| - 1])
    }

    constructor (initial: T, script: seq<Turn<T>>)
      ensures Valid() && !dispatching && queue == []
      ensures value == initial && history == [] && this.script == script
    {
      value, nextId, dispatching, listeners, queue, history := initial, 0, false, [], [], [];
      this.script := script;
      monitor, delivered, since, thrown := Monitor([], [], Idle), [], 0, None;
    }

    ghost method Record(e: Event<T>)
      requires Faithful() && Observe(monitor, e).Some?
      modifies this`history, this`monitor, this`delivered, this`thrown
      ensures Faithful() && history == old(history) + [e]
      ensures monitor == Observe(old(monitor), e).value
      ensures delivered == old(delivered) + DeliveredBy(e)
      ensures thrown == if old(thrown).None? && e.Threw? then e.reason else old(thrown)
    {
      assert (history + [e])[..|history|] == history;
      history := history + [e];
      monitor := Observe(monitor, e).value;
      delivered := delivered + DeliveredBy(e);
      thrown := if thrown.None? && e.Threw? then e.reason else thrown;
    }

    method Add() returns (id: nat)
      requires Valid()
      modifies this`nextId, this`listeners, this`history, this`monitor, this`delivered, this`thrown
      ensures Valid() && id == old(nextId) && id !in old(listeners) && listeners == old(listeners) + [id]
      ensures history == old(history) + [Subscribed(id)]
      ensures monitor.delivery == old(monitor.delivery) && delivered == old(delivered) && thrown == old(thrown)
    {
      id := nextId;
      nextId := nextId + 1;
      listeners := listeners + [id];
      Record(Subscribed(id));
    }

    /** The closure `subscribe` returned for `id`; calling it again changes nothing. */
    method Remove(id: nat)
      requires Valid()
      modifies this`listeners, this`history, this`monitor, this`delivered, this`thrown
      ensures Valid() && listeners == Without(old(listeners), id)
      ensures history == old(history) + [Unsubscribed(id)]
      ensures monitor.delivery == old(monitor.delivery) && delivered == old(delivered) && thrown == old(thrown)
    {
      listeners := Without(listeners, id);
      Record(Unsubscribed(id));
    }

    /** `set`: enqueue, and unless a `set` further out is already delivering, deliver until the queue is
        empty. The result is the first error a listener threw, which the outermost call rethrows. */
    method Set(next: T) returns (error: Option<int>)
      requires Valid() && (!dispatching ==> queue == [])
      modifies this
      decreases if dispatching then 0 else 5
      ensures Valid() && old(history) + [SetCalled(next)] <= history
      ensures old(dispatching) ==>
        && error.None? && dispatching && value == old(value) && queue == old(queue) + [next]
        && script == old(script) && since == old(since) && thrown == old(thrown) && delivered == old(delivered)
        && history == old(history) + [SetCalled(next)] && monitor.delivery == old(monitor.delivery)
      ensures !old(dispatching) ==>
        && !dispatching && queue == []
        && DeliveredValues(history) == SetValues(history)
        && SetValues(history) != [] && value == SetValues(history)[|SetValues(history)| - 1]
        && error == FirstThrow(history, |old(history)|)
    {
      SetObserved(monitor, next);
      NoThrowYet(history);
      hide Watch, Observe, FirstThrow, DeliveredValues, DeliveredBy, SetValues;
      error := None;
      if !dispatching {
        since, thrown := |history|, None;
      }
      queue := queue + [next];
      Record(SetCalled(next));
      if dispatching {
        return;
      }
      error := Drain();
      NotEmpty(old(history), next, history);
    }

    /** The delivery loop of the outermost `set`. */
    method Drain() returns (error: Option<int>)
      requires Valid() && !dispatching && thrown.None?
      modifies this
      decreases 4, 1
      ensures Valid() && !dispatching && queue == [] && since == old(since)
      ensures old(history) <= history && error == thrown
      ensures DeliveredValues(history) == SetValues(history)
    {
      dispatching, error := true, None;
      while queue != []
        invariant Valid() && dispatching && monitor.delivery.Idle?
        invariant old(history) <= history && error == thrown && since == old(since)
        decreases ScriptedSets(script) + |queue|
      {
        error := Deliver(error);
      }
      dispatching := false;
      SetOrder(history);
      assert SetValues(history) == DeliveredValues(history) + [];
    }

    /** Deliver the oldest queued value to a snapshot of the listeners. */
    method Deliver(firstError: Option<int>) returns (error: Option<int>)
      requires Valid() && dispatching && monitor.delivery.Idle? && queue != [] && firstError == thrown
      modifies this
      decreases 4, 0
      ensures Valid() && dispatching && monitor.delivery.Idle? && since == old(since)
      ensures old(history) <= history && error == thrown
      ensures ScriptedSets(script) + |queue| < old(ScriptedSets(script) + |queue|)
    {
      hide Watch, DeliveredValues, FirstThrow;
      Record(DeliveryBegins(queue[0]));
      value, queue := queue[0], queue[1..];
      error := NotifyAll(listeners, firstError);
      Record(DeliveryEnds);
    }

    /** Call each listener of the snapshot; one that throws does not stop the others. */
    method NotifyAll(snapshot: seq<nat>, firstError: Option<int>) returns (error: Option<int>)
      requires Valid() && dispatching && monitor.delivery == Delivering(value, snapshot) && firstError == thrown
      modifies this
      decreases 3
      ensures Valid() && dispatching && monitor.delivery == Delivering(value, []) && since == old(since)
      ensures old(history) <= history && error == thrown
      ensures ScriptedSets(script) + |queue| == old(ScriptedSets(script) + |queue|)
    {
      hide Watch, DeliveredValues, FirstThrow;
      error := firstError;
      for i := 0 to |snapshot|
        invariant Valid() && dispatching && monitor.delivery == Delivering(value, snapshot[i..])
        invariant since == old(since) && old(history) <= history && error == thrown
        invariant ScriptedSets(script) + |queue| == old(ScriptedSets(script) + |queue|)
      {
        var ending := Call(snapshot[i]);
        if ending.Throws? && error.None? {
          error := ending.reason;
        }
      }
    }

    /** One call of listener `id` with the current value. */
    method Call(id: nat) returns (ending: Ending)
      requires Valid() && dispatching
      requires monitor.delivery.Delivering? && monitor.delivery.value == value
      requires monitor.delivery.remaining != [] && monitor.delivery.remaining[0] == id
      modifies this
      decreases 2
      ensures Valid() && dispatching && value == old(value) && since == old(since)
      ensures monitor.delivery == Delivering(value, old(monitor.delivery.remaining)[1..])
      ensures old(history) <= history
      ensures ScriptedSets(script) + |queue| == old(ScriptedSets(script) + |queue|)
      ensures thrown == if old(thrown).None? && ending.Throws? then ending.reason else old(thrown)
    {
      hide Watch, DeliveredValues, FirstThrow;
      Record(Notified(id, value));
      ending := Returns;
      if script == [] {
        return;
      }
      var turn := script[0];
      script := script[1..];
      ending := turn.ending;
      var todo := turn.actions;
      while todo != []
        invariant Valid() && dispatching && value == old(value) && since == old(since)
        invariant monitor.delivery == Delivering(value, old(monitor.delivery.remaining)[1..])
        invariant old(history) <= history && thrown == old(thrown)
        invariant ScriptedSets(script) + NestedSets(todo) + |queue| == old(ScriptedSets(script) + |queue|)
        decreases |todo|
      {
        Act(todo[0]);
        todo := todo[1..];
      }
      if ending.Throws? {
        Record(Threw(ending.reason));
      }
    }

    /** One call a listener makes back into the store. */
    method Act(action: Action<T>)
      requires Valid() && dispatching
      modifies this
      decreases 1
      ensures Valid() && dispatching && value == old(value) && script == old(script) && since == old(since)
      ensures monitor.delivery == old(monitor.delivery) && thrown == old(thrown) && old(history) <= history
      ensures |queue| == |old(queue)| + (if action.Set? then 1 else 0)
    {
      hide Watch, DeliveredValues, FirstThrow;
      match action {
        case Set(v) => var _ := Set(v);
        case Subscribe => var _ := Add();
        case Unsubscribe(id) => Remove(id);
      }
    }
  }
}
