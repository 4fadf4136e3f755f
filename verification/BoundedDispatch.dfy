/** The worker pool of evaluator/36-bounded-dispatch: workers share one `next` counter, run one
    item at a time and write each result into that item's own slot. */
module BoundedDispatch {
  import opened Wrappers

  /** `Fulfilled` and `Rejected` both fill a slot: a failing item never stops the others. */
  datatype Result<+T> = Fulfilled(value: T) | Rejected(reason: int)

  datatype Worker = NotStarted | Running(index: nat) | Returned

  datatype State<+T> = State(next: nat, workers: seq<Worker>, results: seq<Option<Result<T>>>)

  /** Worker `w` is entered, or the item it awaits completes. A synchronous throw is a completion
      with nothing in between. */
  datatype Event<+T> = Enter(w: nat) | Completes(w: nat, result: Result<T>)

  function Claim<T>(s: State<T>, w: nat): State<T>
    requires w < |s.workers|
  {
    s.(next := s.next + 1,
       workers := s.workers[w := if s.next < |s.results| then Running(s.next) else Returned])
  }

  predicate Enabled<T>(s: State<T>, e: Event<T>) {
    match e
    case Enter(w) => w < |s.workers| && s.workers[w].NotStarted?
    case Completes(w, _) => w < |s.workers| && s.workers[w].Running? && s.workers[w].index < |s.results|
  }

  function Step<T>(s: State<T>, e: Event<T>): State<T>
    requires Enabled(s, e)
  {
    match e
    case Enter(w) => Claim(s, w)
    case Completes(w, result) =>
      Claim(s.(results := s.results[s.workers[w].index := Some(result)]), w)
  }

  function Min(a: nat, b: nat): nat { if a < b then a else b }

  function Start<T>(items: nat, concurrency: nat): State<T> {
    State(0, seq(Min(concurrency, items), _ => NotStarted), seq(items, _ => None))
  }

  function After<T>(items: nat, concurrency: nat, es: seq<Event<T>>): Option<State<T>> {
    if es == [] then Some(Start(items, concurrency))
    else
      match After(items, concurrency, es[..|es| - 1])
      case None => None
      case Some(s) => if Enabled(s, es[|es| - 1]) then Some(Step(s, es[|es| - 1])) else None
  }

  /** Item `i` is in flight. */
  ghost predicate InFlight(workers: seq<Worker>, i: nat) {
    exists w :: 0 <= w < |workers| && workers[w] == Running(i)
  }

  /** Every claimed item is in flight in exactly one worker or has its result, never both. */
  ghost predicate Inv<T>(s: State<T>) {
    && (forall i: nat :: i < |s.results| ==>
          (s.results[i].Some? <==> i < s.next && !InFlight(s.workers, i)))
    && (forall w :: 0 <= w < |s.workers| && s.workers[w].Running? ==>
          s.workers[w].index < s.next && s.workers[w].index < |s.results|)
    && (forall v, w :: 0 <= v < w < |s.workers| && s.workers[v].Running? && s.workers[w].Running? ==>
          s.workers[v].index != s.workers[w].index)
    && (forall w :: 0 <= w < |s.workers| && s.workers[w].Returned? ==> |s.results| < s.next)
  }

  lemma StepInv<T>(s: State<T>, e: Event<T>)
    requires Inv(s) && Enabled(s, e)
    ensures Inv(Step(s, e))
  {
    var t := Step(s, e);
    var w := e.w;
    forall i: nat | i < |t.results|
      ensures t.results[i].Some? <==> i < t.next && !InFlight(t.workers, i)
    {
      if InFlight(s.workers, i) {
        var v :| 0 <= v < |s.workers| && s.workers[v] == Running(i);
        assert v != w ==> t.workers[v] == Running(i);
      }
      if i == s.next {
        assert t.workers[w] == Running(i);
      }
    }
  }

  /** How many entries satisfy nothing pending any more: entered workers, filled slots. */
  function Count<T>(done: T -> bool, s: seq<T>): (r: nat)
    ensures r <= |s|
  {
    if s == [] then 0 else Count(done, s[..|s| - 1]) + (if done(s[|s| - 1]) then 1 else 0)
  }

  lemma {:induction false} CountUpdate<T>(done: T -> bool, s: seq<T>, i: nat, x: T)
    requires i < |s|
    ensures Count(done, s[i := x]) == Count(done, s) - (if done(s[i]) then 1 else 0) + (if done(x) then 1 else 0)
  {
    var n := |s| - 1;
    if i == n {
      assert s[i := x][..n] == s[..n];
    } else {
      assert s[i := x][..n] == s[..n][i := x];
      CountUpdate(done, s[..n], i, x);
    }
  }

  lemma {:induction false} CountNone<T>(done: T -> bool, s: seq<T>)
    requires forall i :: 0 <= i < |s| ==> !done(s[i])
    ensures Count(done, s) == 0
  {
    if s != [] {
      CountNone(done, s[..|s| - 1]);
    }
  }

  const WAS_ENTERED: Worker -> bool := (w: Worker) => !w.NotStarted?

  function IsFilled<T>(): Option<Result<T>> -> bool {
    (slot: Option<Result<T>>) => slot.Some?
  }

  /** Results delivered for item `i`, in order. */
  function Completions<T>(items: nat, concurrency: nat, es: seq<Event<T>>, i: nat): seq<Result<T>>
    requires After(items, concurrency, es).Some?
  {
    if es == [] then []
    else
      var s, e := After(items, concurrency, es[..|es| - 1]).value, es[|es| - 1];
      Completions(items, concurrency, es[..|es| - 1], i)
        + (if e.Completes? && s.workers[e.w] == Running(i) then [e.result] else [])
  }

  lemma {:induction false} RunInv<T>(items: nat, concurrency: nat, es: seq<Event<T>>)
    requires After(items, concurrency, es).Some?
    ensures var s := After(items, concurrency, es).value;
      && Inv(s) && |s.results| == items && |s.workers| == Min(concurrency, items)
      && |es| == Count(WAS_ENTERED, s.workers) + Count(IsFilled<T>(), s.results)
  {
    if es == [] {
      CountNone(WAS_ENTERED, Start<T>(items, concurrency).workers);
      CountNone(IsFilled<T>(), Start<T>(items, concurrency).results);
    } else {
      var init, e := es[..|es| - 1], es[|es| - 1];
      RunInv(items, concurrency, init);
      var s := After(items, concurrency, init).value;
      StepInv(s, e);
      CountUpdate(WAS_ENTERED, s.workers, e.w, Step(s, e).workers[e.w]);
      if e.Completes? {
        CountUpdate(IsFilled<T>(), s.results, s.workers[e.w].index, Some(e.result));
      }
    }
  }

  /** Slot `i` holds the one result ever delivered for item `i`, or nothing was delivered yet. */
  lemma {:induction false} EachItemOnce<T>(items: nat, concurrency: nat, es: seq<Event<T>>, i: nat)
    requires After(items, concurrency, es).Some? && i < items
    ensures |After(items, concurrency, es).value.results| == items
    ensures Completions(items, concurrency, es, i) ==
      match After(items, concurrency, es).value.results[i] case None => [] case Some(r) => [r]
  {
    RunInv(items, concurrency, es);
    if es != [] {
      var init, e := es[..|es| - 1], es[|es| - 1];
      EachItemOnce(items, concurrency, init, i);
      RunInv(items, concurrency, init);
      var s := After(items, concurrency, init).value;
      if e.Completes? && s.workers[e.w] == Running(i) {
        assert InFlight(s.workers, i);
      }
    }
  }

  /** The call returns when every worker has: then every item has run exactly once and fills its slot.
      Until then an event is possible, and there are at most one per worker and one per item. */
  lemma Completion<T>(items: nat, concurrency: nat, es: seq<Event<T>>)
    requires 0 < concurrency && After(items, concurrency, es).Some?
    ensures var s := After(items, concurrency, es).value;
      && |es| <= Min(concurrency, items) + items
      && ((forall w :: 0 <= w < |s.workers| ==> s.workers[w].Returned?) ==>
            forall i :: 0 <= i < items ==>
              && |s.results| == items && s.results[i].Some?
              && Completions(items, concurrency, es, i) == [s.results[i].value])
      && ((exists w :: 0 <= w < |s.workers| && !s.workers[w].Returned?) ==>
            exists w: nat, r: int :: Enabled<T>(s, Enter(w)) || Enabled<T>(s, Completes(w, Rejected(r))))
  {
    var s := After(items, concurrency, es).value;
    RunInv(items, concurrency, es);
    if forall w :: 0 <= w < |s.workers| ==> s.workers[w].Returned? {
      forall i: nat | i < items
        ensures s.results[i].Some? && Completions(items, concurrency, es, i) == [s.results[i].value]
      {
        assert s.workers[0].Returned?;
        EachItemOnce(items, concurrency, es, i);
      }
    } else {
      var w: nat :| w < |s.workers| && !s.workers[w].Returned?;
      assert Enabled<T>(s, Enter(w)) || Enabled<T>(s, Completes(w, Rejected(0)));
    }
  }

  // ----- the function itself -----

  /** The variables `dispatch` shares between its workers. */
  class Pool<T> {
    const results: array<Option<Result<T>>>
    var next: nat
    var workers: seq<Worker>

    ghost function Model(): State<T>
      reads this, results
    {
      State(next, workers, results[..])
    }

    constructor (items: nat, concurrency: nat)
      ensures fresh(results)
      ensures Model() == Start(items, concurrency)
    {
      results := new Option<Result<T>>[items](_ => None);
      next, workers := 0, seq(Min(concurrency, items), _ => NotStarted);
    }

    /** `next++`, then either run that item or return. */
    method ClaimNext(w: nat) returns (index: nat)
      requires w < |workers|
      modifies this
      ensures index == old(next)
      ensures Model() == Claim(old(Model()), w)
    {
      index := next;
      next := next + 1;
      workers := workers[w := if index < results.Length then Running(index) else Returned];
    }

    method EnterWorker(w: nat)
      requires Enabled(Model(), Enter(w))
      modifies this
      ensures Model() == Step(old(Model()), Enter(w))
    {
      var _ := ClaimNext(w);
    }

    /** Resume worker `w` after its awaited item: fill the item's slot and claim the next one. */
    method Resume(w: nat, result: Result<T>)
      requires Enabled(Model(), Completes(w, result))
      modifies this, results
      ensures Model() == Step(old(Model()), Completes(w, result))
    {
      results[workers[w].index] := Some(result);
      var _ := ClaimNext(w);
    }
  }
}
