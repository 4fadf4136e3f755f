/** The seeded generator and the shuffle of src/evaluation/smoke.ts. */
module Shuffling {
  const INCREMENT: bv32 := 0x6d2b79f5

  /** `mulberry32` applied to an already advanced state; multiplication wraps as `Math.imul` does. */
  function Mix(state: bv32): bv32 {
    var a: bv32 := (state ^ (state >> 15)) * (state | 1);
    var b: bv32 := a ^ (a + (a ^ (a >> 7)) * (a | 61));
    b ^ (b >> 14)
  }

  function StateAfter(state: bv32, draws: nat): bv32 {
    if draws == 0 then state else StateAfter(state, draws - 1) + INCREMENT
  }

  function Numerator(draw: bv32): (n: nat)
    ensures n < 0x1_0000_0000
  {
    draw as nat
  }

  /** `Math.floor(random() * bound)`, where the draw is a fraction over 2^32. */
  function Scaled(numerator: nat, bound: nat): nat {
    (numerator * bound) / 0x1_0000_0000
  }

  lemma ScaledBelow(numerator: nat, bound: nat)
    requires numerator < 0x1_0000_0000 && bound > 0
    ensures Scaled(numerator, bound) < bound
  {
    assert numerator * bound < 0x1_0000_0000 * bound;
  }

  /** The closure `mulberry32(seed)` returns; it keeps one 32-bit word. */
  class Mulberry32 {
    ghost const seed: bv32
    ghost var drawn: nat
    var state: bv32

    ghost predicate Valid()
      reads this
    {
      state == StateAfter(seed, drawn)
    }

    constructor (seed: bv32)
      ensures Valid() && this.seed == seed && drawn == 0
    {
      this.seed, state := seed, seed;
      drawn := 0;
    }

    /** One draw, as the numerator over 2^32. */
    method Next() returns (draw: bv32)
      requires Valid()
      modifies this
      ensures Valid() && drawn == old(drawn) + 1 && draw == Mix(StateAfter(seed, drawn))
    {
      state := state + INCREMENT;
      drawn := drawn + 1;
      draw := Mix(state);
    }
  }

  /** The `k`-th draw of a generator in `state`. */
  function DrawAt(state: bv32, k: nat): (n: nat)
    ensures n < 0x1_0000_0000
    decreases k
  {
    if k > 0 then DrawAt(state + INCREMENT, k - 1) else Numerator(Mix(state + INCREMENT))
  }

  lemma {:induction false} StateAfterFirst(state: bv32, draws: nat)
    ensures StateAfter(state, draws + 1) == StateAfter(state + INCREMENT, draws)
  {
    if draws > 0 {
      StateAfterFirst(state, draws - 1);
    }
  }

  /** The `k`-th draw is the one the closure makes from its `k + 1`-th state. */
  lemma {:induction false} DrawOfClosure(state: bv32, k: nat)
    ensures DrawAt(state, k) == Numerator(Mix(StateAfter(state, k + 1)))
    decreases k
  {
    StateAfterFirst(state, k);
    if k > 0 {
      DrawOfClosure(state + INCREMENT, k - 1);
    } else {
      assert StateAfter(state, 1) == state + INCREMENT;
    }
  }

  /** A source of randomness: its `k`-th draw, turned into a position below a bound. */
  type Stream = (nat, nat) -> nat

  ghost predicate InRange(stream: Stream) {
    forall k, bound :: bound > 0 ==> stream(k, bound) < bound
  }

  function MulberryStream(seed: bv32): Stream {
    (k: nat, bound: nat) => Scaled(DrawAt(seed, k), bound)
  }

  lemma MulberryBelow(seed: bv32, k: nat, bound: nat)
    requires bound > 0
    ensures MulberryStream(seed)(k, bound) < bound
  {
    ScaledBelow(DrawAt(seed, k), bound);
  }

  lemma MulberryInRange(seed: bv32)
    ensures InRange(MulberryStream(seed))
  {
    forall k: nat, bound: nat | bound > 0 ensures MulberryStream(seed)(k, bound) < bound {
      MulberryBelow(seed, k, bound);
    }
  }

  /** The `random` argument of `shuffle`, which successive shuffles share. */
  class Random {
    const stream: Stream
    var drawn: nat

    constructor (stream: Stream)
      ensures this.stream == stream && drawn == 0
    {
      this.stream, drawn := stream, 0;
    }

    /** `Math.floor(random() * bound)`. */
    method Below(bound: nat) returns (position: nat)
      modifies this
      ensures drawn == old(drawn) + 1 && position == stream(old(drawn), bound)
    {
      position := stream(drawn, bound);
      drawn := drawn + 1;
    }
  }

  function Swap<T>(s: seq<T>, i: nat, j: nat): seq<T>
    requires i < |s| && j < |s|
  {
    s[i := s[j]][j := s[i]]
  }

  /** One pick for each position from `index` down to 1, each at most that position. */
  ghost predicate ArePicks(picks: seq<nat>, index: nat) {
    |picks| == index && forall k :: 0 <= k < index ==> picks[k] <= index - k
  }

  /** The picks for positions `index` down to 1 after `drawn` draws. */
  function Picks(stream: Stream, drawn: nat, index: nat): seq<nat>
    decreases index
  {
    if index == 0 then [] else [stream(drawn, index + 1)] + Picks(stream, drawn + 1, index - 1)
  }

  lemma {:induction false} PicksBounded(stream: Stream, drawn: nat, index: nat)
    requires InRange(stream)
    ensures ArePicks(Picks(stream, drawn, index), index)
    decreases index
  {
    if index > 0 {
      PicksBounded(stream, drawn + 1, index - 1);
    }
  }

  /** Swap position `index` with its pick, then the position below it, down to position 1. */
  function Shuffled<T>(s: seq<T>, picks: seq<nat>, index: nat): seq<T>
    requires index == 0 || index < |s|
    requires ArePicks(picks, index)
    decreases index
  {
    if index == 0 then s
    else
      assert forall k :: 0 <= k < index - 1 ==> picks[1..][k] == picks[k + 1];
      Shuffled(Swap(s, index, picks[0]), picks[1..], index - 1)
  }

  lemma SwapPermutes<T>(s: seq<T>, i: nat, j: nat)
    requires i < |s| && j < |s|
    ensures |Swap(s, i, j)| == |s| && multiset(Swap(s, i, j)) == multiset(s)
  {
  }

  lemma {:induction false} ShuffledPermutes<T>(s: seq<T>, picks: seq<nat>, index: nat)
    requires index == 0 || index < |s|
    requires ArePicks(picks, index)
    ensures |Shuffled(s, picks, index)| == |s|
    ensures multiset(Shuffled(s, picks, index)) == multiset(s)
    ensures forall i :: index < i < |s| ==> Shuffled(s, picks, index)[i] == s[i]
    decreases index
  {
    if index > 0 {
      SwapPermutes(s, index, picks[0]);
      ShuffledPermutes(Swap(s, index, picks[0]), picks[1..], index - 1);
    }
  }

  /** Nothing is unreachable: every order of the elements is the result of some picks. */
  lemma {:induction false} ReachesEveryOrder<T>(s: seq<T>, t: seq<T>, index: nat) returns (picks: seq<nat>)
    requires multiset(s) == multiset(t) && |s| == |t|
    requires index == 0 || index < |s|
    requires forall i :: index < i < |s| ==> s[i] == t[i]
    ensures ArePicks(picks, index)
    ensures Shuffled(s, picks, index) == t
    decreases index
  {
    PrefixesAgree(s, t, index);
    if index == 0 {
      picks := [];
      if |s| > 0 {
        OneLeft(s, t);
      }
    } else {
      var j := PickFor(s, t, index);
      SwapPermutes(s, index, j);
      var rest := ReachesEveryOrder(Swap(s, index, j), t, index - 1);
      picks := [j] + rest;
      assert picks[1..] == rest;
    }
  }

  lemma OneLeft<T>(s: seq<T>, t: seq<T>)
    requires |s| == |t| > 0 && multiset(s[..1]) == multiset(t[..1]) && forall i :: 0 < i < |s| ==> s[i] == t[i]
    ensures s == t
  {
    assert multiset(s[..1]) == multiset{s[0]} && multiset(t[..1]) == multiset{t[0]};
    assert s[0] in multiset(t[..1]);
  }

  lemma PickFor<T>(s: seq<T>, t: seq<T>, index: nat) returns (j: nat)
    requires index < |s| == |t| && multiset(s[..index + 1]) == multiset(t[..index + 1])
    ensures j <= index && s[j] == t[index]
  {
    assert t[index] == t[..index + 1][index];
    assert t[index] in multiset(s[..index + 1]);
    j :| j <= index && s[..index + 1][j] == t[index];
  }

  lemma PrefixesAgree<T>(s: seq<T>, t: seq<T>, index: nat)
    requires multiset(s) == multiset(t) && |s| == |t|
    requires index == 0 || index < |s|
    requires forall i :: index < i < |s| ==> s[i] == t[i]
    ensures |s| > 0 ==> multiset(s[..index + 1]) == multiset(t[..index + 1])
  {
    if |s| > 0 {
      assert s == s[..index + 1] + s[index + 1..] && t == t[..index + 1] + t[index + 1..];
      assert s[index + 1..] == t[index + 1..];
      assert multiset(s) == multiset(s[..index + 1]) + multiset(s[index + 1..]);
      assert multiset(t) == multiset(t[..index + 1]) + multiset(t[index + 1..]);
      assert multiset(s[..index + 1]) == multiset(s) - multiset(s[index + 1..]);
    }
  }

  function LastIndex(n: nat): nat { if n == 0 then 0 else n - 1 }

  /** What `shuffle(values, random)` returns after `drawn` earlier draws. */
  function ShuffleOf<T>(values: seq<T>, stream: Stream, drawn: nat): seq<T>
    requires InRange(stream)
  {
    PicksBounded(stream, drawn, LastIndex(|values|));
    Shuffled(values, Picks(stream, drawn, LastIndex(|values|)), LastIndex(|values|))
  }

  lemma ShuffleOfPermutes<T>(values: seq<T>, stream: Stream, drawn: nat)
    requires InRange(stream)
    ensures |ShuffleOf(values, stream, drawn)| == |values|
    ensures multiset(ShuffleOf(values, stream, drawn)) == multiset(values)
  {
    PicksBounded(stream, drawn, LastIndex(|values|));
    ShuffledPermutes(values, Picks(stream, drawn, LastIndex(|values|)), LastIndex(|values|));
  }

  lemma ShuffleStep<T>(s: seq<T>, stream: Stream, drawn: nat, index: nat)
    requires InRange(stream) && 0 < index < |s|
    ensures ArePicks(Picks(stream, drawn, index), index)
    ensures ArePicks(Picks(stream, drawn + 1, index - 1), index - 1)
    ensures stream(drawn, index + 1) <= index
    ensures Shuffled(s, Picks(stream, drawn, index), index) ==
      Shuffled(Swap(s, index, stream(drawn, index + 1)), Picks(stream, drawn + 1, index - 1), index - 1)
  {
    PicksBounded(stream, drawn, index);
    PicksBounded(stream, drawn + 1, index - 1);
    assert Picks(stream, drawn, index)[1..] == Picks(stream, drawn + 1, index - 1);
  }

  lemma ShuffledDone<T>(s: seq<T>)
    ensures Shuffled(s, [], 0) == s
  {
  }

  lemma NoPicks(stream: Stream, drawn: nat)
    ensures Picks(stream, drawn, 0) == []
  {
  }

  /** The loop of `shuffle` on its own copy of the values. */
  method Shuffle<T>(values: seq<T>, random: Random) returns (result: array<T>)
    requires InRange(random.stream)
    modifies random
    ensures fresh(result) && result[..] == ShuffleOf(values, random.stream, old(random.drawn))
    ensures random.drawn == old(random.drawn) + LastIndex(|values|)
  {
    hide InRange, ArePicks, Picks, Shuffled;
    PicksBounded(random.stream, random.drawn, LastIndex(|values|));
    result := new T[|values|](i requires 0 <= i < |values| => values[i]);
    assert result[..] == values;
    var index: nat := LastIndex(|values|);
    while index > 0
      invariant index <= LastIndex(result.Length) && result.Length == |values|
      invariant random.drawn + index == old(random.drawn) + LastIndex(|values|)
      invariant ArePicks(Picks(random.stream, random.drawn, index), index)
      invariant Shuffled(result[..], Picks(random.stream, random.drawn, index), index)
        == ShuffleOf(values, random.stream, old(random.drawn))
    {
      ShuffleStep(result[..], random.stream, random.drawn, index);
      ghost var before := result[..];
      var other := random.Below(index + 1);
      result[index], result[other] := result[other], result[index];
      assert result[..] == Swap(before, index, other);
      index := index - 1;
    }
    NoPicks(random.stream, random.drawn);
    ShuffledDone(result[..]);
  }

  /** A scaled draw is the integer part of the draw's fraction of the bound. */
  lemma ScaledFloor(numerator: nat, bound: nat)
    ensures Scaled(numerator, bound) * 0x1_0000_0000 <= numerator * bound
    ensures numerator * bound < (Scaled(numerator, bound) + 1) * 0x1_0000_0000
  {
  }

  /** Three values take two draws: the first says which comes last, the second which of the others is second. */
  lemma ShuffleOfThree<T>(values: seq<T>, stream: Stream, drawn: nat)
    requires InRange(stream) && |values| == 3
    ensures stream(drawn, 3) < 3 && stream(drawn + 1, 2) < 2
    ensures var first := values[stream(drawn, 3) := values[2]]; var second := stream(drawn + 1, 2);
      ShuffleOf(values, stream, drawn) == [first[1 - second], first[second], values[stream(drawn, 3)]]
  {
    var p, q := stream(drawn, 3), stream(drawn + 1, 2);
    ShuffleStep(values, stream, drawn, 2);
    var once := Swap(values, 2, p);
    assert q < 2;
    ShuffleStep(once, stream, drawn + 1, 1);
    NoPicks(stream, drawn + 2);
    ShuffledDone(Swap(once, 1, q));
  }
}
