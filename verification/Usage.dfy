/** Token accounting of src/artifacts/usage.ts: normalised provider usage, the ledger of provider
    calls, its summaries per role, and what they cost. */
module Usage {
  import opened Ordering
  import opened Wrappers

  const MAX_SAFE_INTEGER: int := 9007199254740991

  /** What the provider reported; an undefined reasoning count is `None`. */
  datatype Reported = Reported(
    input: int, output: int, cacheRead: int, cacheWrite: int, reasoning: Option<int>, total: int)

  datatype UsageError = NotASafeInteger | CategoryTotalMismatch | ReasoningExceedsOutput

  datatype Tokens = Tokens(input: nat, output: nat, cacheRead: nat, cacheWrite: nat, total: nat)

  datatype Normalized = Normalized(tokens: Tokens, reasoning: Option<nat>)

  predicate SafeCount(n: int) { 0 <= n <= MAX_SAFE_INTEGER }

  /** The four categories are exclusive and make up the total. */
  predicate FourCategories(t: Tokens) { t.total == t.input + t.output + t.cacheRead + t.cacheWrite }

  function Normalize(u: Reported): (r: Result<Normalized, UsageError>)
    ensures r.Ok? ==> FourCategories(r.result.tokens)
    ensures r.Ok? && r.result.reasoning.Some? ==> r.result.reasoning.value <= r.result.tokens.output
  {
    if !(SafeCount(u.input) && SafeCount(u.output) && SafeCount(u.cacheRead) && SafeCount(u.cacheWrite)
      && (u.reasoning.Some? ==> SafeCount(u.reasoning.value)) && SafeCount(u.total)) then Err(NotASafeInteger)
    else if u.input + u.output + u.cacheRead + u.cacheWrite != u.total then Err(CategoryTotalMismatch)
    else if u.reasoning.Some? && u.reasoning.value > u.output then Err(ReasoningExceedsOutput)
    else Ok(Normalized(Tokens(u.input, u.output, u.cacheRead, u.cacheWrite, u.total),
                       if u.reasoning.Some? then Some(u.reasoning.value) else None))
  }

  /** A report whose counts are safe integers, whose categories make up its total, and whose reasoning is part
      of its output. */
  predicate SoundReport(u: Reported) {
    && 0 <= u.input < 0x20_0000_0000_0000 && 0 <= u.output < 0x20_0000_0000_0000
    && 0 <= u.cacheRead < 0x20_0000_0000_0000 && 0 <= u.cacheWrite < 0x20_0000_0000_0000
    && 0 <= u.total < 0x20_0000_0000_0000 && u.input + u.output + u.cacheRead + u.cacheWrite == u.total
    && (u.reasoning.Some? ==> 0 <= u.reasoning.value <= u.output)
  }

  /** Exactly the sound reports are accepted, and nothing in them is changed or lost. */
  lemma NormalizeIff(u: Reported)
    ensures Normalize(u).Ok? <==> SoundReport(u)
    ensures Normalize(u).Ok? ==> var n := Normalize(u).result;
      && n.tokens.input == u.input && n.tokens.output == u.output && n.tokens.cacheRead == u.cacheRead
      && n.tokens.cacheWrite == u.cacheWrite && n.tokens.total == u.total
      && n.reasoning.Some? == u.reasoning.Some? && (u.reasoning.Some? ==> n.reasoning.value == u.reasoning.value)
  {
  }

  // ----- the ledger -----

  datatype Role = Classifier | Coding | Compaction

  /** One recorded provider call; a dispatched call without usage has `usage.None?`. */
  datatype Call = Call(id: string, role: Role, usage: Option<Normalized>, complete: bool)

  datatype RecordError = EmptyId | ConflictingDuplicate

  predicate Holds(calls: seq<Call>, id: string) { exists i :: 0 <= i < |calls| && calls[i].id == id }

  /** The calls of a ledger in insertion order, at most one per id. */
  ghost predicate DistinctIds(calls: seq<Call>) {
    forall i, j :: 0 <= i < j < |calls| ==> calls[i].id != calls[j].id
  }

  /** The first delivery of an id is kept; every later one, and one without id, leaves the ledger alone. */
  function Deliver(calls: seq<Call>, c: Call): seq<Call> {
    if c.id == "" || Holds(calls, c.id) then calls else calls + [c]
  }

  function After(deliveries: seq<Call>): seq<Call> {
    if deliveries == [] then [] else Deliver(After(deliveries[..|deliveries| - 1]), deliveries[|deliveries| - 1])
  }

  class UsageLedger {
    var calls: seq<Call>

    ghost predicate Valid() reads this { DistinctIds(calls) && forall c :: c in calls ==> c.id != "" }

    constructor ()
      ensures Valid() && calls == After([])
    {
      calls := [];
    }

    /** True for a new call, false for a repeated delivery of the same one. */
    method Record(c: Call) returns (r: Result<bool, RecordError>)
      requires Valid()
      modifies this
      ensures Valid() && calls == Deliver(old(calls), c)
      ensures r == Err(EmptyId) <==> c.id == ""
      ensures r == Ok(true) <==> c in calls && c !in old(calls)
      ensures r == Ok(false) <==> c in old(calls)
      ensures r == Err(ConflictingDuplicate) <==> c.id != "" && c !in calls
    {
      if c.id == "" {
        return Err(EmptyId);
      }
      var i := 0;
      while i < |calls| && calls[i].id != c.id
        invariant 0 <= i <= |calls|
        invariant forall k :: 0 <= k < i ==> calls[k].id != c.id
      {
        i := i + 1;
      }
      if i < |calls| {
        r := if calls[i] != c then Err(ConflictingDuplicate) else Ok(false);
      } else {
        calls := calls + [c];
        r := Ok(true);
        assert c == calls[|calls| - 1];
      }
    }
  }

  // ----- summaries -----

  datatype Status = Complete | Partial | Unknown

  /** The four token fields and the total are null together. */
  datatype Summary = Summary(
    status: Status, observedCalls: nat, missingCalls: nat, tokens: Option<Tokens>, reasoning: Option<nat>)

  const OBSERVED: Call -> bool := (c: Call) => c.usage.Some?
  const UNCONFIRMED: Call -> bool := (c: Call) => c.usage.Some? && !c.complete
  const NO_REASONING: Call -> bool := (c: Call) => c.usage.Some? && c.usage.value.reasoning.None?

  function Total(f: Call -> nat, s: seq<Call>): nat {
    if s == [] then 0 else Total(f, s[..|s| - 1]) + f(s[|s| - 1])
  }

  const INPUT: Call -> nat := (c: Call) => if c.usage.Some? then c.usage.value.tokens.input else 0
  const OUTPUT: Call -> nat := (c: Call) => if c.usage.Some? then c.usage.value.tokens.output else 0
  const CACHE_READ: Call -> nat := (c: Call) => if c.usage.Some? then c.usage.value.tokens.cacheRead else 0
  const CACHE_WRITE: Call -> nat := (c: Call) => if c.usage.Some? then c.usage.value.tokens.cacheWrite else 0
  const ALL_TOKENS: Call -> nat := (c: Call) => if c.usage.Some? then c.usage.value.tokens.total else 0
  const REASONING: Call -> nat :=
    (c: Call) => if c.usage.Some? && c.usage.value.reasoning.Some? then c.usage.value.reasoning.value else 0

  function TokenTotals(s: seq<Call>): Tokens {
    Tokens(Total(INPUT, s), Total(OUTPUT, s), Total(CACHE_READ, s), Total(CACHE_WRITE, s), Total(ALL_TOKENS, s))
  }

  function Summarize(records: seq<Call>): Summary {
    if records == [] then Summary(Complete, 0, 0, Some(Tokens(0, 0, 0, 0, 0)), Some(0))
    else
      var observed := Filter(OBSERVED, records);
      var incomplete := Filter(UNCONFIRMED, records);
      FilterShorter(OBSERVED, records);
      var missing: nat := |records| - |observed|;
      if observed == [] then Summary(Unknown, 0, missing, None, None)
      else
        var status := if missing == 0 && incomplete == [] then Complete else Partial;
        Summary(status, |observed|, missing, Some(TokenTotals(observed)),
                if Filter(NO_REASONING, observed) == [] then Some(Total(REASONING, observed)) else None)
  }

  function InRoles(roles: set<Role>): Call -> bool { (c: Call) => c.role in roles }

  /** `summaryForRoles`; `summaries()` takes each single role, and all calls for the total. */
  function SummaryFor(roles: set<Role>, calls: seq<Call>): Summary { Summarize(Filter(InRoles(roles), calls)) }

  // ----- summaries do not depend on the order of delivery, nor on repetition -----

  lemma {:induction false} TotalConcat(f: Call -> nat, s: seq<Call>, t: seq<Call>)
    ensures Total(f, s + t) == Total(f, s) + Total(f, t)
  {
    if t == [] {
      assert s + t == s;
    } else {
      assert (s + t)[..|s + t| - 1] == s + t[..|t| - 1];
      TotalConcat(f, s, t[..|t| - 1]);
    }
  }

  /** Take one occurrence of `x` out of a sequence. */
  lemma Without(f: Call -> nat, t: seq<Call>, x: Call) returns (rest: seq<Call>)
    requires x in t
    ensures multiset(t) == multiset(rest) + multiset{x}
    ensures Total(f, t) == Total(f, rest) + f(x)
  {
    var k :| 0 <= k < |t| && t[k] == x;
    var a, b := t[..k], t[k + 1..];
    rest := a + b;
    assert t == a + [x] + b;
    TotalConcat(f, a + [x], b);
    TotalSnoc(f, a, x);
    TotalConcat(f, a, b);
  }

  lemma {:induction false} TotalPermuted(f: Call -> nat, s: seq<Call>, t: seq<Call>)
    requires multiset(s) == multiset(t)
    ensures Total(f, s) == Total(f, t)
  {
    SameMembers(s, t);
    if s != [] {
      var init, x := s[..|s| - 1], s[|s| - 1];
      assert s == init + [x];
      assert x in s && x in t;
      var rest := Without(f, t, x);
      assert multiset(init) == multiset(s) - multiset{x};
      TotalPermuted(f, init, rest);
    }
  }

  lemma SummarizePermuted(s: seq<Call>, t: seq<Call>)
    requires multiset(s) == multiset(t)
    ensures Summarize(s) == Summarize(t)
  {
    SameMembers(s, t);
    var a, b := Filter(OBSERVED, s), Filter(OBSERVED, t);
    SameSelection(OBSERVED, s, t);
    SameSelection(UNCONFIRMED, s, t);
    SameSelection(NO_REASONING, a, b);
    TotalPermuted(INPUT, a, b);
    TotalPermuted(OUTPUT, a, b);
    TotalPermuted(CACHE_READ, a, b);
    TotalPermuted(CACHE_WRITE, a, b);
    TotalPermuted(ALL_TOKENS, a, b);
    TotalPermuted(REASONING, a, b);
    hide Filter, Total;
  }

  lemma SameSelection(keep: Call -> bool, s: seq<Call>, t: seq<Call>)
    requires multiset(s) == multiset(t)
    ensures multiset(Filter(keep, s)) == multiset(Filter(keep, t)) && |Filter(keep, s)| == |Filter(keep, t)|
  {
    FilterPermuted(keep, s, t);
    SameMembers(Filter(keep, s), Filter(keep, t));
  }

  /** No id was delivered with two different contents. */
  ghost predicate Consistent(deliveries: seq<Call>) {
    forall c, d :: c in deliveries && d in deliveries && c.id == d.id ==> c == d
  }

  lemma {:induction false} AfterHolds(deliveries: seq<Call>)
    requires Consistent(deliveries)
    ensures DistinctIds(After(deliveries))
    ensures forall c :: c in After(deliveries) <==> c in deliveries && c.id != ""
  {
    if deliveries != [] {
      var init, last := deliveries[..|deliveries| - 1], deliveries[|deliveries| - 1];
      assert deliveries == init + [last];
      assert forall c :: c in init ==> c in deliveries;
      AfterHolds(init);
      if Holds(After(init), last.id) {
        var i :| 0 <= i < |After(init)| && After(init)[i].id == last.id;
        assert After(init)[i] in After(init);
        assert After(init)[i] == last;
      }
    }
  }

  lemma DistinctCount(calls: seq<Call>, c: Call)
    requires DistinctIds(calls)
    ensures multiset(calls)[c] == if c in calls then 1 else 0
    decreases |calls|
  {
    if calls != [] {
      var init, last := calls[..|calls| - 1], calls[|calls| - 1];
      assert calls == init + [last];
      DistinctCount(init, c);
      if c in init {
        var k :| 0 <= k < |init| && init[k] == c;
        assert calls[k].id != last.id;
      }
    }
  }

  /** Any two sequences of deliveries with the same contents give the same summaries, whatever
      their order and however often each call was delivered. */
  lemma OrderAndRepetitionIrrelevant(a: seq<Call>, b: seq<Call>, roles: set<Role>)
    requires Consistent(a) && forall c :: c in a <==> c in b
    ensures SummaryFor(roles, After(a)) == SummaryFor(roles, After(b))
    ensures Summarize(After(a)) == Summarize(After(b))
  {
    AfterHolds(a);
    AfterHolds(b);
    forall c ensures multiset(After(a))[c] == multiset(After(b))[c] {
      DistinctCount(After(a), c);
      DistinctCount(After(b), c);
    }
    FilterPermuted(InRoles(roles), After(a), After(b));
    SummarizePermuted(Filter(InRoles(roles), After(a)), Filter(InRoles(roles), After(b)));
    SummarizePermuted(After(a), After(b));
  }

  // ----- the total against the roles -----

  /** How a known or unknown summary counts in a sum over roles. */
  function Known(s: Summary): Tokens { if s.tokens.Some? then s.tokens.value else Tokens(0, 0, 0, 0, 0) }

  function Plus(a: Tokens, b: Tokens): Tokens {
    Tokens(a.input + b.input, a.output + b.output, a.cacheRead + b.cacheRead, a.cacheWrite + b.cacheWrite,
           a.total + b.total)
  }

  /** Restricting to observed calls changes no total that gives missing calls zero. */
  lemma {:induction false} ObservedTotal(f: Call -> nat, s: seq<Call>)
    requires forall c :: c in s && c.usage.None? ==> f(c) == 0
    ensures Total(f, Filter(OBSERVED, s)) == Total(f, s)
  {
    if s != [] {
      var init, last := s[..|s| - 1], s[|s| - 1];
      assert s == init + [last];
      ObservedTotal(f, init);
      TotalSnoc(f, Filter(OBSERVED, init), last);
    }
  }

  lemma KnownIsTotals(s: seq<Call>)
    ensures Known(Summarize(s)) == TokenTotals(s)
    ensures Summarize(s).missingCalls == |s| - |Filter(OBSERVED, s)|
    ensures Summarize(s).observedCalls == |Filter(OBSERVED, s)|
  {
    ObservedTotal(INPUT, s);
    ObservedTotal(OUTPUT, s);
    ObservedTotal(CACHE_READ, s);
    ObservedTotal(CACHE_WRITE, s);
    ObservedTotal(ALL_TOKENS, s);
  }

  lemma {:induction false} SplitTotal(f: Call -> nat, a: set<Role>, b: set<Role>, s: seq<Call>)
    requires a !! b
    ensures Total(f, Filter(InRoles(a + b), s)) == Total(f, Filter(InRoles(a), s)) + Total(f, Filter(InRoles(b), s))
  {
    if s != [] {
      var init, last := s[..|s| - 1], s[|s| - 1];
      SplitTotal(f, a, b, init);
      assert s == init + [last];
      SelectedTotal(f, a + b, init, last);
      SelectedTotal(f, a, init, last);
      SelectedTotal(f, b, init, last);
      hide Filter, Total;
    }
  }

  lemma SelectedTotal(f: Call -> nat, roles: set<Role>, s: seq<Call>, c: Call)
    ensures Total(f, Filter(InRoles(roles), s + [c]))
      == Total(f, Filter(InRoles(roles), s)) + (if c.role in roles then f(c) else 0)
  {
    FilterSnoc(InRoles(roles), s, c);
    TotalSnoc(f, Filter(InRoles(roles), s), c);
  }

  lemma TotalSnoc(f: Call -> nat, s: seq<Call>, c: Call)
    ensures Total(f, s + [c]) == Total(f, s) + f(c)
    ensures Total(f, s + []) == Total(f, s)
  {
    assert (s + [c])[..|s|] == s;
    assert s + [] == s;
  }

  lemma {:induction false} SplitCount(keep: Call -> bool, a: set<Role>, b: set<Role>, s: seq<Call>)
    requires a !! b
    ensures |Filter(keep, Filter(InRoles(a + b), s))|
      == |Filter(keep, Filter(InRoles(a), s))| + |Filter(keep, Filter(InRoles(b), s))|
  {
    if s != [] {
      var init, last := s[..|s| - 1], s[|s| - 1];
      SplitCount(keep, a, b, init);
      CountSnoc(keep, Filter(InRoles(a + b), init), last);
      CountSnoc(keep, Filter(InRoles(a), init), last);
      CountSnoc(keep, Filter(InRoles(b), init), last);
    }
  }

  lemma CountSnoc(keep: Call -> bool, s: seq<Call>, c: Call)
    ensures |Filter(keep, s + [c])| == |Filter(keep, s)| + (if keep(c) then 1 else 0)
    ensures Filter(keep, s + []) == Filter(keep, s)
  {
    FilterSnoc(keep, s, c);
    assert s + [] == s;
  }

  const ANY: Call -> bool := (_: Call) => true

  lemma {:induction false} FilterAny(s: seq<Call>)
    ensures Filter(ANY, s) == s
  {
    if s != [] {
      FilterAny(s[..|s| - 1]);
    }
  }

  lemma SplitKnown(a: set<Role>, b: set<Role>, calls: seq<Call>)
    requires a !! b
    ensures Known(SummaryFor(a + b, calls)) == Plus(Known(SummaryFor(a, calls)), Known(SummaryFor(b, calls)))
  {
    KnownIsTotals(Filter(InRoles(a + b), calls));
    KnownIsTotals(Filter(InRoles(a), calls));
    KnownIsTotals(Filter(InRoles(b), calls));
    SplitTotal(INPUT, a, b, calls);
    SplitTotal(OUTPUT, a, b, calls);
    SplitTotal(CACHE_READ, a, b, calls);
    SplitTotal(CACHE_WRITE, a, b, calls);
    SplitTotal(ALL_TOKENS, a, b, calls);
  }

  lemma SplitLength(a: set<Role>, b: set<Role>, calls: seq<Call>)
    requires a !! b
    ensures |Filter(InRoles(a + b), calls)| == |Filter(InRoles(a), calls)| + |Filter(InRoles(b), calls)|
  {
    SplitCount(ANY, a, b, calls);
    FilterAny(Filter(InRoles(a + b), calls));
    FilterAny(Filter(InRoles(a), calls));
    FilterAny(Filter(InRoles(b), calls));
  }

  /** The counts and the status of a summary. */
  lemma Counts(s: seq<Call>)
    ensures Summarize(s).observedCalls == |Filter(OBSERVED, s)|
    ensures Summarize(s).missingCalls == |s| - |Filter(OBSERVED, s)|
    ensures Summarize(s).status == Complete <==> |Filter(OBSERVED, s)| == |s| && |Filter(UNCONFIRMED, s)| == 0
  {
  }

  /** Every observed call of the summary reported its reasoning tokens. */
  predicate ReasoningReported(s: Summary) { s.status == Unknown || s.reasoning.Some? }

  function KnownReasoning(s: Summary): nat { if s.reasoning.Some? then s.reasoning.value else 0 }

  lemma ReasoningOf(s: seq<Call>)
    ensures ReasoningReported(Summarize(s)) <==> |Filter(NO_REASONING, s)| == 0
    ensures ReasoningReported(Summarize(s)) ==> KnownReasoning(Summarize(s)) == Total(REASONING, s)
    ensures Summarize(s).status == Unknown ==> Summarize(s).reasoning.None?
  {
    ObservedTotal(REASONING, s);
    NoReasoningObserved(s);
    if Summarize(s).status == Unknown {
      UnobservedReasoning(s);
    }
  }

  /** Calls without usage report no reasoning either way. */
  lemma {:induction false} NoReasoningObserved(s: seq<Call>)
    ensures Filter(NO_REASONING, Filter(OBSERVED, s)) == Filter(NO_REASONING, s)
  {
    if s != [] {
      NoReasoningObserved(s[..|s| - 1]);
      CountSnoc(NO_REASONING, Filter(OBSERVED, s[..|s| - 1]), s[|s| - 1]);
      FilterSnoc(NO_REASONING, Filter(OBSERVED, s[..|s| - 1]), s[|s| - 1]);
    }
  }

  lemma UnobservedReasoning(s: seq<Call>)
    requires Filter(OBSERVED, s) == []
    ensures Filter(NO_REASONING, s) == [] && Total(REASONING, s) == 0
  {
    NoReasoningObserved(s);
    ObservedTotal(REASONING, s);
  }

  /** A selection that splits in two reports its reasoning tokens exactly when every observed call of both
      parts does, and then their sum. */
  lemma SplitReasoning(a: set<Role>, b: set<Role>, calls: seq<Call>)
    requires a !! b
    ensures var whole, left, right := SummaryFor(a + b, calls), SummaryFor(a, calls), SummaryFor(b, calls);
      && (ReasoningReported(whole) <==> ReasoningReported(left) && ReasoningReported(right))
      && (ReasoningReported(whole) ==> KnownReasoning(whole) == KnownReasoning(left) + KnownReasoning(right))
      && (whole.status == Unknown ==> whole.reasoning.None?)
  {
    hide Summarize;
    ReasoningOf(Filter(InRoles(a + b), calls));
    ReasoningOf(Filter(InRoles(a), calls));
    ReasoningOf(Filter(InRoles(b), calls));
    SplitCount(NO_REASONING, a, b, calls);
    SplitTotal(REASONING, a, b, calls);
  }

  /** A selection that splits in two: calls, missing calls and every token count add up, and it is
      complete exactly when both parts are. */
  lemma SplitSummary(a: set<Role>, b: set<Role>, calls: seq<Call>)
    requires a !! b
    ensures var whole, left, right := SummaryFor(a + b, calls), SummaryFor(a, calls), SummaryFor(b, calls);
      && Known(whole) == Plus(Known(left), Known(right))
      && whole.observedCalls == left.observedCalls + right.observedCalls
      && whole.missingCalls == left.missingCalls + right.missingCalls
      && (whole.status == Complete <==> left.status == Complete && right.status == Complete)
      && (ReasoningReported(whole) <==> ReasoningReported(left) && ReasoningReported(right))
      && (ReasoningReported(whole) ==> KnownReasoning(whole) == KnownReasoning(left) + KnownReasoning(right))
  {
    SplitReasoning(a, b, calls);
    hide ReasoningReported, KnownReasoning;
    SplitKnown(a, b, calls);
    SplitLength(a, b, calls);
    SplitCount(OBSERVED, a, b, calls);
    SplitCount(UNCONFIRMED, a, b, calls);
    var w, l, r := Filter(InRoles(a + b), calls), Filter(InRoles(a), calls), Filter(InRoles(b), calls);
    Counts(w);
    Counts(l);
    Counts(r);
    FilterShorter(OBSERVED, l);
    FilterShorter(OBSERVED, r);
  }

  lemma {:induction false} EveryRole(calls: seq<Call>)
    ensures Filter(InRoles({Classifier, Coding, Compaction}), calls) == calls
  {
    if calls != [] {
      EveryRole(calls[..|calls| - 1]);
      var role := calls[|calls| - 1].role;
      assert role.Classifier? || role.Coding? || role.Compaction?;
      assert calls == calls[..|calls| - 1] + [calls[|calls| - 1]];
    }
  }

  /** The total is the sum of the roles, an unknown role counting zero, in every token count; it is
      complete, and reports its reasoning tokens, exactly when all three roles do. */
  lemma TotalIsRoleSum(calls: seq<Call>)
    ensures var total, classifier := Summarize(calls), SummaryFor({Classifier}, calls);
      var coding, compaction := SummaryFor({Coding}, calls), SummaryFor({Compaction}, calls);
      && Known(total) == Plus(Plus(Known(classifier), Known(coding)), Known(compaction))
      && total.observedCalls == classifier.observedCalls + coding.observedCalls + compaction.observedCalls
      && total.missingCalls == classifier.missingCalls + coding.missingCalls + compaction.missingCalls
      && (total.status == Complete <==>
          classifier.status == Complete && coding.status == Complete && compaction.status == Complete)
      && (ReasoningReported(total) <==>
          ReasoningReported(classifier) && ReasoningReported(coding) && ReasoningReported(compaction))
      && (ReasoningReported(total) ==>
          KnownReasoning(total) == KnownReasoning(classifier) + KnownReasoning(coding) + KnownReasoning(compaction))
  {
    EveryRole(calls);
    assert {Classifier} + {Coding} + {Compaction} == {Classifier, Coding, Compaction};
    SplitSummary({Classifier} + {Coding}, {Compaction}, calls);
    SplitSummary({Classifier}, {Coding}, calls);
  }

  /** A summary is null exactly when calls were dispatched and none of them reported usage; its reasoning
      count is null exactly then, or when some observed call did not report one. */
  lemma UnknownIff(calls: seq<Call>)
    ensures var s := Summarize(calls);
      && (s.tokens.None? <==> s.status == Unknown)
      && (s.status == Unknown <==> s.observedCalls == 0 && s.missingCalls > 0)
      && (s.reasoning.None? <==> s.status == Unknown || exists c :: c in calls && NO_REASONING(c))
  {
    KnownIsTotals(calls);
    ReasoningOf(calls);
    forall c ensures c in Filter(NO_REASONING, calls) <==> c in calls && NO_REASONING(c) {
      FilterMember(NO_REASONING, calls, c);
    }
    if |Filter(NO_REASONING, calls)| > 0 {
      assert Filter(NO_REASONING, calls)[0] in Filter(NO_REASONING, calls);
    }
  }

  lemma {:induction false} CategoriesAdd(s: seq<Call>)
    requires forall c :: c in s && c.usage.Some? ==> FourCategories(c.usage.value.tokens)
    ensures FourCategories(TokenTotals(s))
  {
    if s != [] {
      var init, last := s[..|s| - 1], s[|s| - 1];
      assert last in s && forall c :: c in init ==> c in s;
      CategoriesAdd(init);
    }
  }

  /** Every known summary of normalised calls has a total equal to its four categories. */
  lemma SummaryCategories(roles: set<Role>, calls: seq<Call>)
    requires forall c :: c in calls && c.usage.Some? ==> FourCategories(c.usage.value.tokens)
    ensures SummaryFor(roles, calls).tokens.Some? ==> FourCategories(SummaryFor(roles, calls).tokens.value)
  {
    var s := Filter(InRoles(roles), calls);
    forall c | c in s ensures c in calls {
      FilterMember(InRoles(roles), calls, c);
    }
    KnownIsTotals(s);
    CategoriesAdd(s);
  }

  // ----- what a summary says about its calls -----

  ghost predicate AllReported(calls: seq<Call>) { forall c :: c in calls ==> c.usage.Some? }

  ghost predicate NoneReported(calls: seq<Call>) { forall c :: c in calls ==> c.usage.None? }

  /** A summary is complete exactly if every call reported its usage and ended well, unknown exactly if there
      were calls and none reported; it counts the calls that did and those that did not. */
  lemma StatusIff(calls: seq<Call>)
    ensures var s := Summarize(calls);
      && (s.status == Complete <==> forall c :: c in calls ==> c.usage.Some? && c.complete)
      && (s.status == Unknown <==> calls != [] && NoneReported(calls))
      && s.observedCalls + s.missingCalls == |calls|
      && (s.missingCalls == 0 <==> AllReported(calls)) && (s.observedCalls == 0 <==> NoneReported(calls))
      && (s.tokens.None? <==> s.status == Unknown)
  {
    hide Filter;
    var observed, unconfirmed := Filter(OBSERVED, calls), Filter(UNCONFIRMED, calls);
    forall c ensures (c in observed <==> c in calls && c.usage.Some?)
      && (c in unconfirmed <==> c in calls && c.usage.Some? && !c.complete)
    {
      FilterMember(OBSERVED, calls, c);
      FilterMember(UNCONFIRMED, calls, c);
    }
    assert observed != [] ==> observed[0] in calls && observed[0].usage.Some?;
    assert unconfirmed != [] ==> unconfirmed[0] in unconfirmed;
    AllKept(OBSERVED, calls);
    FilterShorter(OBSERVED, calls);
    if calls == [] {
      assert |observed| == 0 && |unconfirmed| == 0;
    }
  }

  lemma {:induction false} AllKept(keep: Call -> bool, s: seq<Call>)
    ensures |Filter(keep, s)| == |s| <==> forall c :: c in s ==> keep(c)
    ensures |Filter(keep, s)| <= |s|
  {
    if s != [] {
      AllKept(keep, s[..|s| - 1]);
      assert s == s[..|s| - 1] + [s[|s| - 1]];
    }
  }

  /** The summary of one call that reported usage holds exactly what it reported. */
  lemma SummaryOfOne(c: Call)
    requires c.usage.Some?
    ensures var s, t := Summarize([c]), c.usage.value.tokens;
      && s.observedCalls == 1 && s.tokens.Some? && s.reasoning == c.usage.value.reasoning
      && s.tokens.value.input == t.input && s.tokens.value.output == t.output
      && s.tokens.value.cacheRead == t.cacheRead && s.tokens.value.cacheWrite == t.cacheWrite
      && s.tokens.value.total == t.total
  {
    assert [c][..0] == [];
    assert Filter(OBSERVED, [c]) == [c];
    TotalOfOne(INPUT, c);
    TotalOfOne(OUTPUT, c);
    TotalOfOne(CACHE_READ, c);
    TotalOfOne(CACHE_WRITE, c);
    TotalOfOne(ALL_TOKENS, c);
    TotalOfOne(REASONING, c);
    assert Filter(NO_REASONING, [c]) == if c.usage.value.reasoning.None? then [c] else [];
  }

  lemma TotalOfOne(f: Call -> nat, c: Call)
    ensures Total(f, [c]) == f(c)
  {
    assert [c][..0] == [];
  }

  /** And summaries of several calls add up, token by token. */
  lemma SummaryOfMore(a: seq<Call>, b: seq<Call>)
    requires Summarize(a).tokens.Some? && Summarize(b).tokens.Some?
    ensures Summarize(a + b).tokens.Some?
    ensures var x, y, z := Summarize(a).tokens.value, Summarize(b).tokens.value, Summarize(a + b).tokens.value;
      && z.input == x.input + y.input && z.output == x.output + y.output
      && z.cacheRead == x.cacheRead + y.cacheRead && z.cacheWrite == x.cacheWrite + y.cacheWrite
      && z.total == x.total + y.total
  {
    KnownIsTotals(a);
    KnownIsTotals(b);
    KnownIsTotals(a + b);
    TotalConcat(INPUT, a, b);
    TotalConcat(OUTPUT, a, b);
    TotalConcat(CACHE_READ, a, b);
    TotalConcat(CACHE_WRITE, a, b);
    TotalConcat(ALL_TOKENS, a, b);
    StatusIff(a);
    StatusIff(b);
    StatusIff(a + b);
    hide Summarize, Total;
  }

  // ----- cost -----

  datatype Pricing = Pricing(input: real, output: real, cacheRead: Option<real>, cacheWrite: Option<real>)

  function Or(price: Option<real>, default: real): real { if price.Some? then price.value else default }

  function Cost(t: Tokens, p: Pricing): real {
    (t.input as real * p.input + t.output as real * p.output
     + t.cacheRead as real * Or(p.cacheRead, 0.0) + t.cacheWrite as real * Or(p.cacheWrite, 0.0)) / 1000000.0
  }

  function CalculateWithPricing(s: Summary, p: Pricing): Option<real> {
    if s.observedCalls == 0 && s.missingCalls == 0 then Some(0.0)
    else if s.status != Complete || s.tokens.None? then None
    else if s.tokens.value.cacheRead > 0 && p.cacheRead.None? then None
    else if s.tokens.value.cacheWrite > 0 && p.cacheWrite.None? then None
    else Some(Cost(s.tokens.value, p))
  }

  /** A price is undefined only where it is needed. */
  predicate Priced(t: Tokens, p: Pricing) {
    (t.cacheRead > 0 ==> p.cacheRead.Some?) && (t.cacheWrite > 0 ==> p.cacheWrite.Some?)
  }

  lemma CostOfSummary(calls: seq<Call>, p: Pricing)
    ensures var s := Summarize(calls);
      CalculateWithPricing(s, p)
      == if s.status == Complete && Priced(Known(s), p) then Some(Cost(Known(s), p)) else None
  {
    KnownIsTotals(calls);
    FilterShorter(OBSERVED, calls);
    if Summarize(calls).observedCalls == 0 && Summarize(calls).missingCalls == 0 {
      assert calls == [];
    }
  }

  lemma CostAdds(a: Tokens, b: Tokens, p: Pricing)
    ensures Cost(Plus(a, b), p) == Cost(a, p) + Cost(b, p)
  {
    Distribute(a.input, b.input, p.input);
    Distribute(a.output, b.output, p.output);
    Distribute(a.cacheRead, b.cacheRead, Or(p.cacheRead, 0.0));
    Distribute(a.cacheWrite, b.cacheWrite, Or(p.cacheWrite, 0.0));
  }

  /** A million tokens of one category cost its price. */
  lemma CostOfAMillion(p: Pricing)
    ensures Cost(Tokens(1000000, 0, 0, 0, 1000000), p) == p.input
    ensures Cost(Tokens(0, 1000000, 0, 0, 1000000), p) == p.output
    ensures p.cacheRead.Some? ==> Cost(Tokens(0, 0, 1000000, 0, 1000000), p) == p.cacheRead.value
    ensures p.cacheWrite.Some? ==> Cost(Tokens(0, 0, 0, 1000000, 1000000), p) == p.cacheWrite.value
  {
  }

  lemma Distribute(m: nat, n: nat, price: real)
    ensures (m + n) as real * price == m as real * price + n as real * price
  {
    assert (m + n) as real == m as real + n as real;
  }

  /** The cost over two disjoint groups of calls is known exactly when both parts' costs are, and is
      then their sum. */
  lemma CostSplits(a: set<Role>, b: set<Role>, calls: seq<Call>, p: Pricing)
    requires a !! b
    ensures var whole := CalculateWithPricing(SummaryFor(a + b, calls), p);
      var left, right := CalculateWithPricing(SummaryFor(a, calls), p), CalculateWithPricing(SummaryFor(b, calls), p);
      && (whole.Some? <==> left.Some? && right.Some?)
      && (whole.Some? ==> whole.value == left.value + right.value)
  {
    SplitSummary(a, b, calls);
    CostOfSummary(Filter(InRoles(a + b), calls), p);
    CostOfSummary(Filter(InRoles(a), calls), p);
    CostOfSummary(Filter(InRoles(b), calls), p);
    CostAdds(Known(SummaryFor(a, calls)), Known(SummaryFor(b, calls)), p);
  }
}
