/** The seeded trial schedule of src/evaluation/smoke.ts and the identifiers it hands out. */
module Schedule {
  import opened Ordering
  import opened Shuffling
  import opened Strings
  import opened Trials
  import opened Wrappers

  const MAX_ATTEMPTS: nat := 16

  const MODES: seq<Mode> := [WeakOnly, StrongOnly, Routed]

  datatype Entry = Entry(
    order: nat, trialId: string, attemptIds: seq<string>, taskId: string, repetition: nat, mode: Mode, seed: int)

  // ----- identifiers -----

  function ModeName(mode: Mode): string {
    match mode case WeakOnly => "weak-only" case StrongOnly => "strong-only" case Routed => "routed"
  }

  function TrialId(taskId: string, repetition: nat, mode: Mode): string {
    (taskId + "-r") + Decimal(repetition + 1) + ("-" + ModeName(mode))
  }

  function AttemptId(trialId: string, index: nat): string {
    (trialId + "-a") + Decimal(index + 1)
  }

  /** A decimal suffix can be read back: it is the longest run of digits at the end. */
  lemma SuffixUnique(a: string, m: nat, b: string, n: nat)
    requires a != [] && b != [] && !IsDigit(a[|a| - 1]) && !IsDigit(b[|b| - 1])
    requires a + Decimal(m) == b + Decimal(n)
    ensures a == b && m == n
  {
    DecimalDigits(m);
    DecimalDigits(n);
    var s := a + Decimal(m);
    assert s[|a| - 1] == a[|a| - 1] && s[|b| - 1] == b[|b| - 1];
    assert forall i :: |a| <= i < |s| ==> s[i] == Decimal(m)[i - |a|];
    assert forall i :: |b| <= i < |s| ==> s[i] == Decimal(n)[i - |b|];
    assert |a| == |b|;
    EqualConcat(a, Decimal(m), b, Decimal(n));
    DecimalInjective(m, n);
  }

  lemma EqualConcat(a: string, x: string, b: string, y: string)
    requires a + x == b + y && |x| == |y|
    ensures a == b && x == y
  {
    assert a == (a + x)[..|a|] && b == (b + y)[..|b|];
    assert x == (a + x)[|a|..] && y == (b + y)[|b|..];
  }

  /** Different mode names differ three characters before their common ending. */
  lemma ModeSuffixUnique(a: string, m: Mode, b: string, n: Mode)
    requires a + ("-" + ModeName(m)) == b + ("-" + ModeName(n))
    ensures a == b && m == n
  {
    var x, y := "-" + ModeName(m), "-" + ModeName(n);
    var s := a + x;
    assert s[|s| - 6] == x[|x| - 6] && s[|s| - 6] == y[|y| - 6];
    assert s[|s| - 1] == x[|x| - 1] && s[|s| - 1] == y[|y| - 1];
    EqualConcat(a, x, b, y);
  }

  /** No two (task, repetition, mode) triples share a trial id, whatever characters task ids contain. */
  lemma TrialIdInjective(t: string, r: nat, m: Mode, t': string, r': nat, m': Mode)
    requires TrialId(t, r, m) == TrialId(t', r', m')
    ensures t == t' && r == r' && m == m'
  {
    ModeSuffixUnique((t + "-r") + Decimal(r + 1), m, (t' + "-r") + Decimal(r' + 1), m');
    SuffixUnique(t + "-r", r + 1, t' + "-r", r' + 1);
    EqualConcat(t, "-r", t', "-r");
  }

  lemma AttemptIdInjective(t: string, i: nat, t': string, i': nat)
    requires AttemptId(t, i) == AttemptId(t', i')
    ensures t == t' && i == i'
  {
    SuffixUnique(t + "-a", i + 1, t' + "-a", i' + 1);
    EqualConcat(t, "-a", t', "-a");
  }

  // ----- the schedule -----

  function Repeats(taskId: string, repetitions: nat): seq<Pair> {
    seq(repetitions, r requires 0 <= r < repetitions => Pair(taskId, r))
  }

  /** Every task with every repetition, in task order. */
  function Triplets(tasks: seq<string>, repetitions: nat): seq<Pair> {
    if tasks == [] then [] else Triplets(tasks[..|tasks| - 1], repetitions) + Repeats(tasks[|tasks| - 1], repetitions)
  }

  function AttemptIds(trialId: string): seq<string> {
    seq(MAX_ATTEMPTS, index requires 0 <= index < MAX_ATTEMPTS => AttemptId(trialId, index))
  }

  function EntryFor(pair: Pair, mode: Mode, order: nat, seed: int): Entry {
    var trialId := TrialId(pair.taskId, pair.repetition, mode);
    Entry(order, trialId, AttemptIds(trialId), pair.taskId, pair.repetition, mode, seed)
  }

  /** `seed >>> 0`. */
  function ToUint32(seed: int): bv32 { (seed % 0x1_0000_0000) as bv32 }

  /** The order of the three modes in each block. */
  type Orders = nat -> seq<Mode>

  ghost predicate AreOrders(orders: Orders) {
    forall k :: |orders(k)| == 3 && NoDuplicates(orders(k)) && forall mode :: mode in orders(k)
  }

  /** The modes for the `k`-th pair, shuffled after `drawn` draws for the pairs and two per earlier block. */
  function ShuffledModes(stream: Stream, drawn: nat): Orders
    requires InRange(stream)
  {
    (k: nat) => ShuffleOf(MODES, stream, drawn + 2 * k)
  }

  function Blocks(pairs: seq<Pair>, orders: Orders, seed: int): seq<Entry> {
    if pairs == [] then []
    else
      var k := |pairs| - 1;
      Blocks(pairs[..k], orders, seed) + BlockOf(pairs[k], orders(k), 3 * k, seed)
  }

  function BlockOf(pair: Pair, modes: seq<Mode>, order: nat, seed: int): (r: seq<Entry>)
    ensures |r| == |modes|
    ensures forall i :: 0 <= i < |r| ==> r[i] == EntryFor(pair, modes[i], order + i, seed)
  {
    seq(|modes|, i requires 0 <= i < |modes| => EntryFor(pair, modes[i], order + i, seed))
  }

  function ShuffledPairs(tasks: seq<string>, stream: Stream, repetitions: nat): seq<Pair>
    requires InRange(stream)
  {
    ShuffleOf(Triplets(Sort(StringLe, tasks), repetitions), stream, 0)
  }

  function ScheduleOf(tasks: seq<string>, stream: Stream, seed: int, repetitions: nat): seq<Entry>
    requires InRange(stream)
  {
    var pairs := ShuffledPairs(tasks, stream, repetitions);
    Blocks(pairs, ShuffledModes(stream, LastIndex(|pairs|)), seed)
  }

  method TripletsOf(tasks: seq<string>, repetitions: nat) returns (triplets: seq<Pair>)
    ensures triplets == Triplets(tasks, repetitions)
  {
    triplets := [];
    for i := 0 to |tasks|
      invariant triplets == Triplets(tasks[..i], repetitions)
    {
      assert tasks[..i + 1][..i] == tasks[..i];
      triplets := triplets + Repeats(tasks[i], repetitions);
    }
    assert tasks[..|tasks|] == tasks;
  }

  /** `evaluationSchedule`: refused outside 1 to 100 repetitions, else a function of the arguments alone. */
  method EvaluationSchedule(tasks: seq<string>, seed: int, repetitions: int) returns (schedule: Option<seq<Entry>>)
    ensures InRange(MulberryStream(ToUint32(seed)))
    ensures schedule == if repetitions < 1 || repetitions > 100 then None
      else Some(ScheduleOf(tasks, MulberryStream(ToUint32(seed)), seed, repetitions))
  {
    MulberryInRange(ToUint32(seed));
    if repetitions < 1 || repetitions > 100 {
      return None;
    }
    var random := new Random(MulberryStream(ToUint32(seed)));
    var built := Build(tasks, random, seed, repetitions);
    schedule := Some(built);
  }

  method Build(tasks: seq<string>, random: Random, seed: int, repetitions: nat) returns (schedule: seq<Entry>)
    requires InRange(random.stream) && random.drawn == 0
    modifies random
    ensures schedule == ScheduleOf(tasks, random.stream, seed, repetitions)
  {
    var triplets := TripletsOf(Sort(StringLe, tasks), repetitions);
    var shuffled := Shuffle(triplets, random);
    ShuffleOfPermutes(triplets, random.stream, 0);
    schedule := Expand(shuffled[..], random, seed);
  }

  lemma BlocksStep(pairs: seq<Pair>, orders: Orders, seed: int, i: nat)
    requires i < |pairs|
    ensures Blocks(pairs[..i + 1], orders, seed)
      == Blocks(pairs[..i], orders, seed) + BlockOf(pairs[i], orders(i), 3 * i, seed)
  {
    assert pairs[..i + 1][..i] == pairs[..i];
  }

  lemma NoBlocks(orders: Orders, seed: int)
    ensures Blocks([], orders, seed) == []
  {
  }

  /** One block of freshly shuffled modes per pair, numbered on. */
  method Expand(pairs: seq<Pair>, random: Random, seed: int) returns (schedule: seq<Entry>)
    requires InRange(random.stream)
    modifies random
    ensures schedule == Blocks(pairs, ShuffledModes(random.stream, old(random.drawn)), seed)
  {
    hide InRange, BlockOf, Blocks;
    NoBlocks(ShuffledModes(random.stream, random.drawn), seed);
    ghost var orders := ShuffledModes(random.stream, random.drawn);
    schedule := [];
    var order := 0;
    for i := 0 to |pairs|
      invariant order == 3 * i && random.drawn == old(random.drawn) + 2 * i
      invariant schedule == Blocks(pairs[..i], orders, seed)
    {
      BlocksStep(pairs, orders, seed, i);
      var modes := ShuffleModes(random, orders, i);
      schedule := schedule + BlockOf(pairs[i], modes, order, seed);
      order := order + |modes|;
    }
    assert pairs[..|pairs|] == pairs;
  }

  method ShuffleModes(random: Random, ghost orders: Orders, ghost k: nat) returns (modes: seq<Mode>)
    requires InRange(random.stream) && orders(k) == ShuffleOf(MODES, random.stream, random.drawn)
    modifies random
    ensures modes == orders(k) && |modes| == 3 && random.drawn == old(random.drawn) + 2
  {
    ShuffleOfPermutes(MODES, random.stream, random.drawn);
    var shuffled := Shuffle(MODES, random);
    modes := shuffled[..];
  }

  // ----- what the schedule contains -----

  lemma {:induction false} TripletsContain(tasks: seq<string>, repetitions: nat, pair: Pair)
    ensures pair in Triplets(tasks, repetitions) <==> pair.taskId in tasks && pair.repetition < repetitions
  {
    if tasks != [] {
      TripletsContain(tasks[..|tasks| - 1], repetitions, pair);
      assert tasks == tasks[..|tasks| - 1] + [tasks[|tasks| - 1]];
      RepeatsContain(tasks[|tasks| - 1], repetitions, pair);
    }
  }

  lemma RepeatsContain(taskId: string, repetitions: nat, pair: Pair)
    ensures pair in Repeats(taskId, repetitions) <==> pair.taskId == taskId && pair.repetition < repetitions
  {
    if pair.taskId == taskId && pair.repetition < repetitions {
      assert Repeats(taskId, repetitions)[pair.repetition] == pair;
    }
  }

  lemma {:induction false} TripletsLength(tasks: seq<string>, repetitions: nat)
    ensures |Triplets(tasks, repetitions)| == |tasks| * repetitions
  {
    if tasks != [] {
      TripletsLength(tasks[..|tasks| - 1], repetitions);
      TimesStep(|tasks|, repetitions);
    }
  }

  lemma TimesStep(n: nat, r: nat)
    requires n > 0
    ensures n * r == (n - 1) * r + r
  {
  }

  lemma {:induction false} TripletsDistinct(tasks: seq<string>, repetitions: nat)
    requires NoDuplicates(tasks)
    ensures NoDuplicates(Triplets(tasks, repetitions))
  {
    if tasks != [] {
      var init, last := tasks[..|tasks| - 1], tasks[|tasks| - 1];
      TripletsDistinct(init, repetitions);
      var before := Triplets(init, repetitions);
      forall i | 0 <= i < |before| ensures before[i].taskId != last {
        TripletsContain(init, repetitions, before[i]);
      }
    }
  }

  /** Position `3 * k + m` holds the `m`-th mode of the `k`-th pair. */
  lemma {:induction false} EntryAt(pairs: seq<Pair>, orders: Orders, seed: int, k: nat, m: nat)
    requires AreOrders(orders) && k < |pairs| && m < 3
    ensures |Blocks(pairs, orders, seed)| == 3 * |pairs|
    ensures Blocks(pairs, orders, seed)[3 * k + m] == EntryFor(pairs[k], orders(k)[m], 3 * k + m, seed)
  {
    hide EntryFor;
    var last := |pairs| - 1;
    BlocksLength(pairs[..last], orders, seed);
    if k < last {
      EntryAt(pairs[..last], orders, seed, k, m);
    }
  }

  lemma {:induction false} BlocksLength(pairs: seq<Pair>, orders: Orders, seed: int)
    requires AreOrders(orders)
    ensures |Blocks(pairs, orders, seed)| == 3 * |pairs|
  {
    if pairs != [] {
      BlocksLength(pairs[..|pairs| - 1], orders, seed);
    }
  }

  lemma AllModes(mode: Mode)
    ensures NoDuplicates(MODES) && mode in MODES
  {
    assert MODES[0] == WeakOnly && MODES[1] == StrongOnly && MODES[2] == Routed;
  }

  lemma ModesOnce(modes: seq<Mode>, stream: Stream, drawn: nat, mode: Mode)
    requires InRange(stream) && |modes| == 3 && NoDuplicates(modes) && mode in modes
    ensures |ShuffleOf(modes, stream, drawn)| == 3 && NoDuplicates(ShuffleOf(modes, stream, drawn))
    ensures mode in ShuffleOf(modes, stream, drawn)
  {
    ShuffleOfPermutes(modes, stream, drawn);
    PermutationKeepsDistinct(modes, ShuffleOf(modes, stream, drawn));
    SameMembers(modes, ShuffleOf(modes, stream, drawn));
  }

  lemma ShuffledModesAreOrders(stream: Stream, drawn: nat)
    requires InRange(stream)
    ensures AreOrders(ShuffledModes(stream, drawn))
  {
    forall k: nat, mode | true
      ensures |ShuffledModes(stream, drawn)(k)| == 3 && NoDuplicates(ShuffledModes(stream, drawn)(k))
      ensures mode in ShuffledModes(stream, drawn)(k)
    {
      AllModes(mode);
      ModesOnce(MODES, stream, drawn + 2 * k, mode);
    }
  }

  lemma PairsAre(tasks: seq<string>, stream: Stream, repetitions: nat)
    requires InRange(stream) && NoDuplicates(tasks)
    ensures var pairs := ShuffledPairs(tasks, stream, repetitions);
      && NoDuplicates(pairs) && |pairs| == |tasks| * repetitions
      && forall pair :: pair in pairs <==> pair.taskId in tasks && pair.repetition < repetitions
  {
    var sorted := Sort(StringLe, tasks);
    SortPermutes(StringLe, tasks);
    PermutationKeepsDistinct(tasks, sorted);
    SameMembers(sorted, tasks);
    var triplets := Triplets(sorted, repetitions);
    TripletsDistinct(sorted, repetitions);
    ShuffleOfPermutes(triplets, stream, 0);
    var pairs := ShuffledPairs(tasks, stream, repetitions);
    PermutationKeepsDistinct(triplets, pairs);
    SameMembers(triplets, pairs);
    forall pair ensures pair in pairs <==> pair.taskId in tasks && pair.repetition < repetitions {
      TripletsContain(sorted, repetitions, pair);
    }
    TripletsLength(sorted, repetitions);
  }

  function OrdersOf(tasks: seq<string>, stream: Stream, repetitions: nat): Orders
    requires InRange(stream)
  {
    ShuffledModes(stream, LastIndex(|ShuffledPairs(tasks, stream, repetitions)|))
  }

  /** The entry at a position of the schedule, by block and place in the block. */
  lemma ScheduledAt(tasks: seq<string>, stream: Stream, seed: int, repetitions: nat, i: nat)
    requires InRange(stream) && i < |ScheduleOf(tasks, stream, seed, repetitions)|
    ensures AreOrders(OrdersOf(tasks, stream, repetitions))
    ensures var pairs := ShuffledPairs(tasks, stream, repetitions);
      && |ScheduleOf(tasks, stream, seed, repetitions)| == 3 * |pairs|
      && ScheduleOf(tasks, stream, seed, repetitions)[i]
         == EntryFor(pairs[i / 3], OrdersOf(tasks, stream, repetitions)(i / 3)[i % 3], i, seed)
  {
    var pairs := ShuffledPairs(tasks, stream, repetitions);
    ShuffledModesAreOrders(stream, LastIndex(|pairs|));
    BlocksLength(pairs, OrdersOf(tasks, stream, repetitions), seed);
    EntryAt(pairs, OrdersOf(tasks, stream, repetitions), seed, i / 3, i % 3);
  }

  /** Entry `i` carries order `i` and the ids of its own trial. */
  lemma NumberedInOrder(tasks: seq<string>, stream: Stream, seed: int, repetitions: nat, i: nat)
    requires InRange(stream) && NoDuplicates(tasks) && i < |ScheduleOf(tasks, stream, seed, repetitions)|
    ensures var s := ScheduleOf(tasks, stream, seed, repetitions);
      && |s| == 3 * (|tasks| * repetitions)
      && s[i].order == i && s[i].taskId in tasks && s[i].repetition < repetitions
      && s[i].trialId == TrialId(s[i].taskId, s[i].repetition, s[i].mode) && s[i].attemptIds == AttemptIds(s[i].trialId)
  {
    PairsAre(tasks, stream, repetitions);
    ScheduledAt(tasks, stream, seed, repetitions, i);
    assert ShuffledPairs(tasks, stream, repetitions)[i / 3] in ShuffledPairs(tasks, stream, repetitions);
  }

  /** The three modes of a task/repetition are adjacent: they fill one block of three. */
  lemma ModesAdjacent(tasks: seq<string>, stream: Stream, seed: int, repetitions: nat, i: nat, j: nat)
    requires InRange(stream) && NoDuplicates(tasks)
    requires i < |ScheduleOf(tasks, stream, seed, repetitions)| && j < |ScheduleOf(tasks, stream, seed, repetitions)|
    ensures var s := ScheduleOf(tasks, stream, seed, repetitions);
      i / 3 == j / 3 <==> s[i].taskId == s[j].taskId && s[i].repetition == s[j].repetition
  {
    PairsAre(tasks, stream, repetitions);
    ScheduledAt(tasks, stream, seed, repetitions, i);
    ScheduledAt(tasks, stream, seed, repetitions, j);
  }

  lemma NotTwice(tasks: seq<string>, stream: Stream, seed: int, repetitions: nat, i: nat, j: nat)
    requires InRange(stream) && NoDuplicates(tasks)
    requires i < |ScheduleOf(tasks, stream, seed, repetitions)| && j < |ScheduleOf(tasks, stream, seed, repetitions)|
    requires var s := ScheduleOf(tasks, stream, seed, repetitions);
      s[i].taskId == s[j].taskId && s[i].repetition == s[j].repetition && s[i].mode == s[j].mode
    ensures i == j
  {
    ModesAdjacent(tasks, stream, seed, repetitions, i, j);
    ScheduledAt(tasks, stream, seed, repetitions, i);
    ScheduledAt(tasks, stream, seed, repetitions, j);
    assert NoDuplicates(OrdersOf(tasks, stream, repetitions)(i / 3));
    assert i % 3 == j % 3;
  }

  /** The entry is for this trial. */
  predicate IsFor(e: Entry, taskId: string, repetition: nat, mode: Mode) {
    e.taskId == taskId && e.repetition == repetition && e.mode == mode
  }

  /** The block and the place in it of a trial. */
  lemma PlaceOf(tasks: seq<string>, stream: Stream, repetitions: nat, taskId: string, repetition: nat, mode: Mode)
    returns (k: nat, m: nat)
    requires InRange(stream) && NoDuplicates(tasks) && taskId in tasks && repetition < repetitions
    ensures k < |ShuffledPairs(tasks, stream, repetitions)| && m < 3
    ensures ShuffledPairs(tasks, stream, repetitions)[k] == Pair(taskId, repetition)
    ensures AreOrders(OrdersOf(tasks, stream, repetitions)) && OrdersOf(tasks, stream, repetitions)(k)[m] == mode
  {
    var pairs, orders := ShuffledPairs(tasks, stream, repetitions), OrdersOf(tasks, stream, repetitions);
    PairsAre(tasks, stream, repetitions);
    assert Pair(taskId, repetition) in pairs;
    k :| k < |pairs| && pairs[k] == Pair(taskId, repetition);
    ShuffledModesAreOrders(stream, LastIndex(|pairs|));
    assert mode in orders(k);
    m :| m < 3 && orders(k)[m] == mode;
  }

  lemma Scheduled(tasks: seq<string>, stream: Stream, seed: int, repetitions: nat, taskId: string, repetition: nat,
    mode: Mode)
    returns (i: nat)
    requires InRange(stream) && NoDuplicates(tasks) && taskId in tasks && repetition < repetitions
    ensures i < |ScheduleOf(tasks, stream, seed, repetitions)|
    ensures IsFor(ScheduleOf(tasks, stream, seed, repetitions)[i], taskId, repetition, mode)
  {
    hide InRange, NoDuplicates, ShuffledPairs, AreOrders, AttemptIds, TrialId, Blocks;
    var k, m := PlaceOf(tasks, stream, repetitions, taskId, repetition, mode);
    i := 3 * k + m;
    EntryAt(ShuffledPairs(tasks, stream, repetitions), OrdersOf(tasks, stream, repetitions), seed, k, m);
  }

  /** Each (task, repetition, mode) is scheduled, and at one position only. */
  lemma EachTrialOnce(tasks: seq<string>, stream: Stream, seed: int, repetitions: nat, taskId: string, repetition: nat,
    mode: Mode)
    returns (i: nat)
    requires InRange(stream) && NoDuplicates(tasks) && taskId in tasks && repetition < repetitions
    ensures i < |ScheduleOf(tasks, stream, seed, repetitions)|
    ensures forall j :: 0 <= j < |ScheduleOf(tasks, stream, seed, repetitions)| ==>
      (j == i <==> IsFor(ScheduleOf(tasks, stream, seed, repetitions)[j], taskId, repetition, mode))
  {
    hide ScheduleOf, InRange, NoDuplicates;
    i := Scheduled(tasks, stream, seed, repetitions, taskId, repetition, mode);
    forall j: nat | j < |ScheduleOf(tasks, stream, seed, repetitions)|
      ensures j == i <==> IsFor(ScheduleOf(tasks, stream, seed, repetitions)[j], taskId, repetition, mode)
    {
      if IsFor(ScheduleOf(tasks, stream, seed, repetitions)[j], taskId, repetition, mode) {
        NotTwice(tasks, stream, seed, repetitions, i, j);
      }
    }
  }

  /** All trial ids and all attempt ids are pairwise distinct. */
  lemma IdentifiersDistinct(tasks: seq<string>, stream: Stream, seed: int, repetitions: nat, i: nat, a: nat, j: nat,
    b: nat)
    requires InRange(stream) && NoDuplicates(tasks)
    requires i < |ScheduleOf(tasks, stream, seed, repetitions)| && j < |ScheduleOf(tasks, stream, seed, repetitions)|
    requires a < MAX_ATTEMPTS && b < MAX_ATTEMPTS
    ensures var s := ScheduleOf(tasks, stream, seed, repetitions);
      && |s[i].attemptIds| == |s[j].attemptIds| == MAX_ATTEMPTS
      && (s[i].trialId == s[j].trialId <==> i == j)
      && (s[i].attemptIds[a] == s[j].attemptIds[b] <==> i == j && a == b)
  {
    var x, y := ScheduleOf(tasks, stream, seed, repetitions)[i], ScheduleOf(tasks, stream, seed, repetitions)[j];
    NumberedInOrder(tasks, stream, seed, repetitions, i);
    NumberedInOrder(tasks, stream, seed, repetitions, j);
    if x.attemptIds[a] == y.attemptIds[b] {
      AttemptIdInjective(x.trialId, a, y.trialId, b);
    }
    if x.trialId == y.trialId {
      TrialIdInjective(x.taskId, x.repetition, x.mode, y.taskId, y.repetition, y.mode);
      NotTwice(tasks, stream, seed, repetitions, i, j);
    }
  }

  /** The order in which the task ids are listed does not matter. */
  lemma ListingOrderIrrelevant(tasks: seq<string>, tasks': seq<string>, stream: Stream, seed: int, repetitions: nat)
    requires InRange(stream) && multiset(tasks) == multiset(tasks')
    ensures ScheduleOf(tasks, stream, seed, repetitions) == ScheduleOf(tasks', stream, seed, repetitions)
  {
    StringOrder(tasks);
    SortPermuted(StringLe, tasks, tasks');
  }

  // ----- the default schedule -----

  lemma ModeAt(tasks: seq<string>, stream: Stream, seed: int, repetitions: nat, b: nat, m: nat)
    requires InRange(stream) && m < 3 && 3 * b + m < |ScheduleOf(tasks, stream, seed, repetitions)|
    ensures AreOrders(OrdersOf(tasks, stream, repetitions))
    ensures ScheduleOf(tasks, stream, seed, repetitions)[3 * b + m].mode == OrdersOf(tasks, stream, repetitions)(b)[m]
  {
    hide *;
    ScheduledAt(tasks, stream, seed, repetitions, 3 * b + m);
    assert (3 * b + m) / 3 == b && (3 * b + m) % 3 == m;
    EntryMode(ShuffledPairs(tasks, stream, repetitions)[b], OrdersOf(tasks, stream, repetitions)(b)[m], 3 * b + m,
              seed);
  }

  lemma EntryMode(pair: Pair, mode: Mode, order: nat, seed: int)
    ensures EntryFor(pair, mode, order, seed).mode == mode
  {
  }

  lemma OrderAt(tasks: seq<string>, stream: Stream, repetitions: nat, b: nat)
    requires InRange(stream)
    ensures OrdersOf(tasks, stream, repetitions)(b)
      == ShuffleOf(MODES, stream, LastIndex(|ShuffledPairs(tasks, stream, repetitions)|) + 2 * b)
  {
    hide ShuffledPairs, ShuffleOf, LastIndex, InRange;
  }

  /** The modes by two draws: which of three comes last, and which of the remaining two is second. */
  function ModesBy(last: nat, second: nat): (r: seq<Mode>)
    requires last < 3 && second < 2
    ensures |r| == 3
  {
    var modes := [WeakOnly, StrongOnly, Routed];
    var others := modes[last := Routed];
    [others[1 - second], others[second], modes[last]]
  }

  lemma OrderBy(tasks: seq<string>, stream: Stream, repetitions: nat, b: nat)
    requires InRange(stream)
    ensures var drawn := LastIndex(|ShuffledPairs(tasks, stream, repetitions)|) + 2 * b;
      && stream(drawn, 3) < 3 && stream(drawn + 1, 2) < 2
      && OrdersOf(tasks, stream, repetitions)(b) == ModesBy(stream(drawn, 3), stream(drawn + 1, 2))
  {
    OrderAt(tasks, stream, repetitions, b);
    var drawn := LastIndex(|ShuffledPairs(tasks, stream, repetitions)|) + 2 * b;
    ShuffleOfThree(MODES, stream, drawn);
    hide OrdersOf, ShuffledPairs, ShuffleOf, LastIndex, InRange;
  }

  /** Block b of any schedule has its modes in the order of its own two draws. */
  lemma BlockOrder(tasks: seq<string>, stream: Stream, seed: int, repetitions: nat, b: nat, m: nat)
    requires InRange(stream) && m < 3 && 3 * b + m < |ScheduleOf(tasks, stream, seed, repetitions)|
    ensures var drawn := LastIndex(|ShuffledPairs(tasks, stream, repetitions)|) + 2 * b;
      && stream(drawn, 3) < 3 && stream(drawn + 1, 2) < 2
      && ScheduleOf(tasks, stream, seed, repetitions)[3 * b + m].mode
         == ModesBy(stream(drawn, 3), stream(drawn + 1, 2))[m]
  {
    hide *;
    ModeAt(tasks, stream, seed, repetitions, b, m);
    OrderBy(tasks, stream, repetitions, b);
  }

  const DEFAULT_SEED: int := 20260905

  const SMOKE_TASKS: seq<string> := ["01-null-summary", "02-create-validation", "03-stable-filter"]

  lemma DrawNext(state: bv32, next: bv32, k: nat)
    requires next == state + INCREMENT
    ensures DrawAt(state, k + 1) == DrawAt(next, k)
    ensures DrawAt(state, 0) == Mix(next) as nat
  {
  }

  /** The first eight draws of the default seed. */
  lemma DefaultDraws()
    ensures DrawAt(20260905, 0) == 3595461609 && DrawAt(20260905, 1) == 2113765280
    ensures DrawAt(20260905, 2) == 561428030 && DrawAt(20260905, 3) == 2213422713
    ensures DrawAt(20260905, 4) == 1337445355 && DrawAt(20260905, 5) == 2704536005
    ensures DrawAt(20260905, 6) == 2130293930 && DrawAt(20260905, 7) == 3542690566
  {
    DrawsFrom(20260905, 1851826718, 3683392531, 1219991048, 3051556861);
    DrawsFrom(3051556861, 588155378, 2419721191, 4251287004, 1787885521);
    FourthDraw(20260905, 1851826718, 3683392531, 1219991048, 3051556861);
    assert Mix(1851826718) == 3595461609 && Mix(3683392531) == 2113765280;
    assert Mix(1219991048) == 561428030 && Mix(3051556861) == 2213422713;
    assert Mix(588155378) == 1337445355 && Mix(2419721191) == 2704536005;
    assert Mix(4251287004) == 2130293930 && Mix(1787885521) == 3542690566;
  }

  lemma DrawsFrom(s: bv32, a: bv32, b: bv32, c: bv32, d: bv32)
    requires a == s + INCREMENT && b == a + INCREMENT && c == b + INCREMENT && d == c + INCREMENT
    ensures DrawAt(s, 0) == Mix(a) as nat && DrawAt(s, 1) == Mix(b) as nat
    ensures DrawAt(s, 2) == Mix(c) as nat && DrawAt(s, 3) == Mix(d) as nat
  {
    hide DrawAt, Mix;
    DrawNext(s, a, 0);
    DrawNext(s, a, 1);
    DrawNext(s, a, 2);
    DrawNext(a, b, 0);
    DrawNext(a, b, 1);
    DrawNext(b, c, 0);
    DrawNext(c, d, 0);
  }

  lemma FourthDraw(s: bv32, a: bv32, b: bv32, c: bv32, d: bv32)
    requires a == s + INCREMENT && b == a + INCREMENT && c == b + INCREMENT && d == c + INCREMENT
    ensures forall k: nat :: DrawAt(s, k + 4) == DrawAt(d, k)
  {
    hide DrawAt, Mix;
    forall k: nat ensures DrawAt(s, k + 4) == DrawAt(d, k) {
      DrawNext(s, a, k + 3);
      DrawNext(a, b, k + 2);
      DrawNext(b, c, k + 1);
      DrawNext(c, d, k);
    }
  }

  lemma DefaultPicks()
    ensures var stream := MulberryStream(20260905);
      && stream(0, 3) == 2 && stream(1, 2) == 0 && stream(2, 3) == 0 && stream(3, 2) == 1
      && stream(4, 3) == 0 && stream(5, 2) == 1 && stream(6, 3) == 1 && stream(7, 2) == 1
  {
    DefaultDraws();
    hide DrawAt;
  }

  /** The listed task and mode at position i. */
  ghost predicate ListedAt(schedule: seq<Entry>, i: nat, taskId: string, mode: Mode) {
    i < |schedule| && schedule[i].taskId == taskId && schedule[i].repetition == 0 && schedule[i].mode == mode
  }

  lemma DefaultPairs()
    ensures InRange(MulberryStream(20260905))
    ensures ShuffledPairs(SMOKE_TASKS, MulberryStream(20260905), 1)
      == [Pair(SMOKE_TASKS[1], 0), Pair(SMOKE_TASKS[0], 0), Pair(SMOKE_TASKS[2], 0)]
  {
    MulberryInRange(20260905);
    assert |SMOKE_TASKS| == 3;
    PairsBy(SMOKE_TASKS, MulberryStream(20260905));
    hide *;
    DefaultPicks();
    SmokeTasksSorted();
  }

  /** Three sorted tasks, once each, in the order of the first two draws. */
  lemma PairsBy(t: seq<string>, stream: Stream)
    requires InRange(stream) && |t| == 3
    ensures stream(0, 3) < 3 && stream(1, 2) < 2
    ensures Sort(StringLe, t) == t && stream(0, 3) == 2 && stream(1, 2) == 0 ==>
      ShuffledPairs(t, stream, 1) == [Pair(t[1], 0), Pair(t[0], 0), Pair(t[2], 0)]
  {
    OnceEach(t);
    hide Sort, Triplets, ShuffleOf, InRange;
    ShuffleOfThree(Triplets(t, 1), stream, 0);
  }

  lemma OnceEach(t: seq<string>)
    requires |t| == 3
    ensures Triplets(t, 1) == [Pair(t[0], 0), Pair(t[1], 0), Pair(t[2], 0)]
  {
    assert Repeats(t[0], 1) == [Pair(t[0], 0)] && Repeats(t[1], 1) == [Pair(t[1], 0)];
    assert Repeats(t[2], 1) == [Pair(t[2], 0)];
    assert t[..2][1] == t[1] && t[..2][..1][0] == t[0] && t[..2][..1][..0] == [];
    assert Triplets(t[..2][..1], 1) == [Pair(t[0], 0)];
    assert Triplets(t[..2], 1) == [Pair(t[0], 0), Pair(t[1], 0)];
  }

  lemma SmokeTasksSorted()
    ensures Sort(StringLe, SMOKE_TASKS) == SMOKE_TASKS
  {
    var t := SMOKE_TASKS;
    assert t[..2] == [t[0], t[1]] && t[..2][..1] == [t[0]] && t[..2][..1][..0] == [];
    assert StringLe(t[0], t[1]) by {
      assert t[0][1..][0] == '1' && t[1][1..][0] == '2';
    }
    assert StringLe(t[1], t[2]) by {
      assert t[1][1..][0] == '2' && t[2][1..][0] == '3';
    }
    assert Sort(StringLe, t[..1]) == [t[0]];
    assert Sort(StringLe, t[..2]) == [t[0], t[1]];
  }

  /** The nine trials as the repository's own tests list them. */
  ghost predicate AsListed(s: seq<Entry>) {
    && |s| == 9
    && ListedAt(s, 0, SMOKE_TASKS[1], Routed) && ListedAt(s, 1, SMOKE_TASKS[1], StrongOnly)
    && ListedAt(s, 2, SMOKE_TASKS[1], WeakOnly)
    && ListedAt(s, 3, SMOKE_TASKS[0], Routed) && ListedAt(s, 4, SMOKE_TASKS[0], StrongOnly)
    && ListedAt(s, 5, SMOKE_TASKS[0], WeakOnly)
    && ListedAt(s, 6, SMOKE_TASKS[2], WeakOnly) && ListedAt(s, 7, SMOKE_TASKS[2], Routed)
    && ListedAt(s, 8, SMOKE_TASKS[2], StrongOnly)
  }

  lemma ListedBlock(s: seq<Entry>, b: nat)
    requires |s| == 9 && b < 3
    requires forall i :: 0 <= i < 9 ==>
      s[i].repetition == 0 && s[i].taskId == SMOKE_TASKS[if i < 3 then 1 else if i < 6 then 0 else 2]
    ensures var task := SMOKE_TASKS[if b == 0 then 1 else if b == 1 then 0 else 2];
      && ListedAt(s, 3 * b, task, s[3 * b].mode) && ListedAt(s, 3 * b + 1, task, s[3 * b + 1].mode)
      && ListedAt(s, 3 * b + 2, task, s[3 * b + 2].mode)
  {
  }

  lemma SmokeSchedule()
    ensures InRange(MulberryStream(20260905))
    ensures AsListed(ScheduleOf(SMOKE_TASKS, MulberryStream(20260905), DEFAULT_SEED, 1))
  {
    DefaultLength();
    DefaultBlock(0);
    DefaultBlock(1);
    DefaultBlock(2);
    hide ScheduleOf, MulberryStream, InRange, ListedAt;
    var s := ScheduleOf(SMOKE_TASKS, MulberryStream(20260905), DEFAULT_SEED, 1);
    ListedBlock(s, 0);
    ListedBlock(s, 1);
    ListedBlock(s, 2);
  }

  lemma Uint32Is(seed: int, word: bv32)
    requires word as int == seed % 0x1_0000_0000
    ensures ToUint32(seed) == word
  {
  }

  lemma DefaultSeed()
    ensures ToUint32(DEFAULT_SEED) == 20260905
  {
    assert (20260905 as bv32) as int == 20260905;
    hide ToUint32;
    Uint32Is(DEFAULT_SEED, 20260905);
  }

  /** The schedule of the three smoke tasks under the default seed, one repetition each. */
  lemma DefaultSchedule()
    ensures InRange(MulberryStream(ToUint32(DEFAULT_SEED)))
    ensures AsListed(ScheduleOf(SMOKE_TASKS, MulberryStream(ToUint32(DEFAULT_SEED)), DEFAULT_SEED, 1))
  {
    hide *;
    DefaultSeed();
    SmokeSchedule();
  }

  lemma DefaultBlock(b: nat)
    requires b < 3
    ensures InRange(MulberryStream(20260905))
    ensures var s := ScheduleOf(SMOKE_TASKS, MulberryStream(20260905), DEFAULT_SEED, 1);
      && |s| == 9
      && [s[3 * b].mode, s[3 * b + 1].mode, s[3 * b + 2].mode]
         == if b < 2 then [Routed, StrongOnly, WeakOnly] else [WeakOnly, Routed, StrongOnly]
  {
    DefaultPairs();
    DefaultPicks();
    DefaultLength();
    hide MulberryStream, ShuffledPairs, ScheduleOf, InRange;
    BlockOrder(SMOKE_TASKS, MulberryStream(20260905), DEFAULT_SEED, 1, b, 0);
    BlockOrder(SMOKE_TASKS, MulberryStream(20260905), DEFAULT_SEED, 1, b, 1);
    BlockOrder(SMOKE_TASKS, MulberryStream(20260905), DEFAULT_SEED, 1, b, 2);
  }

  lemma DefaultLength()
    ensures InRange(MulberryStream(20260905))
    ensures var s := ScheduleOf(SMOKE_TASKS, MulberryStream(20260905), DEFAULT_SEED, 1);
      && |s| == 9 && |ShuffledPairs(SMOKE_TASKS, MulberryStream(20260905), 1)| == 3
      && forall i :: 0 <= i < 9 ==>
           s[i].repetition == 0 && s[i].taskId == SMOKE_TASKS[if i < 3 then 1 else if i < 6 then 0 else 2]
  {
    var stream := MulberryStream(20260905);
    assert |SMOKE_TASKS| == 3;
    DefaultPairs();
    ThreePerPair(SMOKE_TASKS, stream, DEFAULT_SEED, 1);
    hide *;
    forall i | 0 <= i < 9
      ensures var e := ScheduleOf(SMOKE_TASKS, stream, DEFAULT_SEED, 1)[i];
        e.repetition == 0 && e.taskId == SMOKE_TASKS[if i < 3 then 1 else if i < 6 then 0 else 2]
    {
      PairAt(SMOKE_TASKS, stream, DEFAULT_SEED, 1, i);
      assert i / 3 == if i < 3 then 0 else if i < 6 then 1 else 2;
    }
  }

  lemma ThreePerPair(tasks: seq<string>, stream: Stream, seed: int, repetitions: nat)
    requires InRange(stream)
    ensures |ScheduleOf(tasks, stream, seed, repetitions)| == 3 * |ShuffledPairs(tasks, stream, repetitions)|
  {
    var pairs := ShuffledPairs(tasks, stream, repetitions);
    hide ShuffledPairs, InRange, AreOrders;
    ShuffledModesAreOrders(stream, LastIndex(|pairs|));
    BlocksLength(pairs, OrdersOf(tasks, stream, repetitions), seed);
  }

  lemma PairAt(tasks: seq<string>, stream: Stream, seed: int, repetitions: nat, i: nat)
    requires InRange(stream) && i < |ScheduleOf(tasks, stream, seed, repetitions)|
    ensures i / 3 < |ShuffledPairs(tasks, stream, repetitions)|
    ensures var e := ScheduleOf(tasks, stream, seed, repetitions)[i];
      Pair(e.taskId, e.repetition) == ShuffledPairs(tasks, stream, repetitions)[i / 3]
  {
    hide ScheduleOf, TrialId, AttemptIds, OrdersOf, ShuffledPairs, InRange, AreOrders;
    ScheduledAt(tasks, stream, seed, repetitions, i);
  }
}
