/** The append-only event log of one attempt (src/artifacts/run-artifacts.ts): what is written, what a
    crash leaves behind, and what reading it back returns. */
module EventLog {
  import opened Ordering
  import opened Strings
  import opened Wrappers

  datatype Kind = Finalization | Routing | OtherKind

  datatype Event = Event(sequence: nat, kind: Kind, payload: string)

  /** JSON and the event schema: `decode` parses and validates one line. */
  datatype Codec = Codec(valid: (Kind, string) -> bool, encode: Event -> string, decode: string -> Option<Event>)

  predicate Valid(c: Codec, e: Event) { c.valid(e.kind, e.payload) }

  /** Valid events survive encoding, on one non-empty line. */
  ghost predicate Faithful(c: Codec) {
    forall e :: Valid(c, e) ==> c.decode(c.encode(e)) == Some(e) && c.encode(e) != "" && '\n' !in c.encode(e)
  }

  // ----- reading -----

  datatype ReadError = InvalidEvent(line: nat) | InvalidSequence(line: nat)

  datatype AttemptRead = AttemptRead(finalized: bool, events: seq<Event>, truncatedTail: bool)

  const NON_EMPTY: string -> bool := (line: string) => line != ""

  function TruncatedTail(source: string): bool { source != "" && source[|source| - 1] != '\n' }

  /** The lines that are parsed. */
  function Lines(source: string): seq<string> {
    var lines := Split('\n', source);
    Filter(NON_EMPTY, if TruncatedTail(source) then lines[..|lines| - 1] else lines)
  }

  function DecodeAll(c: Codec, lines: seq<string>): Result<seq<Event>, ReadError> {
    if lines == [] then Ok([])
    else
      match DecodeAll(c, lines[..|lines| - 1])
      case Err(e) => Err(e)
      case Ok(events) =>
        match c.decode(lines[|lines| - 1])
        case None => Err(InvalidEvent(|lines|))
        case Some(event) => Ok(events + [event])
  }

  /** The first event whose sequence number is not its position. */
  function Misplaced(events: seq<Event>): Option<nat> {
    if events == [] then None
    else
      var earlier := Misplaced(events[..|events| - 1]);
      if earlier.Some? then earlier
      else if events[|events| - 1].sequence != |events| then Some(|events|) else None
  }

  function ReadAttempt(c: Codec, source: string, resultExists: bool): Result<AttemptRead, ReadError> {
    match DecodeAll(c, Lines(source))
    case Err(e) => Err(e)
    case Ok(events) =>
      var misplaced := Misplaced(events);
      if misplaced.Some? then Err(InvalidSequence(misplaced.value))
      else Ok(AttemptRead(resultExists, events, TruncatedTail(source)))
  }

  // ----- what the log holds -----

  function Line(c: Codec, e: Event): string { c.encode(e) + "\n" }

  function Render(c: Codec, events: seq<Event>): string {
    if events == [] then "" else Render(c, events[..|events| - 1]) + Line(c, events[|events| - 1])
  }

  ghost predicate AllValid(c: Codec, events: seq<Event>) { forall e :: e in events ==> Valid(c, e) }

  ghost predicate Numbered(events: seq<Event>) { forall i :: 0 <= i < |events| ==> events[i].sequence == i + 1 }

  /** A cut inside a line: part of its text, without its newline. */
  predicate Cut(part: string) { '\n' !in part }

  /** Text added to the last line. */
  function Extend(lines: seq<string>, part: string): seq<string>
    requires lines != []
  {
    lines[..|lines| - 1] + [lines[|lines| - 1] + part]
  }

  lemma ExtendTwice(lines: seq<string>, a: string, b: string)
    requires lines != []
    ensures Extend(Extend(lines, a), b) == Extend(lines, a + b)
  {
    var last := lines[|lines| - 1];
    assert (last + a) + b == last + (a + b);
  }

  lemma ExtendBlank(lines: seq<string>, part: string)
    ensures Extend(lines + [""], part) == lines + [part]
  {
    assert "" + part == part;
  }

  lemma SplitChar(s: string, ch: char)
    requires ch != '\n'
    ensures Split('\n', s + [ch]) == Extend(Split('\n', s), [ch])
  {
    assert (s + [ch])[..|s|] == s;
  }

  lemma {:induction false} SplitPart(s: string, part: string)
    requires Cut(part)
    ensures Split('\n', s + part) == Extend(Split('\n', s), part)
  {
    if part == "" {
      assert s + part == s;
      var r := Split('\n', s);
      assert r[|r| - 1] + "" == r[|r| - 1];
    } else {
      var init, last := part[..|part| - 1], part[|part| - 1];
      assert part == init + [last] && last in part;
      SplitPart(s, init);
      SplitChar(s + init, last);
      assert s + part == (s + init) + [last];
      ExtendTwice(Split('\n', s), init, [last]);
    }
  }

  function Encodings(c: Codec, events: seq<Event>): (r: seq<string>)
    ensures |r| == |events|
  {
    if events == [] then [] else Encodings(c, events[..|events| - 1]) + [c.encode(events[|events| - 1])]
  }

  lemma {:induction false} SplitRender(c: Codec, events: seq<Event>)
    requires Faithful(c) && AllValid(c, events)
    ensures Split('\n', Render(c, events)) == Encodings(c, events) + [""]
  {
    if events != [] {
      var init, last := events[..|events| - 1], events[|events| - 1];
      assert last in events && forall e :: e in init ==> e in events;
      SplitRender(c, init);
      SplitPart(Render(c, init), c.encode(last));
      ExtendBlank(Encodings(c, init), c.encode(last));
      assert Render(c, events) == Render(c, init) + c.encode(last) + "\n";
    }
  }

  lemma DecodeSnoc(c: Codec, lines: seq<string>, line: string)
    ensures DecodeAll(c, lines).Ok? && c.decode(line).Some? ==>
      DecodeAll(c, lines + [line]) == Ok(DecodeAll(c, lines).result + [c.decode(line).value])
  {
    assert (lines + [line])[..|lines|] == lines;
  }

  lemma {:induction false} EncodingsKept(c: Codec, events: seq<Event>)
    requires Faithful(c) && AllValid(c, events)
    ensures Filter(NON_EMPTY, Encodings(c, events)) == Encodings(c, events)
    ensures DecodeAll(c, Encodings(c, events)) == Ok(events)
  {
    if events != [] {
      var init, last := events[..|events| - 1], events[|events| - 1];
      assert events == init + [last] && last in events && forall e :: e in init ==> e in events;
      EncodingsKept(c, init);
      assert Encodings(c, events) == Encodings(c, init) + [c.encode(last)];
      assert c.decode(c.encode(last)) == Some(last) && NON_EMPTY(c.encode(last));
      FilterSnoc(NON_EMPTY, Encodings(c, init), c.encode(last));
      DecodeSnoc(c, Encodings(c, init), c.encode(last));
      hide Encodings, Faithful, AllValid, Filter, DecodeAll;
    }
  }

  lemma {:induction false} MisplacedIff(events: seq<Event>)
    ensures Misplaced(events).None? <==> Numbered(events)
  {
    if events != [] {
      MisplacedIff(events[..|events| - 1]);
    }
  }

  lemma LastOfRender(c: Codec, events: seq<Event>)
    requires events != []
    ensures Render(c, events) != "" && Render(c, events)[|Render(c, events)| - 1] == '\n'
  {
  }

  /** Whole lines and a cut: the events of the lines come back, and the cut is flagged. */
  lemma ReadCut(c: Codec, events: seq<Event>, part: string, resultExists: bool)
    requires Faithful(c) && AllValid(c, events) && Cut(part)
    ensures var r := ReadAttempt(c, Render(c, events) + part, resultExists);
      && (r.Ok? <==> Numbered(events))
      && (r.Ok? ==> r.result == AttemptRead(resultExists, events, part != ""))
      && (r.Err? ==> Misplaced(events).Some? && r.error == InvalidSequence(Misplaced(events).value))
  {
    var source := Render(c, events) + part;
    SplitRender(c, events);
    SplitPart(Render(c, events), part);
    ExtendBlank(Encodings(c, events), part);
    var lines := Split('\n', source);
    assert lines == Encodings(c, events) + [part];
    if part != "" {
      assert source[|source| - 1] == part[|part| - 1] && part[|part| - 1] in part;
      assert lines[..|lines| - 1] == Encodings(c, events);
    } else {
      assert source == Render(c, events);
      if events != [] {
        LastOfRender(c, events);
      }
      FilterSnoc(NON_EMPTY, Encodings(c, events), "");
    }
    EncodingsKept(c, events);
    assert Lines(source) == Encodings(c, events);
    MisplacedIff(events);
  }

  /** Every byte prefix of a log is some whole lines and a cut into the next one. */
  lemma {:induction false} PrefixShape(c: Codec, events: seq<Event>, p: nat) returns (k: nat, part: string)
    requires Faithful(c) && AllValid(c, events) && p <= |Render(c, events)|
    ensures k <= |events| && Cut(part)
    ensures Render(c, events)[..p] == Render(c, events[..k]) + part
    ensures k == |events| ==> part == ""
    ensures k < |events| ==> |part| <= |c.encode(events[k])|
  {
    if p == |Render(c, events)| {
      k, part := |events|, "";
      assert events[..k] == events;
    } else {
      var init, last := events[..|events| - 1], events[|events| - 1];
      assert last in events && forall e :: e in init ==> e in events;
      if p < |Render(c, init)| {
        k, part := PrefixShape(c, init, p);
        assert init[..k] == events[..k];
      } else {
        k := |init|;
        part := Line(c, last)[..p - |Render(c, init)|];
        assert events[..k] == init;
        assert part <= c.encode(last);
      }
    }
  }

  /** k events have their newline within the first p bytes, and those are what is read. */
  ghost predicate ReadsFirst(c: Codec, events: seq<Event>, p: nat, k: nat, resultExists: bool) {
    && p <= |Render(c, events)| && k <= |events| && |Render(c, events[..k])| <= p
    && (k < |events| ==> p < |Render(c, events[..k + 1])|)
    && ReadAttempt(c, Render(c, events)[..p], resultExists)
       == Ok(AttemptRead(resultExists, events[..k], p != |Render(c, events[..k])|))
  }

  /** Reading any byte prefix of a well-numbered log returns exactly the events whose newline is inside
      the prefix, numbered 1 to k, and flags a tail exactly when the cut is inside a line. */
  lemma ReadPrefix(c: Codec, events: seq<Event>, p: nat, resultExists: bool)
    requires Faithful(c) && AllValid(c, events) && Numbered(events) && p <= |Render(c, events)|
    ensures exists k :: ReadsFirst(c, events, p, k, resultExists)
  {
    hide ReadAttempt, Faithful, Render, Line, Cut;
    var k, part := PrefixShape(c, events, p);
    assert forall e :: e in events[..k] ==> e in events;
    ReadCut(c, events[..k], part, resultExists);
    assert |Render(c, events)[..p]| == p;
    if k < |events| {
      NextLine(c, events, k);
    }
    assert ReadsFirst(c, events, p, k, resultExists);
  }

  lemma NextLine(c: Codec, events: seq<Event>, k: nat)
    requires k < |events|
    ensures |Render(c, events[..k + 1])| == |Render(c, events[..k])| + |c.encode(events[k])| + 1
  {
    assert events[..k + 1][..k] == events[..k];
  }

  // ----- the store that writes the log -----

  /** `logged` events are on disk with their newline, followed by `tail` if a write failed inside a line;
      `pending` ones wait in the write queue. `finalizing` holds the numbers of finalization events, and
      `drained` those whose queue has been awaited. */
  datatype State = State(
    logged: seq<Event>, tail: string, pending: seq<Event>, broken: bool, sequence: nat, dedupe: set<string>,
    decision: Option<string>, finalizing: set<nat>, drained: set<nat>, result: bool, finalized: bool)

  const EMPTY := State([], "", [], false, 0, {}, None, {}, {}, false, false)

  /** `WriteFails` leaves any part of the line behind, all of it if only the sync failed; the queue then
      stays rejected. `FinalizeDrains` is the return of `await this.queue`. */
  datatype Op =
    | Append(kind: Kind, payload: string, key: Option<string>)
    | RecordDecision(decisionId: string, payload: string)
    | WriteNext
    | WriteFails(written: nat)
    | FinalizeStarts(payload: string)
    | FinalizeDrains(number: nat)
    | FinalizeWrites(number: nat)
    | FinalizeEnds

  datatype Appended = Accepted | Rejected | Ignored

  /** A sequence number and the deduplication key are taken before the payload is validated. */
  function Outcome(c: Codec, s: State, kind: Kind, payload: string, key: Option<string>): Appended {
    if s.finalized || (key.Some? && key.value in s.dedupe) then Ignored
    else if c.valid(kind, payload) then Accepted else Rejected
  }

  function AppendEvent(c: Codec, s: State, kind: Kind, payload: string, key: Option<string>): State {
    var outcome := Outcome(c, s, kind, payload, key);
    if outcome.Ignored? then s
    else
      var taken := s.(sequence := s.sequence + 1, dedupe := if key.Some? then s.dedupe + {key.value} else s.dedupe);
      if outcome.Rejected? then taken else taken.(pending := s.pending + [Event(s.sequence + 1, kind, payload)])
  }

  function DecisionKey(decisionId: string): Option<string> { Some("decision:" + decisionId) }

  predicate OtherDecision(s: State, decisionId: string) { s.decision.Some? && s.decision.value != decisionId }

  function Step(c: Codec, s: State, op: Op): Option<State> {
    match op
    case Append(kind, payload, key) => Some(AppendEvent(c, s, kind, payload, key))
    case RecordDecision(id, payload) =>
      Some(if OtherDecision(s, id) then s
           else AppendEvent(c, s.(decision := Some(id)), Routing, payload, DecisionKey(id)))
    case WriteNext =>
      if s.broken || s.pending == [] then None
      else Some(s.(logged := s.logged + [s.pending[0]], pending := s.pending[1..]))
    case WriteFails(n) =>
      if s.broken || s.pending == [] || n > |Line(c, s.pending[0])| then None
      else
        var stopped := s.(pending := s.pending[1..], broken := true);
        Some(if n == |Line(c, s.pending[0])| then stopped.(logged := s.logged + [s.pending[0]])
             else stopped.(tail := Line(c, s.pending[0])[..n]))
    case FinalizeStarts(payload) =>
      var next := AppendEvent(c, s, Finalization, payload, None);
      Some(if Outcome(c, s, Finalization, payload, None).Accepted?
           then next.(finalizing := s.finalizing + {next.sequence}) else next)
    case FinalizeDrains(number) =>
      if number !in s.finalizing || s.broken || !Drained(s.pending, number) then None
      else Some(s.(drained := s.drained + {number}))
    case FinalizeWrites(number) => if number !in s.drained then None else Some(s.(result := true))
    case FinalizeEnds => if !s.result then None else Some(s.(finalized := true))
  }

  /** The queue has been worked off up to this number. */
  predicate Drained(pending: seq<Event>, number: nat) {
    forall i :: 0 <= i < |pending| ==> pending[i].sequence > number
  }

  function After(c: Codec, ops: seq<Op>): Option<State> {
    if ops == [] then Some(EMPTY)
    else
      match After(c, ops[..|ops| - 1])
      case None => None
      case Some(s) => Step(c, s, ops[|ops| - 1])
  }

  /** What an operation does with the payload it brings, if any. */
  function OutcomeOf(c: Codec, s: State, op: Op): Appended {
    match op
    case Append(kind, payload, key) => Outcome(c, s, kind, payload, key)
    case RecordDecision(id, payload) =>
      if OtherDecision(s, id) then Ignored else Outcome(c, s, Routing, payload, DecisionKey(id))
    case FinalizeStarts(payload) => Outcome(c, s, Finalization, payload, None)
    case _ => Ignored
  }

  /** The event an operation adds to the queue, if any. */
  function Added(c: Codec, s: State, op: Op): seq<Event> {
    if !OutcomeOf(c, s, op).Accepted? then []
    else
      var kind := if op.Append? then op.kind else if op.RecordDecision? then Routing else Finalization;
      [Event(s.sequence + 1, kind, op.payload)]
  }

  /** The accepted events in the order of their acceptance. */
  function AcceptedEvents(c: Codec, ops: seq<Op>): seq<Event>
    requires After(c, ops).Some?
  {
    if ops == [] then []
    else AcceptedEvents(c, ops[..|ops| - 1]) + Added(c, After(c, ops[..|ops| - 1]).value, ops[|ops| - 1])
  }

  /** Some payload was rejected. */
  predicate SomeRejected(c: Codec, ops: seq<Op>)
    requires After(c, ops).Some?
  {
    ops != [] &&
    (SomeRejected(c, ops[..|ops| - 1]) || OutcomeOf(c, After(c, ops[..|ops| - 1]).value, ops[|ops| - 1]).Rejected?)
  }

  /** How many payloads were accepted before any was rejected. */
  function Clean(c: Codec, ops: seq<Op>): nat
    requires After(c, ops).Some?
  {
    if ops == [] then 0
    else
      var init := ops[..|ops| - 1];
      Clean(c, init) + (if SomeRejected(c, init) then 0 else |Added(c, After(c, init).value, ops[|ops| - 1])|)
  }

  /** Some payload was accepted after another had been rejected. */
  predicate HasGap(c: Codec, ops: seq<Op>)
    requires After(c, ops).Some?
  {
    ops != [] &&
    (HasGap(c, ops[..|ops| - 1])
     || (SomeRejected(c, ops[..|ops| - 1]) && OutcomeOf(c, After(c, ops[..|ops| - 1]).value, ops[|ops| - 1]).Accepted?))
  }

  // ----- the queue is first in, first out -----

  ghost predicate IsFinalization(events: seq<Event>, number: nat) {
    exists i :: 0 <= i < |events| && events[i].sequence == number && events[i].kind.Finalization?
  }

  ghost predicate FinalizedIn(events: seq<Event>) { exists i :: 0 <= i < |events| && events[i].kind.Finalization? }

  /** Until a write fails, the accepted events are the logged ones followed by the waiting ones; after
      that, the log holds the first of them, and part of the next. */
  ghost predicate InOrder(c: Codec, s: State, all: seq<Event>) {
    && AllValid(c, all)
    && s.logged <= all && (!s.broken ==> s.tail == "" && all == s.logged + s.pending)
    && (s.tail != "" ==> |s.logged| < |all| && s.tail <= c.encode(all[|s.logged|]))
  }

  /** Finalization numbers are those of accepted finalization events, and drained ones are in the log. */
  ghost predicate Finalizations(s: State, all: seq<Event>) {
    && (forall number :: number in s.finalizing ==> IsFinalization(all, number))
    && (forall number :: number in s.drained ==> IsFinalization(s.logged, number))
    && (s.result ==> FinalizedIn(s.logged))
  }

  lemma IsFinalizationGrows(a: seq<Event>, b: seq<Event>)
    requires a <= b
    ensures forall number :: IsFinalization(a, number) ==> IsFinalization(b, number)
    ensures FinalizedIn(a) ==> FinalizedIn(b)
  {
    forall number | IsFinalization(a, number) ensures IsFinalization(b, number) {
      var i :| 0 <= i < |a| && a[i].sequence == number && a[i].kind.Finalization?;
      assert b[i] == a[i];
    }
    if FinalizedIn(a) {
      var i :| 0 <= i < |a| && a[i].kind.Finalization?;
      assert b[i] == a[i];
    }
  }

  lemma WriteInOrder(c: Codec, s: State, op: Op, all: seq<Event>)
    requires op.WriteNext? || op.WriteFails?
    requires InOrder(c, s, all) && Step(c, s, op).Some?
    ensures InOrder(c, Step(c, s, op).value, all)
  {
    assert s.pending[0] == all[|s.logged|];
    assert s.pending == [s.pending[0]] + s.pending[1..];
    assert all == (s.logged + [s.pending[0]]) + s.pending[1..];
  }

  lemma AppendAdds(c: Codec, s: State, kind: Kind, payload: string, key: Option<string>)
    ensures var r, accepted := AppendEvent(c, s, kind, payload, key), Outcome(c, s, kind, payload, key).Accepted?;
      && r.logged == s.logged && r.tail == s.tail && r.broken == s.broken
      && r.pending == s.pending + (if accepted then [Event(s.sequence + 1, kind, payload)] else [])
      && (accepted ==> c.valid(kind, payload))
  {
  }

  /** Any other operation writes nothing, and adds at most its own event to the queue. */
  lemma StepAdds(c: Codec, s: State, op: Op)
    requires !op.WriteNext? && !op.WriteFails? && Step(c, s, op).Some?
    ensures var r := Step(c, s, op).value;
      r.logged == s.logged && r.tail == s.tail && r.broken == s.broken && r.pending == s.pending + Added(c, s, op)
    ensures AllValid(c, Added(c, s, op))
  {
    match op {
      case Append(kind, payload, key) =>
        AppendAdds(c, s, kind, payload, key);
        hide AppendEvent, Outcome;
      case RecordDecision(id, payload) =>
        AppendAdds(c, s.(decision := Some(id)), Routing, payload, DecisionKey(id));
        hide AppendEvent, DecisionKey;
      case FinalizeStarts(payload) =>
        AppendAdds(c, s, Finalization, payload, None);
        hide AppendEvent, Outcome;
      case _ =>
        hide AppendEvent, Outcome;
    }
  }

  lemma StepInOrder(c: Codec, s: State, op: Op, all: seq<Event>)
    requires InOrder(c, s, all) && Step(c, s, op).Some?
    ensures InOrder(c, Step(c, s, op).value, all + Added(c, s, op))
  {
    if op.WriteNext? || op.WriteFails? {
      WriteInOrder(c, s, op, all);
      assert all + [] == all;
    } else {
      StepAdds(c, s, op);
      hide Step, Added;
      assert s.logged + (s.pending + Added(c, s, op)) == (s.logged + s.pending) + Added(c, s, op);
    }
  }

  /** What an operation does to the finalizations, and how the log grows. */
  lemma StepMarks(c: Codec, s: State, op: Op)
    requires Step(c, s, op).Some?
    ensures var r := Step(c, s, op).value;
      && s.logged <= r.logged
      && r.finalizing == s.finalizing + (if op.FinalizeStarts? && Added(c, s, op) != [] then {s.sequence + 1} else {})
      && r.drained == s.drained + (if op.FinalizeDrains? then {op.number} else {})
      && r.result == (s.result || op.FinalizeWrites?)
  {
  }

  lemma StepFinalizations(c: Codec, s: State, op: Op, all: seq<Event>)
    requires InOrder(c, s, all) && Finalizations(s, all) && Step(c, s, op).Some?
    ensures Finalizations(Step(c, s, op).value, all + Added(c, s, op))
  {
    var r, next := Step(c, s, op).value, all + Added(c, s, op);
    IsFinalizationGrows(all, next);
    StepMarks(c, s, op);
    IsFinalizationGrows(s.logged, r.logged);
    if op.FinalizeStarts? && Added(c, s, op) != [] {
      assert next[|all|] == Added(c, s, op)[0];
      assert IsFinalization(next, s.sequence + 1);
    } else if op.FinalizeDrains? {
      DrainedIsLogged(c, s, all, op.number);
    } else if op.FinalizeWrites? {
      assert IsFinalization(s.logged, op.number);
    }
    hide Step, Added, IsFinalization, InOrder;
  }

  /** A finalization event whose queue has been worked off is in the log: nothing overtakes it, and
      nothing before it was lost. */
  lemma DrainedIsLogged(c: Codec, s: State, all: seq<Event>, number: nat)
    requires InOrder(c, s, all) && Finalizations(s, all)
    requires number in s.finalizing && !s.broken && Drained(s.pending, number)
    ensures IsFinalization(s.logged, number)
  {
    assert IsFinalization(all, number);
    var i :| 0 <= i < |all| && all[i].sequence == number && all[i].kind.Finalization?;
    assert forall j :: |s.logged| <= j < |all| ==> all[j] == s.pending[j - |s.logged|];
    assert s.logged[i] == all[i];
  }

  /** In every run: what is logged is an initial part of what was accepted, and nothing is lost or
      overtaken unless a write fails. */
  lemma {:induction false} RunInOrder(c: Codec, ops: seq<Op>)
    requires After(c, ops).Some?
    ensures InOrder(c, After(c, ops).value, AcceptedEvents(c, ops))
    ensures Finalizations(After(c, ops).value, AcceptedEvents(c, ops))
  {
    if ops != [] {
      var init := ops[..|ops| - 1];
      RunInOrder(c, init);
      StepInOrder(c, After(c, init).value, ops[|ops| - 1], AcceptedEvents(c, init));
      StepFinalizations(c, After(c, init).value, ops[|ops| - 1], AcceptedEvents(c, init));
    }
  }

  // ----- what is deduplicated -----

  predicate Appends(op: Op) { op.Append? || op.RecordDecision? || op.FinalizeStarts? }

  /** The deduplication key an operation brings. */
  function KeyOf(op: Op): Option<string> {
    if op.Append? then op.key else if op.RecordDecision? then Some("decision:" + op.decisionId) else None
  }

  function KindOf(op: Op): Kind
    requires Appends(op)
  {
    if op.Append? then op.kind else if op.RecordDecision? then Routing else Finalization
  }

  /** The i-th operation took a sequence number. */
  ghost predicate Took(c: Codec, ops: seq<Op>, i: int) {
    && 0 <= i < |ops| && After(c, ops[..i]).Some? && After(c, ops[..i + 1]).Some?
    && After(c, ops[..i + 1]).value.sequence != After(c, ops[..i]).value.sequence
  }

  ghost predicate KeyTaken(c: Codec, ops: seq<Op>, key: string) {
    exists i :: 0 <= i < |ops| && Took(c, ops, i) && KeyOf(ops[i]) == Some(key)
  }

  ghost predicate Ended(ops: seq<Op>) { exists i :: 0 <= i < |ops| && ops[i].FinalizeEnds? }

  /** The first decision recorded, which every other is compared with. */
  function FirstDecision(ops: seq<Op>): Option<string> {
    if ops == [] then None
    else
      var last := ops[|ops| - 1];
      if FirstDecision(ops[..|ops| - 1]).None? && last.RecordDecision? then Some(last.decisionId)
      else FirstDecision(ops[..|ops| - 1])
  }

  /** A payload takes a number unless the attempt has ended, its key has one, or it is that of another decision. */
  ghost predicate Due(c: Codec, ops: seq<Op>, op: Op) {
    && Appends(op) && !Ended(ops) && (KeyOf(op).Some? ==> !KeyTaken(c, ops, KeyOf(op).value))
    && (op.RecordDecision? && FirstDecision(ops).Some? ==> FirstDecision(ops).value == op.decisionId)
  }

  /** What a step does to numbers, keys and the decision. */
  lemma StepTakes(c: Codec, s: State, op: Op)
    requires Step(c, s, op).Some?
    ensures var r, key := Step(c, s, op).value, KeyOf(op);
      var due := Appends(op) && !s.finalized && (key.Some? ==> key.value !in s.dedupe)
        && (op.RecordDecision? && s.decision.Some? ==> s.decision.value == op.decisionId);
      && r.sequence == s.sequence + (if due then 1 else 0)
      && r.dedupe == s.dedupe + (if due && key.Some? then {key.value} else {})
      && r.decision == (if s.decision.None? && op.RecordDecision? then Some(op.decisionId) else s.decision)
      && r.finalized == (s.finalized || op.FinalizeEnds?)
      && Added(c, s, op)
        == if due && c.valid(KindOf(op), op.payload) then [Event(s.sequence + 1, KindOf(op), op.payload)] else []
  {
    if !Appends(op) {
      hide AppendEvent, Outcome, KeyOf;
    } else if op.Append? {
      AppendTakes(c, s, op.kind, op.payload, op.key);
    } else if op.FinalizeStarts? {
      AppendTakes(c, s, Finalization, op.payload, None);
    } else {
      AppendTakes(c, s.(decision := Some(op.decisionId)), Routing, op.payload, DecisionKey(op.decisionId));
    }
    hide AppendEvent;
  }

  lemma AppendTakes(c: Codec, s: State, kind: Kind, payload: string, key: Option<string>)
    ensures var r := AppendEvent(c, s, kind, payload, key);
      var due := !s.finalized && (key.Some? ==> key.value !in s.dedupe);
      && r.sequence == s.sequence + (if due then 1 else 0)
      && r.dedupe == s.dedupe + (if due && key.Some? then {key.value} else {})
      && r.decision == s.decision && r.finalized == s.finalized
  {
  }

  lemma TookBefore(c: Codec, ops: seq<Op>, op: Op, i: int)
    requires After(c, ops + [op]).Some?
    ensures After(c, ops).Some? && Step(c, After(c, ops).value, op) == After(c, ops + [op])
    ensures i < |ops| ==> (Took(c, ops + [op], i) <==> Took(c, ops, i))
    ensures Took(c, ops + [op], |ops|) <==> After(c, ops + [op]).value.sequence != After(c, ops).value.sequence
  {
    assert (ops + [op])[..|ops|] == ops && (ops + [op])[..|ops| + 1] == ops + [op];
    if 0 <= i < |ops| {
      assert (ops + [op])[..i] == ops[..i] && (ops + [op])[..i + 1] == ops[..i + 1];
    }
  }

  lemma KeyTakenSnoc(c: Codec, ops: seq<Op>, op: Op, key: string)
    requires After(c, ops + [op]).Some?
    ensures KeyTaken(c, ops + [op], key) <==>
      KeyTaken(c, ops, key) || (Took(c, ops + [op], |ops|) && KeyOf(op) == Some(key))
  {
    hide After, Took, KeyOf;
    var all := ops + [op];
    TookBefore(c, ops, op, 0);
    if i :| 0 <= i < |ops| && Took(c, ops, i) && KeyOf(ops[i]) == Some(key) {
      TookBefore(c, ops, op, i);
      assert all[i] == ops[i];
      assert Took(c, all, i) && KeyOf(all[i]) == Some(key);
    }
    if i :| 0 <= i < |all| && Took(c, all, i) && KeyOf(all[i]) == Some(key) {
      TookBefore(c, ops, op, i);
      assert i < |ops| ==> all[i] == ops[i];
    }
    assert all[|ops|] == op;
  }

  lemma EndedSnoc(ops: seq<Op>, op: Op)
    ensures Ended(ops + [op]) <==> Ended(ops) || op.FinalizeEnds?
  {
    var all := ops + [op];
    assert all[|ops|] == op;
    if i :| 0 <= i < |ops| && ops[i].FinalizeEnds? {
      assert all[i].FinalizeEnds?;
    }
  }

  /** The store's fields say exactly which keys have a number, what was decided first, and whether it ended. */
  lemma {:induction false} RunTakes(c: Codec, ops: seq<Op>)
    requires After(c, ops).Some?
    ensures var s := After(c, ops).value;
      && (forall key :: key in s.dedupe <==> KeyTaken(c, ops, key))
      && s.decision == FirstDecision(ops) && (s.finalized <==> Ended(ops))
  {
    if ops == [] {
      assert After(c, ops) == Some(EMPTY);
    } else {
      var init, op := ops[..|ops| - 1], ops[|ops| - 1];
      assert ops == init + [op];
      hide *;
      TookBefore(c, init, op, 0);
      RunTakes(c, init);
      StepTakes(c, After(c, init).value, op);
      EndedSnoc(init, op);
      FirstSnoc(init, op);
      forall key ensures key in After(c, ops).value.dedupe <==> KeyTaken(c, ops, key) {
        KeyTakenSnoc(c, init, op, key);
      }
    }
  }

  lemma FirstSnoc(ops: seq<Op>, op: Op)
    ensures FirstDecision(ops + [op])
      == if FirstDecision(ops).None? && op.RecordDecision? then Some(op.decisionId) else FirstDecision(ops)
  {
    assert (ops + [op])[..|ops|] == ops;
  }

  /** Exactly when an operation takes a number and adds an event: only the first payload of a key, of the first
      decision, and before the attempt has ended; and a valid one is then added under the next number. */
  lemma TakesIff(c: Codec, ops: seq<Op>, op: Op)
    requires After(c, ops + [op]).Some?
    ensures After(c, ops).Some?
    ensures var s := After(c, ops).value;
      && After(c, ops + [op]).value.sequence == s.sequence + (if Due(c, ops, op) then 1 else 0)
      && AcceptedEvents(c, ops + [op]) == AcceptedEvents(c, ops)
        + (if Due(c, ops, op) && c.valid(KindOf(op), op.payload)
           then [Event(s.sequence + 1, KindOf(op), op.payload)] else [])
  {
    hide After, AcceptedEvents, Step, KeyTaken, Ended, Added, Took, FirstDecision, KeyOf, KindOf, Appends;
    AcceptedSnoc(c, ops, op);
    RunTakes(c, ops);
    StepTakes(c, After(c, ops).value, op);
  }

  lemma AcceptedSnoc(c: Codec, ops: seq<Op>, op: Op)
    requires After(c, ops + [op]).Some?
    ensures After(c, ops).Some? && Step(c, After(c, ops).value, op) == After(c, ops + [op])
    ensures AcceptedEvents(c, ops + [op]) == AcceptedEvents(c, ops) + Added(c, After(c, ops).value, op)
  {
    assert (ops + [op])[..|ops|] == ops;
    hide Step, Added;
  }

  /** Of all operations with one key at most one ever takes a number. */
  lemma OneNumberPerKey(c: Codec, ops: seq<Op>, i: int, j: int)
    requires After(c, ops).Some? && Took(c, ops, i) && Took(c, ops, j)
    requires KeyOf(ops[i]).Some? && KeyOf(ops[i]) == KeyOf(ops[j])
    ensures i == j
  {
    if i < j {
      LaterIsIgnored(c, ops, i, j);
    } else if j < i {
      LaterIsIgnored(c, ops, j, i);
    }
  }

  lemma LaterIsIgnored(c: Codec, ops: seq<Op>, i: int, j: int)
    requires 0 <= i < j < |ops| && Took(c, ops, i) && KeyOf(ops[i]).Some? && KeyOf(ops[i]) == KeyOf(ops[j])
    ensures !Took(c, ops, j)
  {
    if Took(c, ops, j) {
      var before := ops[..j];
      assert before + [ops[j]] == ops[..j + 1];
      assert before[..i] == ops[..i] && before[..i + 1] == ops[..i + 1];
      assert Took(c, before, i) && before[i] == ops[i];
      assert KeyTaken(c, before, KeyOf(ops[i]).value);
      TakesIff(c, before, ops[j]);
    }
  }

  /** However often decisions are recorded, at most one of the operations takes a number. */
  lemma OneDecision(c: Codec, ops: seq<Op>, i: int, j: int)
    requires After(c, ops).Some? && Took(c, ops, i) && Took(c, ops, j)
    requires ops[i].RecordDecision? && ops[j].RecordDecision?
    ensures i == j
  {
    if ops[i].decisionId == ops[j].decisionId {
      OneNumberPerKey(c, ops, i, j);
    } else {
      DecisionIsFirst(c, ops, i);
      DecisionIsFirst(c, ops, j);
    }
  }

  lemma {:induction false} FirstStays(ops: seq<Op>, n: nat)
    requires n <= |ops| && FirstDecision(ops[..n]).Some?
    ensures FirstDecision(ops) == FirstDecision(ops[..n])
  {
    if n < |ops| {
      assert ops[..|ops| - 1][..n] == ops[..n];
      FirstStays(ops[..|ops| - 1], n);
    } else {
      assert ops[..n] == ops;
    }
  }

  lemma DecisionIsFirst(c: Codec, ops: seq<Op>, i: int)
    requires Took(c, ops, i) && ops[i].RecordDecision?
    ensures FirstDecision(ops) == Some(ops[i].decisionId)
  {
    assert ops[..i] + [ops[i]] == ops[..i + 1];
    assert ops[..i + 1][..i] == ops[..i];
    TakesIff(c, ops[..i], ops[i]);
    FirstStays(ops, i + 1);
  }

  // ----- numbers -----

  /** Numbers are missing exactly where payloads were rejected: the first `clean` events have their
      position as number, later ones a higher one. */
  ghost predicate Numbers(s: State, all: seq<Event>, rejected: bool, clean: nat) {
    && |all| <= s.sequence && (rejected <==> |all| < s.sequence)
    && clean <= |all| && (!rejected ==> clean == |all|)
    && forall i :: 0 <= i < |all| ==> all[i].sequence > i && (all[i].sequence == i + 1 <==> i < clean)
  }

  lemma StepSequence(c: Codec, s: State, op: Op)
    requires Step(c, s, op).Some?
    ensures Step(c, s, op).value.sequence == s.sequence + (if OutcomeOf(c, s, op).Ignored? then 0 else 1)
  {
  }

  lemma {:induction false} RunNumbers(c: Codec, ops: seq<Op>)
    requires After(c, ops).Some?
    ensures Numbers(After(c, ops).value, AcceptedEvents(c, ops), SomeRejected(c, ops), Clean(c, ops))
    ensures HasGap(c, ops) <==> Clean(c, ops) < |AcceptedEvents(c, ops)|
  {
    if ops != [] {
      RunNumbers(c, ops[..|ops| - 1]);
      StepSequence(c, After(c, ops[..|ops| - 1]).value, ops[|ops| - 1]);
      hide Step, OutcomeOf;
    }
  }

  // ----- what is on disk, and what reading it returns -----

  /** The file after some operations, when a crash cuts the next line after `n` bytes. */
  function OnDisk(c: Codec, s: State, n: nat): string {
    Render(c, s.logged) + LastPart(c, s, n)
  }

  function LastPart(c: Codec, s: State, n: nat): string {
    if s.broken || s.pending == [] || n > |c.encode(s.pending[0])| then s.tail else c.encode(s.pending[0])[..n]
  }

  lemma {:induction false} RenderPrefix(c: Codec, events: seq<Event>, k: nat)
    requires k <= |events|
    ensures Render(c, events[..k]) <= Render(c, events)
  {
    if k < |events| {
      assert events[..|events| - 1][..k] == events[..k];
      RenderPrefix(c, events[..|events| - 1], k);
    } else {
      assert events[..k] == events;
    }
  }

  /** The log and part of the line that comes next. */
  lemma CutIsPrefix(c: Codec, events: seq<Event>, k: nat, part: string)
    requires k < |events| && part <= c.encode(events[k])
    ensures Render(c, events[..k]) + part <= Render(c, events)
  {
    RenderPrefix(c, events, k + 1);
    assert events[..k + 1][..k] == events[..k];
    assert Render(c, events[..k + 1]) == Render(c, events[..k]) + Line(c, events[k]);
  }

  /** At every moment, also after a failed write, and wherever a crash cuts a line, the file is an initial
      part of the accepted events' lines, in their order. */
  lemma DiskIsPrefix(c: Codec, ops: seq<Op>, n: nat)
    requires After(c, ops).Some?
    ensures OnDisk(c, After(c, ops).value, n) <= Render(c, AcceptedEvents(c, ops))
  {
    RunInOrder(c, ops);
    var s, all := After(c, ops).value, AcceptedEvents(c, ops);
    assert s.logged == all[..|s.logged|];
    var part := LastPart(c, s, n);
    if part == "" {
      RenderPrefix(c, all, |s.logged|);
      assert OnDisk(c, s, n) == Render(c, s.logged);
    } else {
      assert !s.broken ==> s.pending[0] == all[|s.logged|];
      CutIsPrefix(c, all, |s.logged|, part);
    }
  }

  /** Fed only valid payloads, a store leaves on disk, at every moment and wherever a crash cuts a line,
      a log whose every byte prefix reads as the events whose newline it holds. */
  lemma ValidPayloadsReadable(c: Codec, ops: seq<Op>, n: nat, p: nat, resultExists: bool)
    requires Faithful(c) && After(c, ops).Some? && !SomeRejected(c, ops)
    requires p <= |OnDisk(c, After(c, ops).value, n)|
    ensures OnDisk(c, After(c, ops).value, n) <= Render(c, AcceptedEvents(c, ops))
    ensures OnDisk(c, After(c, ops).value, n)[..p] == Render(c, AcceptedEvents(c, ops))[..p]
    ensures exists k :: ReadsFirst(c, AcceptedEvents(c, ops), p, k, resultExists)
  {
    DiskIsPrefix(c, ops, n);
    AllNumbered(c, ops);
    hide ReadsFirst, After, AcceptedEvents, SomeRejected, OnDisk, Render, Faithful, AllValid, Numbered;
    ReadPrefix(c, AcceptedEvents(c, ops), p, resultExists);
    SameStart(OnDisk(c, After(c, ops).value, n), Render(c, AcceptedEvents(c, ops)), p);
  }

  lemma AllNumbered(c: Codec, ops: seq<Op>)
    requires After(c, ops).Some? && !SomeRejected(c, ops)
    ensures AllValid(c, AcceptedEvents(c, ops)) && Numbered(AcceptedEvents(c, ops))
  {
    RunInOrder(c, ops);
    RunNumbers(c, ops);
    hide After, AcceptedEvents, SomeRejected, Clean, HasGap;
  }

  lemma SameStart(a: string, b: string, p: nat)
    requires a <= b && p <= |a|
    ensures a[..p] == b[..p]
  {
  }

  lemma CutOf(c: Codec, ops: seq<Op>, n: nat) returns (part: string)
    requires Faithful(c) && After(c, ops).Some?
    ensures Cut(part) && OnDisk(c, After(c, ops).value, n) == Render(c, After(c, ops).value.logged) + part
  {
    RunInOrder(c, ops);
    var s, all := After(c, ops).value, AcceptedEvents(c, ops);
    part := LastPart(c, s, n);
    if part != "" {
      assert !s.broken ==> s.pending[0] == all[|s.logged|];
      assert all[|s.logged|] in all && part <= c.encode(all[|s.logged|]);
    }
  }

  /** Exactly when the file can be read, at every moment and wherever a crash cuts a line: as long as no
      logged event was accepted after a rejected one. What is read is then all of the log. */
  lemma ReadableIff(c: Codec, ops: seq<Op>, n: nat, resultExists: bool)
    requires Faithful(c) && After(c, ops).Some?
    ensures var s := After(c, ops).value; var r := ReadAttempt(c, OnDisk(c, s, n), resultExists);
      && (r.Ok? <==> |s.logged| <= Clean(c, ops))
      && (r.Ok? ==> r.result.finalized == resultExists && r.result.events == s.logged)
      && (r.Err? ==> r.error == InvalidSequence(Clean(c, ops) + 1))
  {
    hide *;
    var s := After(c, ops).value;
    var part := CutOf(c, ops, n);
    LoggedNumbered(c, ops);
    ReadLogged(c, s.logged, part, resultExists, Clean(c, ops));
  }

  lemma ReadLogged(c: Codec, logged: seq<Event>, part: string, resultExists: bool, clean: nat)
    requires Faithful(c) && AllValid(c, logged) && Cut(part)
    requires (Numbered(logged) <==> |logged| <= clean) && (|logged| > clean ==> Misplaced(logged) == Some(clean + 1))
    ensures var r := ReadAttempt(c, Render(c, logged) + part, resultExists);
      && (r.Ok? <==> |logged| <= clean)
      && (r.Ok? ==> r.result.finalized == resultExists && r.result.events == logged)
      && (r.Err? ==> r.error == InvalidSequence(clean + 1))
  {
    ReadCut(c, logged, part, resultExists);
    hide ReadAttempt, Render, Faithful, AllValid, Numbered, Misplaced;
  }

  lemma LoggedNumbered(c: Codec, ops: seq<Op>)
    requires After(c, ops).Some?
    ensures var logged, clean := After(c, ops).value.logged, Clean(c, ops);
      && AllValid(c, logged) && (Numbered(logged) <==> |logged| <= clean)
      && (|logged| > clean ==> Misplaced(logged) == Some(clean + 1))
  {
    var s, all := After(c, ops).value, AcceptedEvents(c, ops);
    RunInOrder(c, ops);
    RunNumbers(c, ops);
    LoggedNumbers(s, all, SomeRejected(c, ops), Clean(c, ops));
    hide After, AcceptedEvents, SomeRejected, Clean, Numbers, Misplaced, Numbered;
    forall e | e in s.logged ensures Valid(c, e) {
      assert e in all;
    }
  }

  lemma LoggedNumbers(s: State, all: seq<Event>, rejected: bool, clean: nat)
    requires s.logged <= all && Numbers(s, all, rejected, clean)
    ensures Numbered(s.logged) <==> |s.logged| <= clean
    ensures |s.logged| > clean ==> Misplaced(s.logged) == Some(clean + 1)
  {
    assert forall i :: 0 <= i < |s.logged| ==> s.logged[i] == all[i];
    if |s.logged| > clean {
      assert s.logged[clean].sequence != clean + 1;
      FirstMisplaced(s.logged, clean);
    }
  }

  lemma {:induction false} FirstMisplaced(events: seq<Event>, k: nat)
    requires k < |events| && events[k].sequence != k + 1 && forall i :: 0 <= i < k ==> events[i].sequence == i + 1
    ensures Misplaced(events) == Some(k + 1)
  {
    var init := events[..|events| - 1];
    if k < |init| {
      FirstMisplaced(init, k);
    } else {
      MisplacedIff(init);
    }
  }

  /** Once the queue is drained, the log can be read exactly if no payload was accepted after another
      had been rejected: the rejected one leaves a gap that reading refuses. */
  lemma DrainedReadableIff(c: Codec, ops: seq<Op>, resultExists: bool)
    requires Faithful(c) && After(c, ops).Some?
    requires After(c, ops).value.pending == [] && !After(c, ops).value.broken
    ensures ReadAttempt(c, OnDisk(c, After(c, ops).value, 0), resultExists).Ok? <==> !HasGap(c, ops)
  {
    RunInOrder(c, ops);
    RunNumbers(c, ops);
    ReadableIff(c, ops, 0, resultExists);
  }

  /** In any crash state where `run.json` exists, the log already holds the finalization event, and a
      log that can be read shows it. */
  lemma ResultAfterFinalization(c: Codec, ops: seq<Op>, n: nat)
    requires Faithful(c) && After(c, ops).Some? && After(c, ops).value.result
    ensures var s := After(c, ops).value; var r := ReadAttempt(c, OnDisk(c, s, n), s.result);
      && FinalizedIn(s.logged)
      && (r.Ok? ==> r.result.finalized && r.result.events == s.logged)
  {
    RunInOrder(c, ops);
    ReadableIff(c, ops, n, true);
  }

  lemma Snoc(c: Codec, ops: seq<Op>, op: Op)
    requires After(c, ops).Some?
    ensures After(c, ops + [op]) == Step(c, After(c, ops).value, op)
    ensures After(c, ops + [op]).Some? ==>
      && AcceptedEvents(c, ops + [op]) == AcceptedEvents(c, ops) + Added(c, After(c, ops).value, op)
      && (HasGap(c, ops + [op]) <==>
          HasGap(c, ops) || (SomeRejected(c, ops) && OutcomeOf(c, After(c, ops).value, op).Accepted?))
      && (SomeRejected(c, ops + [op]) <==> SomeRejected(c, ops) || OutcomeOf(c, After(c, ops).value, op).Rejected?)
  {
    assert (ops + [op])[..|ops|] == ops;
  }

  /** One rejected and one accepted payload: the drained log is refused at its first line. */
  lemma GapRun(c: Codec, bad: string, good: string, resultExists: bool)
    requires Faithful(c) && !c.valid(OtherKind, bad) && c.valid(OtherKind, good)
    ensures var ops := [Append(OtherKind, bad, None), Append(OtherKind, good, None), WriteNext];
      && After(c, ops).Some? && HasGap(c, ops)
      && var s := After(c, ops).value;
      && s.pending == [] && !s.broken && s.logged == [Event(2, OtherKind, good)]
      && ReadAttempt(c, OnDisk(c, s, 0), resultExists) == Err(InvalidSequence(1))
  {
    var e0, e1, e2 := Append(OtherKind, bad, None), Append(OtherKind, good, None), WriteNext;
    assert [] + [e0] == [e0] && [e0] + [e1] == [e0, e1] && [e0, e1] + [e2] == [e0, e1, e2];
    Snoc(c, [], e0);
    Snoc(c, [e0], e1);
    Snoc(c, [e0, e1], e2);
    ReadableIff(c, [e0, e1, e2], 0, resultExists);
    RunNumbers(c, [e0, e1, e2]);
  }

  // ----- the store itself -----

  /** `AttemptArtifactStore`; the write queue's steps are methods of their own. */
  class AttemptStore {
    const codec: Codec
    var logged: seq<Event>
    var tail: string
    var queue: seq<Event>
    var broken: bool
    var sequence: nat
    var dedupe: set<string>
    var decision: Option<string>
    var finalizing: set<nat>
    var drained: set<nat>
    var result: bool
    var finalized: bool

    function View(): State
      reads this
    {
      State(logged, tail, queue, broken, sequence, dedupe, decision, finalizing, drained, result, finalized)
    }

    constructor (codec: Codec)
      ensures this.codec == codec && View() == EMPTY
    {
      this.codec := codec;
      logged, tail, queue, broken, sequence, dedupe := [], "", [], false, 0, {};
      decision, finalizing, drained, result, finalized := None, {}, {}, false, false;
    }

    method AppendEvent(kind: Kind, payload: string, key: Option<string>) returns (outcome: Appended)
      modifies this
      ensures Step(codec, old(View()), Append(kind, payload, key)) == Some(View())
      ensures outcome == OutcomeOf(codec, old(View()), Append(kind, payload, key))
    {
      if finalized {
        return Ignored;
      }
      if key.Some? && key.value in dedupe {
        return Ignored;
      }
      sequence := sequence + 1;
      if key.Some? {
        dedupe := dedupe + {key.value};
      }
      if !codec.valid(kind, payload) {
        return Rejected;
      }
      queue := queue + [Event(sequence, kind, payload)];
      outcome := Accepted;
    }

    /** False where a second, different decision is refused. */
    method RecordRoutingDecision(decisionId: string, payload: string) returns (recorded: bool)
      modifies this
      ensures Step(codec, old(View()), RecordDecision(decisionId, payload)) == Some(View())
      ensures recorded == !OtherDecision(old(View()), decisionId)
    {
      if decision.Some? && decision.value != decisionId {
        return false;
      }
      decision := Some(decisionId);
      var outcome := AppendEvent(Routing, payload, DecisionKey(decisionId));
      recorded := true;
    }

    /** One task of the write queue; `failsAfter` is None if the line was written and synced. */
    method WriteNextLine(failsAfter: Option<nat>)
      requires !broken && queue != []
      requires failsAfter.Some? ==> failsAfter.value <= |Line(codec, queue[0])|
      modifies this
      ensures Step(codec, old(View()), if failsAfter.None? then WriteNext else WriteFails(failsAfter.value))
        == Some(View())
    {
      var line := Line(codec, queue[0]);
      broken := failsAfter.Some?;
      if failsAfter.Some? && failsAfter.value < |line| {
        tail := line[..failsAfter.value];
      } else {
        logged := logged + [queue[0]];
      }
      queue := queue[1..];
    }

    method BeginFinalization(payload: string) returns (outcome: Appended)
      modifies this
      ensures Step(codec, old(View()), FinalizeStarts(payload)) == Some(View())
      ensures outcome == OutcomeOf(codec, old(View()), FinalizeStarts(payload))
    {
      outcome := AppendEvent(Finalization, payload, None);
      if outcome.Accepted? {
        finalizing := finalizing + {sequence};
      }
    }

    /** `await this.queue` returns after `appendEvent`. */
    method QueueAwaited(number: nat)
      requires number in finalizing && !broken && Drained(queue, number)
      modifies this
      ensures Step(codec, old(View()), FinalizeDrains(number)) == Some(View())
    {
      drained := drained + {number};
    }

    method WriteResult(number: nat)
      requires number in drained
      modifies this
      ensures Step(codec, old(View()), FinalizeWrites(number)) == Some(View())
    {
      result := true;
    }

    method EndFinalization()
      requires result
      modifies this
      ensures Step(codec, old(View()), FinalizeEnds) == Some(View())
    {
      finalized := true;
    }
  }
}
