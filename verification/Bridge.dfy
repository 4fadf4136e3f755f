/** The decision protocol between src/bridge/client.ts and rust/switchyard-bridge/src/main.rs: two processes,
    one FIFO pipe each way, cancellation, and frames left over from earlier calls. The Switchyard library
    calls the bridge's callback as often as it likes, before it decides or fails; either drops every
    callback that still waits. */
module Bridge {
  import opened Wrappers

  datatype Alias = Weak | Strong

  datatype Evidence = ValidatedVerdict(weakSolveProbability: real) | Fallback(reason: string)

  datatype Decision = Decision(decisionId: string, selectedAlias: Alias, evidence: Evidence)

  /** What `callClassifier` returned: a response or a model error. */
  datatype Answer = Response(text: string) | ModelError(kind: string, message: string)

  datatype InputFrame =
    | Start(decisionId: string)
    | Answered(decisionId: string, callId: nat, answer: Answer)
    | Cancel(decisionId: string)

  datatype OutputFrame =
    | Ready
    | CallModel(decisionId: string, callId: nat)
    | Decided(decision: Decision)
    | Error(failed: Option<string>)

  function FrameId(f: OutputFrame): Option<string> {
    match f
    case Ready => None
    case CallModel(id, _) => Some(id)
    case Decided(d) => Some(d.decisionId)
    case Error(id) => id
  }

  /** The part of `parseFrame` that depends on what the bridge put into the frame. */
  predicate ValidFrame(f: OutputFrame) {
    match f
    case Ready => true
    case CallModel(id, _) => id != ""
    case Error(id) => id.Some? && id.value != ""
    case Decided(d) =>
      d.decisionId != "" &&
      (match d.evidence
       case Fallback(reason) => reason == "invalid_verdict" && d.selectedAlias.Strong?
       case ValidatedVerdict(p) => 0.0 <= p <= 1.0)
  }

  // ----- the client: one frame at a time -----

  /** `AwaitFrame` remembers the call it has answered; `AwaitClassifier` the one it is answering. */
  datatype Client = ClientIdle | AwaitFrame(id: string, called: bool) | AwaitClassifier(id: string, callId: nat)

  datatype Reaction = Continues | Returns(decision: Decision) | Throws

  /** What the read loop of `resolveDecision` does with the next frame. */
  function React(id: string, called: bool, f: OutputFrame): (Client, Reaction) {
    if !ValidFrame(f) || (FrameId(f).Some? && FrameId(f).value != id) then (ClientIdle, Throws)
    else
      match f
      case CallModel(_, callId) => if called then (ClientIdle, Throws) else (AwaitClassifier(id, callId), Continues)
      case Decided(d) => (ClientIdle, if called then Returns(d) else Throws)
      case _ => (ClientIdle, Throws)
  }

  // ----- the bridge -----

  /** While serving, `waiting` holds the calls whose callback waits for the next input frame. */
  datatype Server = ServerIdle | Serving(id: string, calls: nat, waiting: set<nat>)

  /** What the main loop does with a frame: it serves a start frame and answers any other with an error
      that names no decision. */
  function MainTakes(f: InputFrame): (Server, Option<OutputFrame>) {
    if f.Start? then (Serving(f.decisionId, 0, {}), None) else (ServerIdle, Some(Error(None)))
  }

  /** What a waiting callback hands to the library for the next frame: an answer to its own call, else an error. */
  function CallbackTakes(id: string, call: nat, f: InputFrame): Option<Answer> {
    if f.Answered? && f.decisionId == id && f.callId == call then Some(f.answer) else None
  }

  /** An emitted frame and the decision that was being served when it was written. */
  datatype Sent = Sent(frame: OutputFrame, server: Option<string>)

  /** `output` is everything the bridge ever wrote, of which the client has read `consumed` frames.
      `invoked`, `gave` and `got` record classifier calls, what they returned and what the library received;
      `fired` and `clean` describe the running call: its signal fired, and both pipes were empty at its start. */
  datatype State = State(
    client: Client, server: Server, input: seq<InputFrame>, output: seq<Sent>, consumed: nat,
    begun: set<string>, served: set<string>, invoked: seq<string>, gave: map<string, Answer>, got: map<string, Answer>,
    fired: bool, clean: bool)

  datatype Event =
    | Begin(id: string)
    | Abort
    | Receive(reaction: Reaction)
    | ClassifierReturns(answer: Answer)
    | ClientThrows
    | MainReads
    | LibraryCalls
    | LibraryCallRefused
    | CallbackReads(call: nat)
    | LibraryDecides(alias: Alias, evidence: Evidence)
    | LibraryFails

  const INITIAL := State(ClientIdle, ServerIdle, [], [], 0, {}, {}, [], map[], map[], false, false)

  function ServedId(s: State): Option<string> { if s.server.Serving? then Some(s.server.id) else None }

  function Write(s: State, f: OutputFrame): State { s.(output := s.output + [Sent(f, ServedId(s))]) }

  function ClientStep(s: State, e: Event): Option<State>
    requires e.Begin? || e.Abort? || e.Receive? || e.ClassifierReturns? || e.ClientThrows?
  {
    match e
    case Begin(id) =>
      if !s.client.ClientIdle? || id in s.begun then None
      else Some(s.(client := AwaitFrame(id, false), input := s.input + [Start(id)], begun := s.begun + {id},
                   fired := false, clean := s.input == [] && s.consumed == |s.output|))
    case Abort =>
      if s.client.ClientIdle? || s.fired then None
      else Some(s.(input := s.input + [Cancel(s.client.id)], fired := true))
    case Receive(reaction) =>
      if !s.client.AwaitFrame? || s.consumed >= |s.output| then None
      else
        var (client, r) := React(s.client.id, s.client.called, s.output[s.consumed].frame);
        if r != reaction then None
        else Some(s.(client := client, consumed := s.consumed + 1,
                     invoked := if client.AwaitClassifier? then s.invoked + [s.client.id] else s.invoked))
    case ClassifierReturns(answer) =>
      if !s.client.AwaitClassifier? then None
      else Some(s.(client := AwaitFrame(s.client.id, true), gave := s.gave[s.client.id := answer],
                   input := s.input + [Answered(s.client.id, s.client.callId, answer)]))
    case ClientThrows => if s.client.ClientIdle? then None else Some(s.(client := ClientIdle))
  }

  function ServerStep(s: State, e: Event): Option<State>
    requires !(e.Begin? || e.Abort? || e.Receive? || e.ClassifierReturns? || e.ClientThrows?)
  {
    match e
    case MainReads =>
      if !s.server.ServerIdle? || s.input == [] then None
      else
        var (server, reply) := MainTakes(s.input[0]);
        var rest := s.(input := s.input[1..]);
        if reply.Some? then Some(Write(rest, reply.value))
        else Some(rest.(server := server, served := s.served + {s.input[0].decisionId}))
    case LibraryCalls =>
      if !s.server.Serving? then None
      else
        var call := s.server.calls + 1;
        Some(Write(s, CallModel(s.server.id, call)).(server := Serving(s.server.id, call, s.server.waiting + {call})))
    case LibraryCallRefused =>
      if !s.server.Serving? then None else Some(s.(server := s.server.(calls := s.server.calls + 1)))
    case CallbackReads(call) =>
      if !s.server.Serving? || call !in s.server.waiting || s.input == [] then None
      else
        var answer := CallbackTakes(s.server.id, call, s.input[0]);
        Some(s.(input := s.input[1..], server := s.server.(waiting := s.server.waiting - {call}),
                got := if answer.Some? then s.got[s.server.id := answer.value] else s.got))
    case LibraryDecides(alias, evidence) =>
      if !s.server.Serving? then None
      else Some(Write(s, Decided(Decision(s.server.id, alias, evidence))).(server := ServerIdle))
    case LibraryFails =>
      if !s.server.Serving? then None
      else Some(Write(s, Error(Some(s.server.id))).(server := ServerIdle))
  }

  function Step(s: State, e: Event): Option<State> {
    if e.Begin? || e.Abort? || e.Receive? || e.ClassifierReturns? || e.ClientThrows? then ClientStep(s, e)
    else ServerStep(s, e)
  }

  function After(events: seq<Event>): Option<State> {
    if events == [] then Some(INITIAL)
    else
      match After(events[..|events| - 1])
      case None => None
      case Some(s) => Step(s, events[|events| - 1])
  }

  // ----- what is known about frames -----

  /** Everything written names a decision that was begun; a decision is served at most once, and only
      while it is served does the bridge write frames about it. */
  ghost predicate Named(s: State) {
    && s.consumed <= |s.output|
    && (!s.client.ClientIdle? ==> s.client.id in s.begun)
    && (forall i :: 0 <= i < |s.input| ==> s.input[i].decisionId in s.begun)
    && s.served <= s.begun && (s.server.Serving? ==> s.server.id in s.served)
    && (forall i :: 0 <= i < |s.input| && s.input[i].Start? ==> s.input[i].decisionId !in s.served)
    && (forall i, j :: 0 <= i < j < |s.input| && s.input[i].Start? && s.input[j].Start? ==> s.input[i] != s.input[j])
    && NamedFrames(s)
  }

  ghost predicate NamedFrames(s: State) {
    forall i :: 0 <= i < |s.output| && FrameId(s.output[i].frame).Some? ==>
      s.output[i].server == FrameId(s.output[i].frame) && s.output[i].server.value in s.served
  }

  predicate Final(f: OutputFrame) { f.Decided? || f.Error? }

  /** After the frame that ends a decision, the bridge neither serves it nor writes about it again. */
  ghost predicate EndsOnce(s: State) {
    && (forall i :: 0 <= i < |s.output| && Final(s.output[i].frame) && s.server.Serving? ==>
          FrameId(s.output[i].frame) != Some(s.server.id))
    && (forall i, j :: 0 <= i < j < |s.output| && Final(s.output[i].frame) && FrameId(s.output[i].frame).Some? ==>
          FrameId(s.output[j].frame) != FrameId(s.output[i].frame))
  }

  lemma ClientNamed(s: State, e: Event)
    requires e.Begin? || e.Abort? || e.Receive? || e.ClassifierReturns? || e.ClientThrows?
    requires Named(s) && EndsOnce(s) && ClientStep(s, e).Some?
    ensures Named(ClientStep(s, e).value) && EndsOnce(ClientStep(s, e).value)
  {
  }

  lemma MainReadsFrames(s: State)
    requires NamedFrames(s) && ServerStep(s, MainReads).Some?
    ensures NamedFrames(ServerStep(s, MainReads).value)
  {
  }

  lemma MainReadsNamed(s: State)
    requires Named(s) && ServerStep(s, MainReads).Some?
    ensures Named(ServerStep(s, MainReads).value)
  {
    MainReadsFrames(s);
    hide NamedFrames;
    var r := ServerStep(s, MainReads).value;
    assert forall i :: 0 <= i < |r.input| ==> r.input[i] == s.input[i + 1];
  }

  lemma CallbackReadsNamed(s: State, call: nat)
    requires Named(s) && ServerStep(s, CallbackReads(call)).Some?
    ensures Named(ServerStep(s, CallbackReads(call)).value)
  {
  }

  lemma WritesNamed(s: State, e: Event)
    requires e.LibraryCalls? || e.LibraryCallRefused? || e.LibraryDecides? || e.LibraryFails?
    requires Named(s) && ServerStep(s, e).Some?
    ensures Named(ServerStep(s, e).value)
  {
  }

  lemma ServerEndsOnce(s: State, e: Event)
    requires !(e.Begin? || e.Abort? || e.Receive? || e.ClassifierReturns? || e.ClientThrows?)
    requires Named(s) && EndsOnce(s) && ServerStep(s, e).Some?
    ensures EndsOnce(ServerStep(s, e).value)
  {
  }

  // ----- classifier calls and their answers -----

  function CallCount(id: string, sent: seq<Sent>): nat {
    if sent == [] then 0
    else
      var last := sent[|sent| - 1].frame;
      CallCount(id, sent[..|sent| - 1]) + (if last.CallModel? && last.decisionId == id then 1 else 0)
  }

  function Occurrences(id: string, ids: seq<string>): nat {
    if ids == [] then 0 else Occurrences(id, ids[..|ids| - 1]) + (if ids[|ids| - 1] == id then 1 else 0)
  }

  lemma {:induction false} NoOccurrence(id: string, ids: seq<string>)
    requires id !in ids
    ensures Occurrences(id, ids) == 0
  {
    if ids != [] {
      NoOccurrence(id, ids[..|ids| - 1]);
    }
  }

  lemma {:induction false} NoCalls(id: string, sent: seq<Sent>)
    requires forall i :: 0 <= i < |sent| ==> FrameId(sent[i].frame) != Some(id)
    ensures CallCount(id, sent) == 0
  {
    if sent != [] {
      NoCalls(id, sent[..|sent| - 1]);
    }
  }

  lemma OccurrencesSnoc(id: string, ids: seq<string>, x: string)
    ensures Occurrences(id, ids + [x]) == Occurrences(id, ids) + (if x == id then 1 else 0)
  {
    assert (ids + [x])[..|ids|] == ids;
  }

  /** How often the client has seen a call, and called the classifier, for its current decision. */
  ghost predicate Counted(s: State) {
    && s.consumed <= |s.output|
    && (forall i :: 0 <= i < |s.invoked| ==> s.invoked[i] in s.begun)
    && (!s.client.ClientIdle? ==>
          var calls := if s.client.AwaitFrame? && !s.client.called then 0 else 1;
          CallCount(s.client.id, s.output[..s.consumed]) == calls && Occurrences(s.client.id, s.invoked) == calls)
  }

  /** Every answer under way or received is what the classifier returned for that decision. */
  ghost predicate Answers(s: State) {
    && s.gave.Keys <= s.begun
    && (s.client.AwaitClassifier? || (s.client.AwaitFrame? && !s.client.called) ==> s.client.id !in s.gave)
    && (forall i :: 0 <= i < |s.input| && s.input[i].Answered? ==>
          s.input[i].decisionId in s.gave && s.gave[s.input[i].decisionId] == s.input[i].answer)
    && (forall id :: id in s.got ==> id in s.gave && s.got[id] == s.gave[id])
  }

  lemma ClientAnswers(s: State, e: Event)
    requires e.Begin? || e.Abort? || e.Receive? || e.ClassifierReturns? || e.ClientThrows?
    requires Named(s) && Answers(s) && ClientStep(s, e).Some?
    ensures Answers(ClientStep(s, e).value)
  {
    hide ValidFrame;
  }

  lemma ServerAnswers(s: State, e: Event)
    requires !(e.Begin? || e.Abort? || e.Receive? || e.ClassifierReturns? || e.ClientThrows?)
    requires Answers(s) && ServerStep(s, e).Some?
    ensures Answers(ServerStep(s, e).value)
  {
  }

  lemma BeginCounted(s: State, id: string)
    requires Named(s) && Counted(s) && ClientStep(s, Begin(id)).Some?
    ensures Counted(ClientStep(s, Begin(id)).value)
  {
    NoOccurrence(id, s.invoked);
    NoCalls(id, s.output[..s.consumed]);
  }

  /** Reading a frame: a call that is accepted is the first one for its decision. */
  lemma ReceiveReads(s: State, reaction: Reaction)
    requires ClientStep(s, Receive(reaction)).Some?
    ensures s.client.AwaitFrame? && s.consumed < |s.output|
    ensures var r, f := ClientStep(s, Receive(reaction)).value, s.output[s.consumed].frame;
      && r.output == s.output && r.consumed == s.consumed + 1 && r.begun == s.begun
      && (if r.client.AwaitClassifier?
          then !s.client.called && f.CallModel? && f.decisionId == s.client.id == r.client.id
            && r.invoked == s.invoked + [s.client.id]
          else r.client.ClientIdle? && r.invoked == s.invoked)
  {
    hide ValidFrame;
  }

  lemma ReceiveCounted(s: State, reaction: Reaction)
    requires Named(s) && Counted(s) && ClientStep(s, Receive(reaction)).Some?
    ensures Counted(ClientStep(s, Receive(reaction)).value)
  {
    ReceiveReads(s, reaction);
    hide ClientStep, NamedFrames;
    assert s.output[..s.consumed + 1][..s.consumed] == s.output[..s.consumed];
    OccurrencesSnoc(s.client.id, s.invoked, s.client.id);
  }

  /** Steps that neither begin a call nor read a frame leave the counted part of the state alone. */
  lemma Unmoved(s: State, e: Event)
    requires Step(s, e).Some? && !e.Begin? && !e.Receive?
    ensures var r := Step(s, e).value;
      && s.output <= r.output && r.consumed == s.consumed && r.invoked == s.invoked && r.begun == s.begun
      && (r.client.ClientIdle? || (!s.client.ClientIdle? && r.client.id == s.client.id
            && (r.client.AwaitFrame? && !r.client.called <==> s.client.AwaitFrame? && !s.client.called)))
  {
    hide ValidFrame;
  }

  lemma StepCounted(s: State, e: Event)
    requires Named(s) && Counted(s) && Step(s, e).Some?
    ensures Counted(Step(s, e).value)
  {
    if e.Begin? {
      BeginCounted(s, e.id);
    } else if e.Receive? {
      ReceiveCounted(s, e.reaction);
    } else {
      Unmoved(s, e);
      hide Step, Named, CallCount, Occurrences;
      var r := Step(s, e).value;
      assert r.output[..s.consumed] == s.output[..s.consumed];
    }
  }

  ghost predicate Inv(s: State) { Named(s) && EndsOnce(s) && Counted(s) && Answers(s) }

  lemma StepInv(s: State, e: Event)
    requires Inv(s) && Step(s, e).Some?
    ensures Inv(Step(s, e).value)
  {
    StepCounted(s, e);
    hide Counted, Answers;
    if e.Begin? || e.Abort? || e.Receive? || e.ClassifierReturns? || e.ClientThrows? {
      ClientNamed(s, e);
      ClientAnswers(s, e);
    } else {
      ServerAnswers(s, e);
      if e.MainReads? {
        MainReadsNamed(s);
      } else if e.CallbackReads? {
        CallbackReadsNamed(s, e.call);
      } else {
        WritesNamed(s, e);
      }
      ServerEndsOnce(s, e);
    }
    hide Named, EndsOnce;
  }

  lemma {:induction false} RunInv(events: seq<Event>)
    requires After(events).Some?
    ensures Inv(After(events).value)
  {
    if events != [] {
      RunInv(events[..|events| - 1]);
      StepInv(After(events[..|events| - 1]).value, events[|events| - 1]);
    }
  }

  lemma {:induction false} CountPrefix(id: string, sent: seq<Sent>, n: nat)
    requires n <= |sent| && forall i :: n <= i < |sent| ==> FrameId(sent[i].frame) != Some(id)
    ensures CallCount(id, sent) == CallCount(id, sent[..n])
  {
    if n < |sent| {
      assert sent[..|sent| - 1][..n] == sent[..n];
      CountPrefix(id, sent[..|sent| - 1], n);
    } else {
      assert sent[..n] == sent;
    }
  }

  /** The frame that ends a decision is the last one about it. */
  lemma NothingAfter(s: State, d: Decision)
    requires EndsOnce(s) && s.consumed < |s.output| && s.output[s.consumed].frame == Decided(d)
    ensures CallCount(d.decisionId, s.output) == CallCount(d.decisionId, s.output[..s.consumed])
  {
    forall i | s.consumed < i < |s.output| ensures FrameId(s.output[i].frame) != Some(d.decisionId) {
    }
    CountPrefix(d.decisionId, s.output, s.consumed + 1);
    assert s.output[..s.consumed + 1][..s.consumed] == s.output[..s.consumed];
  }

  /** A verdict has a probability in [0, 1]; a fallback is for an invalid verdict and selects the strong model. */
  predicate WellFormed(d: Decision) {
    if d.evidence.Fallback? then d.evidence.reason == "invalid_verdict" && d.selectedAlias == Strong
    else 0.0 <= d.evidence.weakSolveProbability <= 1.0
  }

  /** A decision is returned exactly if the next frame is that decision, well formed and about this call, and
      the classifier was called before. */
  lemma ReturnsIff(s: State, d: Decision)
    ensures Step(s, Receive(Returns(d))).Some? <==>
      && s.client == AwaitFrame(d.decisionId, true) && s.consumed < |s.output|
      && s.output[s.consumed].frame == Decided(d) && d.decisionId != "" && WellFormed(d)
  {
  }

  lemma ReturnReads(s: State, d: Decision)
    requires ClientStep(s, Receive(Returns(d))).Some?
    ensures s.consumed < |s.output| && s.output[s.consumed].frame == Decided(d)
    ensures s.client == AwaitFrame(d.decisionId, true) && ValidFrame(Decided(d))
  {
  }

  /** However the two processes, the library, cancellation and leftover frames interleave: a decision
      returned for an id was written while the bridge served that id, after exactly one call for it and
      exactly one classifier invocation; it is well formed, and whatever answer the library received for
      that id is the one the classifier returned. */
  lemma ReturnedDecision(events: seq<Event>, d: Decision)
    requires After(events + [Receive(Returns(d))]).Some?
    ensures After(events).Some?
    ensures var s := After(events).value;
      && s.client == AwaitFrame(d.decisionId, true) && s.consumed < |s.output|
      && s.output[s.consumed] == Sent(Decided(d), Some(d.decisionId))
      && CallCount(d.decisionId, s.output) == CallCount(d.decisionId, s.output[..s.consumed]) == 1
      && Occurrences(d.decisionId, s.invoked) == 1
      && d.decisionId != "" && WellFormed(d)
      && (d.decisionId in s.got ==> d.decisionId in s.gave && s.got[d.decisionId] == s.gave[d.decisionId])
  {
    assert (events + [Receive(Returns(d))])[..|events|] == events;
    RunInv(events);
    var s := After(events).value;
    ReturnReads(s, d);
    NothingAfter(s, d);
    hide After, Step, EndsOnce, CallCount, Occurrences, ValidFrame;
    assert NamedFrames(s);
  }

  // ----- a call that starts on empty pipes and is not cancelled -----

  /** What the client has not read yet. */
  function Unread(s: State): seq<Sent> { if s.consumed <= |s.output| then s.output[s.consumed..] else [] }

  /** Before the bridge took the start frame. */
  ghost predicate Offered(s: State, id: string) {
    && s.input == [Start(id)] && Unread(s) == [] && s.client == AwaitFrame(id, false)
    && (s.server.Serving? ==> s.server.id != id)
  }

  /** One call at most, from the library's request to the answer it receives. */
  ghost predicate Exchanging(s: State, id: string) {
    s.server.Serving? && s.server.id == id &&
    (match s.client
     case ClientIdle => false
     case AwaitClassifier(i, call) => i == id && s.input == [] && Unread(s) == [] && s.server.waiting == {call}
     case AwaitFrame(i, called) =>
       i == id &&
       (if !called then
          s.input == [] &&
          (if s.server.waiting == {} then Unread(s) == []
           else exists call :: s.server.waiting == {call} && Unread(s) == [Sent(CallModel(id, call), Some(id))])
        else
          Unread(s) == [] &&
          (if s.server.waiting == {} then s.input == [] && id in s.got
           else (id !in s.got
                 && exists call, answer :: s.server.waiting == {call} && s.input == [Answered(id, call, answer)]))))
  }

  /** The library decided while its callback still waited for the answer, which nobody takes any more:
      the main loop reads it and writes an error. */
  ghost predicate Dropped(s: State, id: string) {
    s.server.ServerIdle? && id !in s.got &&
    (match s.client
     case ClientIdle => false
     case AwaitFrame(i, called) =>
       i == id &&
       if !called then s.input == [] && |Unread(s)| == 2 && Unread(s)[0].frame.CallModel? && DecidesNext(s, 1, id)
       else if s.input == [] then |Unread(s)| == 2 && DecidesNext(s, 0, id) && Unread(s)[1].frame == Error(None)
       else |s.input| == 1 && s.input[0].Answered? && |Unread(s)| == 1 && DecidesNext(s, 0, id)
     case AwaitClassifier(i, _) => i == id && s.input == [] && |Unread(s)| == 1 && DecidesNext(s, 0, id))
  }

  ghost predicate DecidesNext(s: State, k: nat, id: string)
    requires k < |Unread(s)|
  {
    Unread(s)[k].frame.Decided? && Unread(s)[k].frame.decision.decisionId == id
  }

  ghost predicate Concluded(s: State, id: string) {
    && s.server.ServerIdle? && s.input == [] && s.client == AwaitFrame(id, true) && id in s.got
    && |Unread(s)| == 1 && Unread(s)[0].frame.Decided? && Unread(s)[0].frame.decision.decisionId == id
  }

  /** The client will throw on the next frame. */
  ghost predicate ThrowsNext(s: State) {
    s.client.AwaitFrame? && s.consumed < |s.output|
      && React(s.client.id, s.client.called, s.output[s.consumed].frame).1.Throws?
  }

  /** The start frame was taken for something else, the decision failed, or a second call was made. */
  ghost predicate Failing(s: State, id: string) {
    || (id !in s.served && Start(id) !in s.input)
    || (exists i :: 0 <= i < |s.output| && s.output[i].frame == Error(Some(id)))
    || CallCount(id, s.output) > 1
  }

  ghost predicate Tidy(s: State) {
    s.consumed <= |s.output| &&
    (!s.client.ClientIdle? && s.clean && !s.fired ==>
       var id := s.client.id;
       Offered(s, id) || Exchanging(s, id) || Concluded(s, id) || Dropped(s, id) || ThrowsNext(s) || Failing(s, id))
  }

  lemma CallCountSnoc(id: string, sent: seq<Sent>, x: Sent)
    ensures CallCount(id, sent + [x])
      == CallCount(id, sent) + (if x.frame.CallModel? && x.frame.decisionId == id then 1 else 0)
  {
    assert (sent + [x])[..|sent|] == sent;
  }

  lemma OutputGrows(s: State, e: Event)
    requires Step(s, e).Some?
    ensures s.output <= Step(s, e).value.output && |Step(s, e).value.output| <= |s.output| + 1
  {
  }

  /** A start frame that is gone does not come back during the call. */
  lemma LostStays(s: State, e: Event, id: string)
    requires Named(s) && id in s.begun && Step(s, e).Some? && id !in s.served && Start(id) !in s.input
    ensures var r := Step(s, e).value; id !in r.served && Start(id) !in r.input
  {
  }

  lemma FailingStays(s: State, e: Event, id: string)
    requires Named(s) && Failing(s, id) && !s.client.ClientIdle? && s.client.id == id && Step(s, e).Some?
    ensures Failing(Step(s, e).value, id)
  {
    var r := Step(s, e).value;
    OutputGrows(s, e);
    if id !in s.served && Start(id) !in s.input {
      LostStays(s, e, id);
    }
    hide Step, Named;
    if |r.output| > |s.output| {
      assert r.output == s.output + [r.output[|s.output|]];
      CallCountSnoc(id, s.output, r.output[|s.output|]);
    } else {
      assert r.output == s.output;
    }
    if i: int :| 0 <= i < |s.output| && s.output[i].frame == Error(Some(id)) {
      assert r.output[i].frame == Error(Some(id));
    }
  }

  /** The client is still in the call it was in before the step. */
  ghost predicate Ongoing(s: State, e: Event, id: string) {
    && !s.client.ClientIdle? && s.client.id == id && Inv(s)
    && Step(s, e).Some? && !Step(s, e).value.client.ClientIdle?
  }

  ghost predicate Continuing(s: State, e: Event, id: string) { Ongoing(s, e, id) && !e.Abort? }

  /** The bridge is busy with another decision and writes about that one. */
  lemma OfferedWrites(s: State, e: Event, id: string)
    requires e.LibraryCalls? || e.LibraryDecides? || e.LibraryFails?
    requires Continuing(s, e, id) && Offered(s, id)
    ensures ThrowsNext(Step(s, e).value)
  {
    InvBounds(s);
    hide Inv;
    var r := Step(s, e).value;
    assert s.consumed == |s.output|;
    assert FrameId(r.output[s.consumed].frame) != Some(id);
  }

  /** A callback for another decision takes the start frame away. */
  lemma OfferedLost(s: State, e: Event, id: string)
    requires e.CallbackReads? && Continuing(s, e, id) && Offered(s, id)
    ensures Failing(Step(s, e).value, id)
  {
    hide EndsOnce, Answers, Counted, CallCount;
    assert s.input[0] == Start(id);
    assert Step(s, e).value.input == [];
  }

  lemma OfferedTaken(s: State, id: string)
    requires Continuing(s, MainReads, id) && Offered(s, id)
    ensures Exchanging(Step(s, MainReads).value, id)
  {
    hide Inv;
    var r := Step(s, MainReads).value;
    assert s.input[0] == Start(id);
    assert r.input == [] && Unread(r) == [];
  }

  lemma StepOffered(s: State, e: Event, id: string)
    requires Continuing(s, e, id) && Offered(s, id)
    ensures var r := Step(s, e).value; Offered(r, id) || Exchanging(r, id) || ThrowsNext(r) || Failing(r, id)
  {
    if e.CallbackReads? {
      OfferedLost(s, e, id);
    } else if e.LibraryCalls? || e.LibraryDecides? || e.LibraryFails? {
      OfferedWrites(s, e, id);
    } else if e.MainReads? {
      OfferedTaken(s, id);
    } else {
      InvBounds(s);
      hide Inv, Exchanging, ThrowsNext, Failing;
    }
  }

  lemma StepThrowsNext(s: State, e: Event, id: string)
    requires Continuing(s, e, id) && ThrowsNext(s)
    ensures ThrowsNext(Step(s, e).value)
  {
    hide Named, EndsOnce, Answers, Counted;
  }

  /** With the decision written and nothing else under way, only the client can move, and its call ends. */
  lemma ConcludedEnds(s: State, e: Event, id: string)
    requires Inv(s) && Concluded(s, id) && Step(s, e).Some?
    ensures Step(s, e).value.client.ClientIdle? || e.Abort?
  {
    assert Unread(s)[0] == s.output[s.consumed];
  }

  /** The library acts before the first call. */
  lemma LibraryBeforeCall(s: State, e: Event, id: string)
    requires e.LibraryCalls? || e.LibraryDecides? || e.LibraryFails?
    requires Continuing(s, e, id) && Exchanging(s, id) && s.client == AwaitFrame(id, false) && s.server.waiting == {}
    ensures var r := Step(s, e).value; Exchanging(r, id) || ThrowsNext(r)
  {
    InvBounds(s);
    hide Named, EndsOnce, Answers, Counted, Failing;
    var r := Step(s, e).value;
    if e.LibraryCalls? {
      assert Unread(r) == [Sent(CallModel(id, s.server.calls + 1), Some(id))];
    } else {
      assert r.output[s.consumed] == Unread(r)[0];
    }
  }

  /** Before the first call. */
  lemma StepBeforeCall(s: State, e: Event, id: string)
    requires Continuing(s, e, id) && Exchanging(s, id) && s.client == AwaitFrame(id, false) && s.server.waiting == {}
    ensures var r := Step(s, e).value; Exchanging(r, id) || ThrowsNext(r)
  {
    hide Named, EndsOnce, Answers, Counted, ThrowsNext;
    if e.LibraryCalls? || e.LibraryDecides? || e.LibraryFails? {
      LibraryBeforeCall(s, e, id);
    }
  }

  /** Another call, or a failure, while one is under way. */
  lemma StepSpoils(s: State, e: Event, id: string)
    requires Continuing(s, e, id) && Exchanging(s, id) && (e.LibraryCalls? || e.LibraryFails?)
    requires CallCount(id, s.output) > 0
    ensures Failing(Step(s, e).value, id)
  {
    hide Named, EndsOnce, Answers;
    var r := Step(s, e).value;
    if e.LibraryFails? {
      assert r.output[|s.output|].frame == Error(Some(id));
    } else {
      CallCountSnoc(id, s.output, r.output[|s.output|]);
    }
  }

  lemma DecisionWritten(s: State, e: Event)
    requires Step(s, e).Some? && e.LibraryDecides? && s.consumed <= |s.output|
    ensures var r := Step(s, e).value;
      && r.server.ServerIdle? && r.client == s.client && r.input == s.input && r.got == s.got
      && Unread(r) == Unread(s) + [Sent(Decided(Decision(s.server.id, e.alias, e.evidence)), Some(s.server.id))]
  {
  }

  /** The library decides while its callback waits. */
  lemma StepDrops(s: State, e: Event, id: string)
    requires Continuing(s, e, id) && Exchanging(s, id) && s.server.waiting != {} && e.LibraryDecides?
    ensures Dropped(Step(s, e).value, id)
  {
    if s.client != AwaitFrame(id, true) {
      AnswersGot(s);
    }
    InvBounds(s);
    DecisionWritten(s, e);
    hide Inv, Step, Unread;
  }

  /** No answer was received for a decision before it was given. */
  lemma AnswersGot(s: State)
    requires Inv(s) && (s.client.AwaitClassifier? || (s.client.AwaitFrame? && !s.client.called))
    ensures s.client.id !in s.got
  {
    hide Named, EndsOnce, Counted;
  }

  /** The client's own steps in such a call, and what is left of it in the pipes. */
  lemma StepDropped(s: State, e: Event, id: string)
    requires Continuing(s, e, id) && Dropped(s, id)
    ensures Dropped(Step(s, e).value, id)
  {
    InvBounds(s);
    hide Named, EndsOnce, Answers, Counted, Failing, ThrowsNext, ValidFrame;
    var r := Step(s, e).value;
    if e.Receive? {
      assert Unread(s)[0] == s.output[s.consumed] && Unread(r) == Unread(s)[1..];
    } else if e.MainReads? {
      assert r.input == [] && Unread(r) == Unread(s) + [r.output[|s.output|]];
    }
  }

  /** A requested call is on its way, so it has been counted. */
  lemma RequestCounted(s: State, id: string)
    requires s.consumed <= |s.output| && Exchanging(s, id)
    requires s.client == AwaitFrame(id, false) && s.server.waiting != {}
    ensures |Unread(s)| == 1 && Unread(s)[0] == s.output[s.consumed] && CallCount(id, s.output) > 0
  {
    var call :| s.server.waiting == {call} && Unread(s) == [Sent(CallModel(id, call), Some(id))];
    assert s.output == s.output[..s.consumed] + [Sent(CallModel(id, call), Some(id))];
    CallCountSnoc(id, s.output[..s.consumed], Sent(CallModel(id, call), Some(id)));
  }

  /** A call was requested and the client has not read it. */
  lemma StepRequested(s: State, e: Event, id: string)
    requires Continuing(s, e, id) && Exchanging(s, id) && s.client == AwaitFrame(id, false) && s.server.waiting != {}
    ensures var r := Step(s, e).value; Exchanging(r, id) || Dropped(r, id) || Failing(r, id)
  {
    InvBounds(s);
    RequestCounted(s, id);
    hide Named, EndsOnce, Answers, Counted, CallCount;
    if e.LibraryCalls? || e.LibraryFails? {
      StepSpoils(s, e, id);
    } else if e.LibraryDecides? {
      StepDrops(s, e, id);
    } else {
      hide Failing, Dropped;
      assert e.Receive? ==> Unread(Step(s, e).value) == [];
    }
  }

  /** The classifier is running. */
  lemma StepClassifying(s: State, e: Event, id: string)
    requires Continuing(s, e, id) && Exchanging(s, id) && s.client.AwaitClassifier?
    ensures var r := Step(s, e).value; Exchanging(r, id) || Dropped(r, id) || Failing(r, id)
  {
    AnswersGot(s);
    assert s.output[..s.consumed] == s.output;
    hide Named, EndsOnce, Answers, Dropped;
    var r := Step(s, e).value;
    if e.ClassifierReturns? {
      assert r.input == [Answered(id, s.client.callId, e.answer)];
      assert r.server.waiting != {};
    } else if e.LibraryCalls? || e.LibraryFails? {
      StepSpoils(s, e, id);
    } else if e.LibraryDecides? {
      StepDrops(s, e, id);
    }
  }

  /** The call was answered. */
  lemma StepAnswered(s: State, e: Event, id: string)
    requires Continuing(s, e, id) && Exchanging(s, id) && s.client == AwaitFrame(id, true)
    ensures var r := Step(s, e).value; Exchanging(r, id) || Concluded(r, id) || Dropped(r, id) || Failing(r, id)
  {
    assert s.output[..s.consumed] == s.output;
    hide Named, EndsOnce, Answers, Dropped;
    var r := Step(s, e).value;
    if e.LibraryCalls? || e.LibraryFails? {
      StepSpoils(s, e, id);
    } else if e.LibraryDecides? {
      if s.server.waiting == {} {
        assert Unread(r) == [r.output[s.consumed]];
      } else {
        StepDrops(s, e, id);
      }
    } else if e.CallbackReads? {
      var call, answer :| s.server.waiting == {call} && s.input == [Answered(id, call, answer)];
      assert r.input == [] && r.server.waiting == {};
    }
  }

  lemma BeginOffered(s: State, id: string)
    requires Inv(s) && Step(s, Begin(id)).Some?
    ensures var r := Step(s, Begin(id)).value; r.client == AwaitFrame(id, false) && (r.clean ==> Offered(r, id))
  {
    var r := Step(s, Begin(id)).value;
    if r.clean {
      assert r.input == [Start(id)] && Unread(r) == [];
    }
  }

  lemma SameCall(s: State, e: Event)
    requires Step(s, e).Some? && !e.Begin? && !Step(s, e).value.client.ClientIdle?
    ensures var r := Step(s, e).value;
      && !s.client.ClientIdle? && r.client.id == s.client.id && r.clean == s.clean
      && (!r.fired ==> !s.fired && !e.Abort?)
  {
  }

  lemma StepTidy(s: State, e: Event)
    requires Inv(s) && Tidy(s) && Step(s, e).Some?
    ensures Tidy(Step(s, e).value)
  {
    hide Named, EndsOnce, Answers, Counted, Step;
    var r := Step(s, e).value;
    StepInv(s, e);
    InvBounds(r);
    if !r.client.ClientIdle? && r.clean && !r.fired {
      if e.Begin? {
        BeginOffered(s, e.id);
      } else {
        SameCall(s, e);
        StepWithin(s, e, s.client.id);
      }
    }
  }

  lemma InvBounds(s: State)
    requires Inv(s)
    ensures s.consumed <= |s.output|
  {
  }

  /** A call that began clean and was not cancelled, from one step to the next. */
  lemma StepWithin(s: State, e: Event, id: string)
    requires Continuing(s, e, id) && Tidy(s) && s.clean && !s.fired
    ensures var r := Step(s, e).value;
      Offered(r, id) || Exchanging(r, id) || Concluded(r, id) || Dropped(r, id) || ThrowsNext(r) || Failing(r, id)
  {
    hide Named, EndsOnce, Answers, Counted, Step;
    if Failing(s, id) {
      FailingStays(s, e, id);
    } else if ThrowsNext(s) {
      StepThrowsNext(s, e, id);
    } else if Offered(s, id) {
      StepOffered(s, e, id);
    } else if Concluded(s, id) {
      ConcludedEnds(s, e, id);
    } else if Dropped(s, id) {
      StepDropped(s, e, id);
    } else if s.client == AwaitFrame(id, true) {
      StepAnswered(s, e, id);
    } else if s.client.AwaitClassifier? {
      StepClassifying(s, e, id);
    } else if s.server.waiting == {} {
      StepBeforeCall(s, e, id);
    } else {
      StepRequested(s, e, id);
    }
    hide Offered, Exchanging, Concluded, Dropped, ThrowsNext, Failing;
  }

  lemma {:induction false} RunTidy(events: seq<Event>)
    requires After(events).Some?
    ensures Tidy(After(events).value)
  {
    hide Tidy, Inv;
    if events != [] {
      RunTidy(events[..|events| - 1]);
      RunInv(events[..|events| - 1]);
      StepTidy(After(events[..|events| - 1]).value, events[|events| - 1]);
    } else {
      InitialTidy();
    }
  }

  lemma InitialTidy()
    ensures Tidy(INITIAL)
  {
  }

  /** A decision cannot be returned from a failing call. */
  lemma FailingReturnsNothing(events: seq<Event>, d: Decision)
    requires After(events + [Receive(Returns(d))]).Some?
    ensures After(events).Some? && !Failing(After(events).value, d.decisionId)
  {
    ReturnedDecision(events, d);
    RunInv(events);
    var s := After(events).value;
    assert s.output[s.consumed].frame == Decided(d);
    forall i | 0 <= i < |s.output| ensures s.output[i].frame != Error(Some(d.decisionId)) {
      assert i < s.consumed || i == s.consumed || i > s.consumed;
    }
  }

  ghost predicate PipesEmpty(s: State) { s.input == [] && s.consumed == |s.output| }

  /** How many callbacks the library made since the decision that is served began. */
  function Callbacks(events: seq<Event>): nat {
    if events == [] then 0
    else
      match events[|events| - 1]
      case LibraryCalls => Callbacks(events[..|events| - 1]) + 1
      case LibraryCallRefused => Callbacks(events[..|events| - 1]) + 1
      case MainReads => 0
      case _ => Callbacks(events[..|events| - 1])
  }

  /** Callbacks are numbered from one, those refused without a frame included. */
  lemma {:induction false} CallbackNumbers(events: seq<Event>)
    requires After(events).Some?
    ensures var s := After(events).value; s.server.Serving? ==> s.server.calls == Callbacks(events)
  {
    if events != [] {
      CallbackNumbers(events[..|events| - 1]);
    }
  }

  /** So a call frame carries the number of its callback. */
  lemma CallFrameNumber(events: seq<Event>)
    requires After(events + [LibraryCalls]).Some?
    ensures After(events).Some? && After(events).value.server.Serving?
    ensures var s, r := After(events).value, After(events + [LibraryCalls]).value;
      r.output == s.output + [Sent(CallModel(s.server.id, Callbacks(events) + 1), Some(s.server.id))]
  {
    assert (events + [LibraryCalls])[..|events|] == events;
    CallbackNumbers(events);
  }

  /** The next input frame answers this call of the decision that is served. */
  ghost predicate AnswersCall(s: State, call: nat, answer: Answer) {
    s.server.Serving? && s.input != [] && s.input[0] == Answered(s.server.id, call, answer)
  }

  /** The library receives an answer exactly if the next frame answers the very call that its callback made;
      any other frame is taken all the same, and the callback fails. */
  lemma OwnAnswerOnly(s: State, call: nat)
    requires Step(s, CallbackReads(call)).Some?
    ensures var r := Step(s, CallbackReads(call)).value;
      && r.input == s.input[1..] && r.output == s.output && call !in r.server.waiting
      && (forall answer :: AnswersCall(s, call, answer) ==> r.got == s.got[s.server.id := answer])
      && ((forall answer :: !AnswersCall(s, call, answer)) ==> r.got == s.got)
  {
    var f := s.input[0];
    if f.Answered? {
      assert f == Answered(f.decisionId, f.callId, f.answer);
      assert AnswersCall(s, call, f.answer) <==> f.decisionId == s.server.id && f.callId == call;
    }
  }

  // ----- a call that starts on a pipe that is not empty -----

  /** The next unread frame makes the client throw, or the bridge serves another decision, or it must
      first take another frame. */
  ghost predicate Spoiled(s: State, id: string) {
    s.client == AwaitFrame(id, false) &&
    if Unread(s) != [] then FrameId(Unread(s)[0].frame) != Some(id)
    else if s.server.Serving? then s.server.id != id
    else s.input != [] && s.input[0] != Start(id)
  }

  lemma BeginSpoiled(s: State, id: string)
    requires Inv(s) && Step(s, Begin(id)).Some? && !Step(s, Begin(id)).value.clean
    ensures Spoiled(Step(s, Begin(id)).value, id)
  {
    hide EndsOnce, Answers, Counted;
    if Unread(s) != [] {
      assert Unread(s)[0] == s.output[s.consumed];
    }
  }

  lemma ClientSpoiled(s: State, e: Event, id: string)
    requires e.Abort? || e.Receive? || e.ClassifierReturns? || e.ClientThrows?
    requires s.consumed <= |s.output| && Spoiled(s, id) && Step(s, e).Some? && !Step(s, e).value.client.ClientIdle?
    ensures Spoiled(Step(s, e).value, id)
  {
    if Unread(s) != [] {
      assert Unread(s)[0] == s.output[s.consumed];
    }
  }

  /** The bridge only adds to what the client has not read. */
  lemma UnreadGrows(s: State, e: Event)
    requires !(e.Begin? || e.Abort? || e.Receive? || e.ClassifierReturns? || e.ClientThrows?)
    requires s.consumed <= |s.output| && Step(s, e).Some?
    ensures var r := Step(s, e).value;
      && r.client == s.client && Unread(s) <= Unread(r)
      && (|r.output| > |s.output| ==> |Unread(r)| > |Unread(s)| && Unread(r)[|Unread(s)|] == r.output[|s.output|])
      && (|r.output| == |s.output| ==> Unread(r) == Unread(s))
  {
    OutputGrows(s, e);
    var r := Step(s, e).value;
    assert r.consumed == s.consumed;
    hide Step;
    assert r.output == s.output + r.output[|s.output|..];
  }

  lemma MainSpoiled(s: State, id: string)
    requires s.consumed <= |s.output| && Spoiled(s, id) && Step(s, MainReads).Some?
    ensures Spoiled(Step(s, MainReads).value, id)
  {
    UnreadGrows(s, MainReads);
    hide Unread;
  }

  lemma LibrarySpoiled(s: State, e: Event, id: string)
    requires e.LibraryCalls? || e.LibraryCallRefused? || e.LibraryDecides? || e.LibraryFails? || e.CallbackReads?
    requires s.consumed <= |s.output| && Spoiled(s, id) && Step(s, e).Some?
    ensures Spoiled(Step(s, e).value, id)
  {
    UnreadGrows(s, e);
    hide Unread;
  }

  /** Such a call stays spoiled until it fails. */
  lemma {:induction false} RunSpoiled(events: seq<Event>)
    requires After(events).Some?
    ensures var s := After(events).value; !s.client.ClientIdle? && !s.clean ==> Spoiled(s, s.client.id)
  {
    hide Inv, Spoiled, Step;
    if events != [] {
      var init, e := events[..|events| - 1], events[|events| - 1];
      var s, r := After(init).value, After(events).value;
      RunSpoiled(init);
      RunInv(init);
      InvBounds(s);
      if !r.client.ClientIdle? && !r.clean {
        if e.Begin? {
          BeginBegins(s, e.id);
          BeginSpoiled(s, e.id);
        } else {
          SameCall(s, e);
          if e.Abort? || e.Receive? || e.ClassifierReturns? || e.ClientThrows? {
            ClientSpoiled(s, e, s.client.id);
          } else if e.MainReads? {
            MainSpoiled(s, s.client.id);
          } else {
            LibrarySpoiled(s, e, s.client.id);
          }
        }
      }
    }
  }

  lemma BeginBegins(s: State, id: string)
    requires Step(s, Begin(id)).Some?
    ensures Step(s, Begin(id)).value.client == AwaitFrame(id, false)
  {
  }

  /** A call returns a decision only if both pipes were empty when it began. */
  lemma ReturnsOnlyIfClean(events: seq<Event>, d: Decision)
    requires After(events + [Receive(Returns(d))]).Some?
    ensures After(events).Some? && After(events).value.clean
  {
    assert (events + [Receive(Returns(d))])[..|events|] == events;
    ReturnReads(After(events).value, d);
    RunSpoiled(events);
  }

  // ----- every frame the client wrote is accounted for -----

  /** A start frame, an answer and a cancellation. */
  function FramesWritten(s: State): nat {
    1 + (if s.client.AwaitFrame? && s.client.called then 1 else 0) + (if s.fired then 1 else 0)
  }

  /** What the bridge took while it served the decision, at most: the start frame and one frame for each
      callback that does not wait any more. */
  function FramesTaken(s: State, id: string): int {
    if id !in s.served then 0
    else 1 + CallCount(id, s.output) - (if s.server.Serving? && s.server.id == id then |s.server.waiting| else 0)
  }

  /** A frame that the client has not read and that is not about its decision. */
  ghost predicate HasStray(s: State, id: string) {
    exists i :: s.consumed <= i < |s.output| && FrameId(s.output[i].frame) != Some(id)
  }

  /** In a call that began on empty pipes the client's own frames are all there is, its start frame first. */
  ghost predicate OwnFrames(s: State, id: string) {
    && (forall i :: 0 <= i < |s.input| ==> s.input[i].decisionId == id)
    && (id !in s.served && Start(id) in s.input ==> s.input[0] == Start(id))
    && (s.server.Serving? && s.server.id != id ==> id !in s.served)
  }

  ghost predicate WaitingNumbered(s: State) {
    s.server.Serving? ==> forall call :: call in s.server.waiting ==> call <= s.server.calls
  }

  /** Whatever the client wrote is still in its pipe, or was taken while its decision was served, or made
      the bridge write a stray frame; unless the call is bound to fail. */
  ghost predicate Accounted(s: State, id: string) {
    HasStray(s, id) || Failing(s, id) || FramesWritten(s) <= |s.input| + FramesTaken(s, id)
  }

  lemma StrayStays(s: State, e: Event, id: string)
    requires Ongoing(s, e, id) && HasStray(s, id)
    ensures HasStray(Step(s, e).value, id)
  {
    InvBounds(s);
    OutputGrows(s, e);
    hide Inv;
    var r := Step(s, e).value;
    var i :| s.consumed <= i < |s.output| && FrameId(s.output[i].frame) != Some(id);
    assert r.output[i] == s.output[i];
    assert e.Receive? ==> i != s.consumed;
  }

  lemma WritesStray(s: State, e: Event, id: string)
    requires Ongoing(s, e, id) && |Step(s, e).value.output| > |s.output|
    requires FrameId(Step(s, e).value.output[|s.output|].frame) != Some(id)
    ensures HasStray(Step(s, e).value, id)
  {
    InvBounds(s);
    hide Inv;
    var r := Step(s, e).value;
    assert r.consumed == s.consumed;
  }

  lemma ClientOwn(s: State, e: Event, id: string)
    requires e.Abort? || e.Receive? || e.ClassifierReturns? || e.ClientThrows?
    requires Ongoing(s, e, id) && OwnFrames(s, id)
    ensures OwnFrames(Step(s, e).value, id)
  {
    hide Inv, ValidFrame;
    var r := Step(s, e).value;
    assert forall i :: 0 <= i < |s.input| ==> r.input[i] == s.input[i];
  }

  lemma ServerOwn(s: State, e: Event, id: string)
    requires !(e.Begin? || e.Abort? || e.Receive? || e.ClassifierReturns? || e.ClientThrows?)
    requires Ongoing(s, e, id) && OwnFrames(s, id)
    ensures OwnFrames(Step(s, e).value, id)
  {
    hide NamedFrames, EndsOnce, Answers, Counted;
    var r := Step(s, e).value;
    if e.MainReads? || e.CallbackReads? {
      assert forall i :: 0 <= i < |r.input| ==> r.input[i] == s.input[i + 1];
    }
  }

  lemma ClientAccounts(s: State, e: Event, id: string)
    requires e.Abort? || e.Receive? || e.ClassifierReturns? || e.ClientThrows?
    requires Ongoing(s, e, id) && FramesWritten(s) <= |s.input| + FramesTaken(s, id)
    ensures var r := Step(s, e).value; FramesWritten(r) <= |r.input| + FramesTaken(r, id)
  {
    hide Inv, ValidFrame, CallCount;
  }

  /** The main loop serves the start frame, and answers any other with a stray error. */
  lemma MainAccounts(s: State, id: string)
    requires Ongoing(s, MainReads, id) && OwnFrames(s, id) && FramesWritten(s) <= |s.input| + FramesTaken(s, id)
    ensures Accounted(Step(s, MainReads).value, id)
  {
    var r := Step(s, MainReads).value;
    if s.input[0].Start? {
      assert s.input[0] == Start(id) && id !in s.served;
      hide Inv, CallCount, Failing;
    } else {
      WritesStray(s, MainReads, id);
    }
  }

  lemma CallbackAccounts(s: State, e: Event, id: string)
    requires e.CallbackReads? && Ongoing(s, e, id) && OwnFrames(s, id)
    requires FramesWritten(s) <= |s.input| + FramesTaken(s, id)
    ensures Accounted(Step(s, e).value, id)
  {
    hide NamedFrames, EndsOnce, Answers, Counted, CallCount;
    var r := Step(s, e).value;
    if s.server.id == id {
      assert |r.server.waiting| == |s.server.waiting| - 1;
      hide Failing;
    } else {
      assert forall i :: 0 <= i < |r.input| ==> r.input[i] == s.input[i + 1];
      assert id !in r.served && Start(id) !in r.input;
    }
  }

  lemma LibraryAccounts(s: State, e: Event, id: string)
    requires e.LibraryCalls? || e.LibraryCallRefused? || e.LibraryDecides? || e.LibraryFails?
    requires Ongoing(s, e, id) && WaitingNumbered(s) && FramesWritten(s) <= |s.input| + FramesTaken(s, id)
    ensures Accounted(Step(s, e).value, id)
  {
    var r := Step(s, e).value;
    if !e.LibraryCallRefused? && s.server.id != id {
      WritesStray(s, e, id);
    } else {
      hide Inv, Failing, HasStray, Ongoing;
      ServedAccounts(s, e, id);
    }
  }

  /** A new call waits for its frame. */
  lemma CallAccounts(s: State, id: string)
    requires Step(s, LibraryCalls).Some? && WaitingNumbered(s) && s.server.id == id
    ensures FramesTaken(Step(s, LibraryCalls).value, id) == FramesTaken(s, id)
  {
    var r := Step(s, LibraryCalls).value;
    CallCountSnoc(id, s.output, r.output[|s.output|]);
    hide CallCount;
    assert s.server.calls + 1 !in s.server.waiting;
    assert |r.server.waiting| == |s.server.waiting| + 1;
  }

  /** A decision or a failure only lets callbacks go. */
  lemma FinishAccounts(s: State, e: Event, id: string)
    requires (e.LibraryDecides? || e.LibraryFails?) && Step(s, e).Some? && s.server.id == id
    ensures FramesTaken(Step(s, e).value, id) >= FramesTaken(s, id)
  {
    var r := Step(s, e).value;
    CallCountSnoc(id, s.output, r.output[|s.output|]);
    hide CallCount;
  }

  lemma ServedAccounts(s: State, e: Event, id: string)
    requires e.LibraryCalls? || e.LibraryCallRefused? || e.LibraryDecides? || e.LibraryFails?
    requires Step(s, e).Some? && WaitingNumbered(s) && (e.LibraryCallRefused? || s.server.id == id)
    ensures var r := Step(s, e).value;
      FramesTaken(r, id) >= FramesTaken(s, id) && FramesWritten(r) == FramesWritten(s) && r.input == s.input
  {
    if e.LibraryCalls? {
      CallAccounts(s, id);
      hide CallCount, FramesTaken;
    } else if e.LibraryCallRefused? {
      hide CallCount;
    } else {
      FinishAccounts(s, e, id);
      hide CallCount, FramesTaken;
    }
  }

  lemma StepAccounted(s: State, e: Event, id: string)
    requires Ongoing(s, e, id) && WaitingNumbered(s) && OwnFrames(s, id) && Accounted(s, id)
    ensures Accounted(Step(s, e).value, id)
  {
    if HasStray(s, id) {
      StrayStays(s, e, id);
    } else if Failing(s, id) {
      FailingStays(s, e, id);
    } else {
      hide Inv, Step, OwnFrames, WaitingNumbered, FramesWritten, FramesTaken, HasStray, Failing;
      if e.Abort? || e.Receive? || e.ClassifierReturns? || e.ClientThrows? {
        ClientAccounts(s, e, id);
      } else if e.MainReads? {
        MainAccounts(s, id);
      } else if e.CallbackReads? {
        CallbackAccounts(s, e, id);
      } else {
        BeginIdle(s, e);
        LibraryAccounts(s, e, id);
      }
    }
  }

  lemma BeginIdle(s: State, e: Event)
    requires Step(s, e).Some? && !s.client.ClientIdle?
    ensures !e.Begin?
  {
  }

  lemma BeginAccounted(s: State, id: string)
    requires Inv(s) && Step(s, Begin(id)).Some? && Step(s, Begin(id)).value.clean
    ensures var r := Step(s, Begin(id)).value; OwnFrames(r, id) && Accounted(r, id)
  {
    hide EndsOnce, Answers, Counted, Failing, HasStray, CallCount;
    var r := Step(s, Begin(id)).value;
    assert r.input == [Start(id)];
  }

  lemma StepNumbered(s: State, e: Event)
    requires Step(s, e).Some? && WaitingNumbered(s)
    ensures WaitingNumbered(Step(s, e).value)
  {
  }

  lemma {:induction false} RunAccounted(events: seq<Event>)
    requires After(events).Some?
    ensures var s := After(events).value;
      && WaitingNumbered(s)
      && (!s.client.ClientIdle? && s.clean ==> OwnFrames(s, s.client.id) && Accounted(s, s.client.id))
  {
    if events != [] {
      var init, e := events[..|events| - 1], events[|events| - 1];
      var s, r := After(init).value, After(events).value;
      RunAccounted(init);
      RunInv(init);
      StepNumbered(s, e);
      hide Inv, Step, WaitingNumbered, OwnFrames, Accounted, After;
      if !r.client.ClientIdle? && r.clean {
        if e.Begin? {
          BeginBegins(s, e.id);
          BeginAccounted(s, e.id);
        } else {
          SameCall(s, e);
          CallGoesOn(s, e);
        }
      }
    }
  }

  lemma CallGoesOn(s: State, e: Event)
    requires Inv(s) && Step(s, e).Some? && !e.Begin? && !s.client.ClientIdle? && !Step(s, e).value.client.ClientIdle?
    requires WaitingNumbered(s) && OwnFrames(s, s.client.id) && Accounted(s, s.client.id)
    ensures var r := Step(s, e).value; OwnFrames(r, s.client.id) && Accounted(r, s.client.id)
  {
    hide Inv, Step, WaitingNumbered, OwnFrames, Accounted;
    StepAccounted(s, e, s.client.id);
    if e.Abort? || e.Receive? || e.ClassifierReturns? || e.ClientThrows? {
      ClientOwn(s, e, s.client.id);
    } else {
      ServerOwn(s, e, s.client.id);
    }
  }

  /** A call whose signal fired and which returns all the same leaves a frame behind. */
  lemma FiredReturnLeaves(events: seq<Event>, d: Decision)
    requires After(events + [Receive(Returns(d))]).Some?
    ensures After(events).Some?
    ensures After(events).value.fired ==> !PipesEmpty(After(events + [Receive(Returns(d))]).value)
  {
    assert (events + [Receive(Returns(d))])[..|events|] == events;
    ReturnsOnlyIfClean(events, d);
    ReturnedDecision(events, d);
    FailingReturnsNothing(events, d);
    RunAccounted(events);
    ReturnReads(After(events).value, d);
    hide *;
    if After(events).value.fired {
      ReturnCounts(After(events).value, d);
    }
  }

  lemma ReturnCounts(s: State, d: Decision)
    requires Step(s, Receive(Returns(d))).Some? && s.fired && Accounted(s, d.decisionId) && !Failing(s, d.decisionId)
    requires CallCount(d.decisionId, s.output) == 1
    ensures !PipesEmpty(Step(s, Receive(Returns(d))).value)
  {
    ReturnReads(s, d);
    hide Failing, CallCount, ValidFrame;
  }

  // ----- exactly when a call leaves the pipes as it found them -----

  /** A call returns a decision only if both pipes were empty when it began. They are empty again exactly
      if its signal never fired and the library received the classifier's answer before it decided; if the
      signal never fired, the bridge waits for a start frame again. */
  lemma CleanReturn(events: seq<Event>, d: Decision)
    requires After(events + [Receive(Returns(d))]).Some?
    ensures After(events).Some? && After(events).value.clean
    ensures var s, r := After(events).value, After(events + [Receive(Returns(d))]).value;
      && r.client.ClientIdle? && (!s.fired ==> r.server.ServerIdle?)
      && (PipesEmpty(r) <==> !s.fired && d.decisionId in r.got)
      && (d.decisionId in r.got ==> d.decisionId in r.gave && r.got[d.decisionId] == r.gave[d.decisionId])
  {
    assert (events + [Receive(Returns(d))])[..|events|] == events;
    ReturnsOnlyIfClean(events, d);
    ReturnedDecision(events, d);
    FailingReturnsNothing(events, d);
    FiredReturnLeaves(events, d);
    RunTidy(events);
    ReturnKeeps(After(events).value, d);
    hide After, Inv, Failing, PipesEmpty;
    if !After(events).value.fired {
      ReturnLeaves(After(events).value, d);
    }
  }

  lemma ReturnKeeps(s: State, d: Decision)
    requires Step(s, Receive(Returns(d))).Some?
    ensures var r := Step(s, Receive(Returns(d))).value; r.client.ClientIdle? && r.got == s.got && r.gave == s.gave
  {
    hide ValidFrame;
  }

  lemma ReturnLeaves(s: State, d: Decision)
    requires Tidy(s) && s.clean && !s.fired && Step(s, Receive(Returns(d))).Some? && !Failing(s, d.decisionId)
    ensures var r := Step(s, Receive(Returns(d))).value;
      r.server.ServerIdle? && (PipesEmpty(r) <==> d.decisionId in s.got)
  {
    ReturnReads(s, d);
    hide Failing, ValidFrame;
    assert Unread(s)[0] == s.output[s.consumed] && Unread(s) != [];
    assert !ThrowsNext(s);
  }

  // ----- two whole calls -----

  function Then(s: Option<State>, e: Event): Option<State> { if s.None? then None else Step(s.value, e) }

  lemma Snoc(events: seq<Event>, e: Event)
    ensures After(events + [e]) == Then(After(events), e)
  {
    assert (events + [e])[..|events|] == events;
  }

  /** A call up to the moment when its classifier runs. */
  function Requested(id: string): seq<Event> { [Begin(id), MainReads, LibraryCalls, Receive(Continues)] }

  function Classifying(id: string): State {
    State(AwaitClassifier(id, 1), Serving(id, 1, {1}), [], [Sent(CallModel(id, 1), Some(id))], 1,
          {id}, {id}, [id], map[], map[], false, true)
  }

  lemma StartTaken(id: string)
    ensures After([Begin(id), MainReads])
      == Some(INITIAL.(client := AwaitFrame(id, false), server := Serving(id, 0, {}),
                       begun := {id}, served := {id}, clean := true))
  {
    assert [] + [Begin(id)] == [Begin(id)] && [Begin(id)] + [MainReads] == [Begin(id), MainReads];
    Snoc([], Begin(id));
    Snoc([Begin(id)], MainReads);
    assert INITIAL.begun + {id} == {id} && INITIAL.served + {id} == {id};
    assert INITIAL.input + [Start(id)] == [Start(id)] && [Start(id)][1..] == INITIAL.input;
  }

  lemma CallUnderWay(id: string)
    requires id != ""
    ensures After(Requested(id)) == Some(Classifying(id))
  {
    var begun := [Begin(id), MainReads];
    StartTaken(id);
    var s := After(begun).value;
    Snoc(begun, LibraryCalls);
    Snoc(begun + [LibraryCalls], Receive(Continues));
    assert begun + [LibraryCalls] + [Receive(Continues)] == Requested(id);
    hide After;
    assert s.server.waiting + {1} == {1} && s.invoked + [id] == [id];
    assert s.output + [Sent(CallModel(id, 1), Some(id))] == [Sent(CallModel(id, 1), Some(id))];
  }

  /** The classifier's answer reaches the library. */
  lemma AnswerTaken(id: string, answer: Answer)
    ensures Then(Step(Classifying(id), ClassifierReturns(answer)), CallbackReads(1))
      == Some(Classifying(id).(client := AwaitFrame(id, true), server := Serving(id, 1, {}),
                               gave := map[id := answer], got := map[id := answer]))
  {
    var s := Classifying(id);
    var answered :=
      s.(client := AwaitFrame(id, true), gave := s.gave[id := answer], input := s.input + [Answered(id, 1, answer)]);
    assert Step(s, ClassifierReturns(answer)) == Some(answered);
    assert answered.input[1..] == [] && answered.server.waiting - {1} == {};
  }

  /** A decision is written and returned. */
  lemma DecisionTaken(s: State, id: string, alias: Alias, evidence: Evidence)
    requires s.server.Serving? && s.server.id == id && s.client == AwaitFrame(id, true) && s.consumed == |s.output|
    requires ValidFrame(Decided(Decision(id, alias, evidence)))
    ensures var r := Then(Step(s, LibraryDecides(alias, evidence)), Receive(Returns(Decision(id, alias, evidence))));
      r.Some? && r.value.consumed == |r.value.output| && r.value.input == s.input && r.value.got == s.got
  {
  }

  /** A clean call: the answer reaches the library, and nothing is left in the pipes. */
  lemma CleanRun(id: string, answer: Answer, alias: Alias)
    requires id != ""
    ensures var d := Decision(id, alias, ValidatedVerdict(1.0));
      var events := Requested(id) + [ClassifierReturns(answer)] + [CallbackReads(1)]
        + [LibraryDecides(alias, d.evidence)] + [Receive(Returns(d))];
      After(events).Some? && PipesEmpty(After(events).value) && After(events).value.got == map[id := answer]
  {
    var d, h := Decision(id, alias, ValidatedVerdict(1.0)), Requested(id);
    var e4, e5, e6 := ClassifierReturns(answer), CallbackReads(1), LibraryDecides(alias, d.evidence);
    CallUnderWay(id);
    Snoc(h, e4);
    Snoc(h + [e4], e5);
    Snoc(h + [e4] + [e5], e6);
    Snoc(h + [e4] + [e5] + [e6], Receive(Returns(d)));
    AnswerTaken(id, answer);
    hide After, Step, Requested;
    DecisionTaken(After(h + [e4] + [e5]).value, id, alias, d.evidence);
  }

  /** The library decides without waiting for its answer: the decision is returned all the same, and the
      answer stays in the pipe. */
  lemma DroppedRun(id: string, answer: Answer, alias: Alias)
    requires id != ""
    ensures var d := Decision(id, alias, ValidatedVerdict(1.0));
      var events := Requested(id) + [LibraryDecides(alias, d.evidence)] + [ClassifierReturns(answer)]
        + [Receive(Returns(d))];
      After(events).Some? && After(events).value.input == [Answered(id, 1, answer)] && After(events).value.got == map[]
  {
    var d, h := Decision(id, alias, ValidatedVerdict(1.0)), Requested(id);
    assert ValidFrame(Decided(d));
    hide *;
    var e4, e5 := LibraryDecides(alias, d.evidence), ClassifierReturns(answer);
    CallUnderWay(id);
    Snoc(h, e4);
    Snoc(h + [e4], e5);
    Snoc(h + [e4] + [e5], Receive(Returns(d)));
    AnswerLeft(id, answer, d);
  }

  lemma AnswerLeft(id: string, answer: Answer, d: Decision)
    requires d.decisionId == id && ValidFrame(Decided(d))
    ensures var decided := Then(Some(Classifying(id)), LibraryDecides(d.selectedAlias, d.evidence));
      var r := Then(Then(decided, ClassifierReturns(answer)), Receive(Returns(d)));
      r.Some? && r.value.input == [Answered(id, 1, answer)] && r.value.got == map[]
  {
    var s := Classifying(id);
    var decided := s.(server := ServerIdle, output := s.output + [Sent(Decided(d), Some(id))]);
    assert Step(s, LibraryDecides(d.selectedAlias, d.evidence)) == Some(decided);
    ReturnsDecision(decided, id, answer, d);
    hide Step, ValidFrame;
  }

  lemma ReturnsDecision(s: State, id: string, answer: Answer, d: Decision)
    requires s.client == AwaitClassifier(id, 1) && s.input == [] && d.decisionId == id && ValidFrame(Decided(d))
    requires s.consumed < |s.output| && s.output[s.consumed].frame == Decided(d)
    ensures var r := Then(Step(s, ClassifierReturns(answer)), Receive(Returns(d)));
      r.Some? && r.value.input == [Answered(id, 1, answer)] && r.value.got == s.got
  {
    assert s.input + [Answered(id, 1, answer)] == [Answered(id, 1, answer)];
  }

  // ----- the two processes as they keep their own state -----

  /** `SwitchyardBridgeClient` during `resolveDecision`; `written` is what it wrote to the bridge. The
      ghost argument of a method is the state of the whole system in which it runs. */
  class BridgeClient {
    var active: bool
    var decisionId: string
    var classifierCalled: bool
    var answering: Option<nat>
    var fired: bool
    var written: seq<InputFrame>

    function View(): Client
      reads this
    {
      if !active then ClientIdle
      else if answering.Some? then AwaitClassifier(decisionId, answering.value)
      else AwaitFrame(decisionId, classifierCalled)
    }

    /** A call is answered only after it was accepted. */
    predicate Valid()
      reads this
    {
      answering.Some? ==> classifierCalled
    }

    predicate IsIn(s: State)
      reads this
    {
      s.client == View() && s.fired == fired
    }

    /** This client is in the state that the event leads to, and wrote these frames. */
    twostate predicate Makes(s: State, e: Event, frames: seq<InputFrame>)
      reads this
    {
      && Step(s, e).Some? && IsIn(Step(s, e).value) && Step(s, e).value.input == s.input + frames
      && written == old(written) + frames
    }

    constructor ()
      ensures Valid() && IsIn(INITIAL) && written == []
    {
      active, decisionId, classifierCalled, answering, fired, written := false, "", false, None, false, [];
    }

    /** False where `resolveDecision` refuses a second concurrent call. Decision ids are never reused. */
    method Begin(id: string, ghost s: State) returns (accepted: bool)
      requires Valid() && IsIn(s) && id !in s.begun
      modifies this
      ensures Valid() && accepted == old(View()).ClientIdle?
      ensures if accepted then Makes(s, Event.Begin(id), [Start(id)]) else IsIn(s) && written == old(written)
    {
      if active {
        return false;
      }
      active, decisionId, classifierCalled, answering, fired := true, id, false, None, false;
      written := written + [Start(id)];
      accepted := true;
    }

    method OnAbort(ghost s: State)
      requires Valid() && IsIn(s) && active
      modifies this
      ensures Valid() && fired
      ensures if old(fired) then IsIn(s) && written == old(written) else Makes(s, Abort, [Cancel(decisionId)])
    {
      if !fired {
        written := written + [Cancel(decisionId)];
        fired := true;
      }
    }

    /** One turn of the read loop. */
    method OnFrame(f: OutputFrame, ghost s: State) returns (reaction: Reaction)
      requires Valid() && IsIn(s) && View().AwaitFrame?
      requires s.consumed < |s.output| && s.output[s.consumed].frame == f
      modifies this
      ensures Valid() && Makes(s, Receive(reaction), [])
    {
      reaction := Throws;
      if ValidFrame(f) && (FrameId(f).None? || FrameId(f).value == decisionId) {
        if f.CallModel? {
          if !classifierCalled {
            classifierCalled := true;
            answering := Some(f.callId);
            return Continues;
          }
        } else if f.Decided? && classifierCalled {
          reaction := Returns(f.decision);
        }
      }
      active := false;
    }

    /** `callClassifier` returned. */
    method OnAnswer(answer: Answer, ghost s: State)
      requires Valid() && IsIn(s) && View().AwaitClassifier?
      modifies this
      ensures Valid() && Makes(s, ClassifierReturns(answer), [Answered(decisionId, old(View()).callId, answer)])
    {
      written := written + [Answered(decisionId, answering.value, answer)];
      answering := None;
    }

    /** `callClassifier`, or reading or writing a frame, threw. */
    method OnError(ghost s: State)
      requires Valid() && IsIn(s) && active
      modifies this
      ensures Valid() && Makes(s, ClientThrows, [])
    {
      active := false;
    }
  }

  /** The bridge's frame loop and callback; `written` is what it wrote to the client. */
  class BridgeProcess {
    var serving: Option<string>
    var callSequence: nat
    var waiting: set<nat>
    var written: seq<OutputFrame>

    function View(): Server
      reads this
    {
      if serving.None? then ServerIdle else Serving(serving.value, callSequence, waiting)
    }

    predicate IsIn(s: State)
      reads this
    {
      s.server == View()
    }

    /** This process is in the state that the event leads to, and wrote this frame, if any. */
    twostate predicate Makes(s: State, e: Event, frame: Option<OutputFrame>)
      reads this
    {
      && Step(s, e).Some? && IsIn(Step(s, e).value)
      && Step(s, e).value.output == s.output + (if frame.Some? then [Sent(frame.value, ServedId(s))] else [])
      && written == old(written) + (if frame.Some? then [frame.value] else [])
    }

    constructor ()
      ensures IsIn(INITIAL) && written == []
    {
      serving, callSequence, waiting, written := None, 0, {}, [];
    }

    method MainLoop(f: InputFrame, ghost s: State)
      requires IsIn(s) && View().ServerIdle? && s.input != [] && s.input[0] == f
      modifies this
      ensures Makes(s, MainReads, if f.Start? then None else Some(Error(None)))
    {
      match f {
        case Start(id) =>
          serving, callSequence, waiting := Some(id), 0, {};
        case _ =>
          written := written + [Error(None)];
      }
    }

    /** The library calls the callback; a call for another target is refused without a frame. */
    method Callback(target: bool, ghost s: State)
      requires IsIn(s) && View().Serving?
      modifies this
      ensures if target then Makes(s, LibraryCalls, Some(CallModel(s.server.id, s.server.calls + 1)))
              else Makes(s, LibraryCallRefused, None)
    {
      callSequence := callSequence + 1;
      if target {
        written := written + [CallModel(serving.value, callSequence)];
        waiting := waiting + {callSequence};
      }
    }

    /** The answer it hands to the library, if the frame is one. */
    method CallbackFrame(call: nat, f: InputFrame, ghost s: State) returns (answer: Option<Answer>)
      requires IsIn(s) && View().Serving? && call in waiting && s.input != [] && s.input[0] == f
      modifies this
      ensures Makes(s, CallbackReads(call), None)
      ensures Step(s, CallbackReads(call)).value.got
        == if answer.Some? then s.got[s.server.id := answer.value] else s.got
    {
      waiting := waiting - {call};
      match f {
        case Answered(id, received, a) =>
          answer := if id == serving.value && received == call then Some(a) else None;
        case _ =>
          answer := None;
      }
    }

    /** The library decided, or failed. */
    method Finish(outcome: Option<(Alias, Evidence)>, ghost s: State)
      requires IsIn(s) && View().Serving?
      modifies this
      ensures match outcome
        case Some((alias, evidence)) =>
          Makes(s, LibraryDecides(alias, evidence), Some(Decided(Decision(s.server.id, alias, evidence))))
        case None => Makes(s, LibraryFails, Some(Error(Some(s.server.id))))
    {
      var id := serving.value;
      written := written
        + [if outcome.Some? then Decided(Decision(id, outcome.value.0, outcome.value.1)) else Error(Some(id))];
      serving := None;
    }
  }
}
