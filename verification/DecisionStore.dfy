/** One Pi session's routing decision across crashes and resumes (src/pi/session-routing.ts): the durable
    decision file, the session's own log of entries, and one process at a time. */
module DecisionStore {
  import opened Wrappers

  /** What a decision is bound to besides its session. */
  datatype Config = Config(projectId: string, authProfile: string, fingerprint: string, mode: string)

  datatype Decision = Decision(sessionId: string, decisionId: string, config: Config)

  /** Session entries; a forked session starts with a copy of its parent's. */
  datatype Entry = Custom(decision: Decision) | Coding | Other

  datatype Reason = New | Fork | Resume

  datatype LoadError =
    | ConflictingEntries
    | UnexpectedDecision
    | DecisionMissing
    | OtherProjectOrSession
    | OtherProfileOrModels
    | OtherMode
    | EntryMissing
    | EntryConflicts

  function OwnDecisions(entries: seq<Entry>, sessionId: string): seq<Decision> {
    if entries == [] then []
    else
      var last := entries[|entries| - 1];
      OwnDecisions(entries[..|entries| - 1], sessionId)
      + (if last.Custom? && last.decision.sessionId == sessionId then [last.decision] else [])
  }

  /** A user or assistant message. */
  predicate HasCodingHistory(entries: seq<Entry>) { Coding in entries }

  function Load(c: Config, sessionId: string, entries: seq<Entry>, stored: Option<Decision>, reason: Reason)
    : Result<Option<Decision>, LoadError>
  {
    var own := OwnDecisions(entries, sessionId);
    if |own| > 1 then Err(ConflictingEntries)
    else if reason.New? || reason.Fork? then (if stored.Some? then Err(UnexpectedDecision) else Ok(None))
    else if stored.None? then (if own != [] || HasCodingHistory(entries) then Err(DecisionMissing) else Ok(None))
    else
      var d := stored.value;
      if d.config.projectId != c.projectId || d.sessionId != sessionId then Err(OtherProjectOrSession)
      else if d.config.authProfile != c.authProfile || d.config.fingerprint != c.fingerprint
      then Err(OtherProfileOrModels)
      else if d.config.mode != c.mode then Err(OtherMode)
      else if own == [] && HasCodingHistory(entries) then Err(EntryMissing)
      else if own != [] && own[0] != d then Err(EntryConflicts)
      else Ok(stored)
  }

  /** Exactly when a resume succeeds, and with what. */
  lemma ResumeSucceedsIff(c: Config, sessionId: string, entries: seq<Entry>, stored: Option<Decision>)
    ensures var r, own := Load(c, sessionId, entries, stored, Resume), OwnDecisions(entries, sessionId);
      && (r.Ok? ==> r.result == stored)
      && (r.Ok? <==>
          (match stored
           case None => own == [] && !HasCodingHistory(entries)
           case Some(d) =>
             d.sessionId == sessionId && d.config == c && (own == [d] || (own == [] && !HasCodingHistory(entries)))))
  {
    LoadByOwn(c, sessionId, entries, stored, OwnDecisions(entries, sessionId));
    hide Load, OwnDecisions;
  }

  lemma LoadByOwn(c: Config, sessionId: string, entries: seq<Entry>, stored: Option<Decision>, own: seq<Decision>)
    requires own == OwnDecisions(entries, sessionId)
    ensures var r := Load(c, sessionId, entries, stored, Resume);
      && (r.Ok? ==> r.result == stored)
      && (r.Ok? <==>
          (match stored
           case None => own == [] && !HasCodingHistory(entries)
           case Some(d) =>
             d.sessionId == sessionId && d.config == c && (own == [d] || (own == [] && !HasCodingHistory(entries)))))
  {
    hide OwnDecisions, HasCodingHistory;
    if |own| == 1 {
      assert own == [own[0]];
    }
  }

  // ----- processes, crashes and resumes under one configuration -----

  /** `Failed` is a process whose start was refused; it accepts no input. `Wrote` is between the store
      write and `appendEntry`. */
  datatype Process = Down | Failed | Ready(current: Option<Decision>) | Wrote(decision: Decision)

  /** `flushed` entries survive any crash of the running process. */
  datatype State = State(stored: Option<Decision>, entries: seq<Entry>, flushed: nat, process: Process)

  /** Coding messages are logged only by a process with a decision; other entries at any time. A crash
      may lose any suffix of what the process appended. */
  datatype Event =
    | Launch(reason: Reason)
    | WriteStore(decision: Decision)
    | AppendEntry
    | Log(entry: Entry)
    | Crash(kept: nat)

  function Step(c: Config, sessionId: string, s: State, e: Event): Option<State> {
    match e
    case Launch(reason) =>
      if !s.process.Down? then None
      else
        (match Load(c, sessionId, s.entries, s.stored, reason)
         case Ok(current) => Some(s.(process := Ready(current)))
         case Err(_) => Some(s.(process := Failed)))
    case WriteStore(d) =>
      if s.process == Ready(None) && d.sessionId == sessionId && d.config == c
      then Some(s.(stored := Some(d), process := Wrote(d))) else None
    case AppendEntry =>
      if s.process.Wrote?
      then Some(s.(entries := s.entries + [Custom(s.process.decision)], process := Ready(Some(s.process.decision))))
        else None
    case Log(entry) =>
      if (entry.Coding? && s.process.Ready? && s.process.current.Some?) || (entry.Other? && !s.process.Down?)
      then Some(s.(entries := s.entries + [entry])) else None
    case Crash(kept) =>
      if !s.process.Down? && s.flushed <= kept <= |s.entries|
      then Some(s.(entries := s.entries[..kept], flushed := kept, process := Down)) else None
  }

  function After(c: Config, sessionId: string, s: State, events: seq<Event>): Option<State> {
    if events == [] then Some(s)
    else
      match After(c, sessionId, s, events[..|events| - 1])
      case None => None
      case Some(t) => Step(c, sessionId, t, events[|events| - 1])
  }

  /** A session before its first process: no decision of its own yet, in the store or in the log. */
  predicate Undecided(sessionId: string, s: State) {
    s.process.Down? && s.stored.None? && s.flushed == |s.entries| && OwnDecisions(s.entries, sessionId) == []
  }

  /** The durable decision, the log's own entry and the running process never disagree. */
  ghost predicate Agrees(c: Config, sessionId: string, s: State) {
    && s.flushed <= |s.entries|
    && (s.stored.Some? ==> s.stored.value.sessionId == sessionId && s.stored.value.config == c)
    && (s.process.Ready? ==> s.process.current == s.stored)
    && (s.process.Wrote? ==> s.stored == Some(s.process.decision) && OwnDecisions(s.entries, sessionId) == [])
    && (OwnDecisions(s.entries, sessionId) == []
        || (s.stored.Some? && OwnDecisions(s.entries, sessionId) == [s.stored.value]))
  }

  lemma OwnSnoc(entries: seq<Entry>, e: Entry, sessionId: string)
    ensures OwnDecisions(entries + [e], sessionId)
      == OwnDecisions(entries, sessionId)
        + (if e.Custom? && e.decision.sessionId == sessionId then [e.decision] else [])
  {
    assert (entries + [e])[..|entries|] == entries;
  }

  lemma {:induction false} OwnPrefix(entries: seq<Entry>, n: nat, sessionId: string)
    requires n <= |entries|
    ensures OwnDecisions(entries[..n], sessionId) <= OwnDecisions(entries, sessionId)
  {
    if n < |entries| {
      OwnPrefix(entries[..|entries| - 1], n, sessionId);
      assert entries[..|entries| - 1][..n] == entries[..n];
    } else {
      assert entries[..n] == entries;
    }
  }

  lemma LoadIsStored(c: Config, sessionId: string, entries: seq<Entry>, stored: Option<Decision>, reason: Reason)
    ensures var r := Load(c, sessionId, entries, stored, reason); r.Ok? ==> r.result == stored
  {
    hide OwnDecisions, HasCodingHistory;
  }

  lemma StepAgrees(c: Config, sessionId: string, s: State, e: Event)
    requires Agrees(c, sessionId, s) && Step(c, sessionId, s, e).Some?
    ensures Agrees(c, sessionId, Step(c, sessionId, s, e).value)
    ensures s.stored.Some? ==> Step(c, sessionId, s, e).value.stored == s.stored
  {
    hide Load, OwnDecisions, HasCodingHistory;
    match e {
      case Launch(reason) => LoadIsStored(c, sessionId, s.entries, s.stored, reason);
      case AppendEntry => OwnSnoc(s.entries, Custom(s.process.decision), sessionId);
      case Log(entry) => OwnSnoc(s.entries, entry, sessionId);
      case Crash(kept) => OwnPrefix(s.entries, kept, sessionId);
      case _ =>
    }
  }

  /** Across any crashes and resumes, with inputs one after another within each process: the decision in use
      is the durable one, the log holds nothing else, and a session never gets a second durable decision. */
  lemma {:induction false} AtMostOneDecision(c: Config, sessionId: string, s: State, events: seq<Event>, n: nat)
    requires Undecided(sessionId, s) && After(c, sessionId, s, events).Some? && n <= |events|
    ensures Agrees(c, sessionId, After(c, sessionId, s, events).value)
    ensures After(c, sessionId, s, events[..n]).Some?
    ensures var earlier := After(c, sessionId, s, events[..n]).value;
      earlier.stored.Some? ==> After(c, sessionId, s, events).value.stored == earlier.stored
  {
    if n == |events| {
      assert events[..n] == events;
    }
    if events != [] {
      var init := events[..|events| - 1];
      if n < |events| {
        assert init[..n] == events[..n];
        AtMostOneDecision(c, sessionId, s, init, n);
      } else {
        AtMostOneDecision(c, sessionId, s, init, n - 1);
      }
      StepAgrees(c, sessionId, After(c, sessionId, s, init).value, events[|events| - 1]);
    }
  }

  /** In any reachable state a load that succeeds returns exactly the durable decision, or null while none
      is durable; a resume succeeds exactly if the session's own entry is logged or no coding message is,
      a new start or a fork exactly while nothing is durable. */
  lemma LoadReturnsDurable(c: Config, sessionId: string, s: State, events: seq<Event>, reason: Reason)
    requires Undecided(sessionId, s) && After(c, sessionId, s, events).Some?
    ensures var t := After(c, sessionId, s, events).value; var r := Load(c, sessionId, t.entries, t.stored, reason);
      && (r.Ok? ==> r.result == t.stored)
      && (r.Ok? <==>
          if reason.Resume? then OwnDecisions(t.entries, sessionId) != [] || !HasCodingHistory(t.entries)
          else t.stored.None?)
  {
    AtMostOneDecision(c, sessionId, s, events, 0);
    var t := After(c, sessionId, s, events).value;
    ResumeSucceedsIff(c, sessionId, t.entries, t.stored);
  }

  // ----- which resumes succeed -----

  /** One process: its launch, then anything but a crash. */
  ghost predicate OneProcess(events: seq<Event>) {
    events != [] && events[0].Launch? && forall n :: 0 < n < |events| ==> !events[n].Launch? && !events[n].Crash?
  }

  /** In the deciding process the session's own entry is logged before any coding message. */
  ghost predicate LoggedFirst(sessionId: string, base: seq<Entry>, s: State) {
    && base <= s.entries && s.flushed == |base| && !s.process.Down?
    && (s.process.Ready? && s.process.current.Some? ==> OwnDecisions(s.entries, sessionId) != [])
    && forall k :: |base| <= k < |s.entries| && s.entries[k].Coding? ==> OwnDecisions(s.entries[..k], sessionId) != []
  }

  lemma StepLoggedFirst(c: Config, sessionId: string, base: seq<Entry>, s: State, e: Event)
    requires Agrees(c, sessionId, s) && LoggedFirst(sessionId, base, s) && Step(c, sessionId, s, e).Some?
    requires !e.Launch? && !e.Crash?
    ensures LoggedFirst(sessionId, base, Step(c, sessionId, s, e).value)
  {
    hide OwnDecisions;
    var t := Step(c, sessionId, s, e).value;
    if e.AppendEntry? || e.Log? {
      OwnSnoc(s.entries, t.entries[|s.entries|], sessionId);
      forall k | |base| <= k <= |s.entries| ensures t.entries[..k] == s.entries[..k] {
      }
      assert s.entries[..|s.entries|] == s.entries;
    }
  }

  lemma {:induction false} DecidingProcess(c: Config, sessionId: string, s: State, events: seq<Event>)
    requires Undecided(sessionId, s) && OneProcess(events) && After(c, sessionId, s, events).Some?
    ensures Agrees(c, sessionId, After(c, sessionId, s, events).value)
    ensures LoggedFirst(sessionId, s.entries, After(c, sessionId, s, events).value)
  {
    var init, last := events[..|events| - 1], events[|events| - 1];
    if init == [] {
      StepAgrees(c, sessionId, s, last);
      ResumeSucceedsIff(c, sessionId, s.entries, s.stored);
    } else {
      DecidingProcess(c, sessionId, s, init);
      StepAgrees(c, sessionId, After(c, sessionId, s, init).value, last);
      StepLoggedFirst(c, sessionId, s.entries, After(c, sessionId, s, init).value, last);
    }
  }

  lemma HistoryAfterCrash(sessionId: string, base: seq<Entry>, s: State, kept: nat)
    requires LoggedFirst(sessionId, base, s) && |base| <= kept <= |s.entries|
    requires OwnDecisions(s.entries[..kept], sessionId) == []
    ensures HasCodingHistory(s.entries[..kept]) <==> HasCodingHistory(base)
  {
    var left := s.entries[..kept];
    if HasCodingHistory(left) {
      var k :| 0 <= k < kept && left[k] == Coding;
      if k >= |base| {
        assert left[..k] == s.entries[..k];
        OwnPrefix(left, k, sessionId);
      }
    }
    if HasCodingHistory(base) {
      var k :| 0 <= k < |base| && base[k] == Coding;
      assert left[k] == Coding;
    }
  }

  /** The first resume after the deciding process crashes, at whatever point and with whatever part of
      its log lost, succeeds exactly when the session began without coding history or its own entry
      survived. So it always succeeds for a session that was not forked from one with history. */
  lemma FirstResume(c: Config, sessionId: string, s: State, events: seq<Event>, kept: nat)
    requires Undecided(sessionId, s) && OneProcess(events) && After(c, sessionId, s, events + [Crash(kept)]).Some?
    ensures var t := After(c, sessionId, s, events + [Crash(kept)]).value;
      var survives := !HasCodingHistory(s.entries) || OwnDecisions(t.entries, sessionId) != [];
      Load(c, sessionId, t.entries, t.stored, Resume).Ok? <==> survives
  {
    assert (events + [Crash(kept)])[..|events|] == events;
    DecidingProcess(c, sessionId, s, events);
    var u, t := After(c, sessionId, s, events).value, After(c, sessionId, s, events + [Crash(kept)]).value;
    StepAgrees(c, sessionId, u, Crash(kept));
    ResumeSucceedsIff(c, sessionId, t.entries, t.stored);
    if OwnDecisions(t.entries, sessionId) == [] {
      HistoryAfterCrash(sessionId, s.entries, u, kept);
    }
  }

  /** An entry missed in the crash between store write and `appendEntry` is never added later. */
  ghost predicate NeverLogged(sessionId: string, s: State) {
    s.stored.Some? && OwnDecisions(s.entries, sessionId) == [] && !s.process.Wrote?
  }

  lemma {:induction false} MissedEntryStaysMissing(c: Config, sessionId: string, s: State, events: seq<Event>)
    requires Agrees(c, sessionId, s) && s.process.Down? && NeverLogged(sessionId, s)
    requires After(c, sessionId, s, events).Some?
    ensures var t := After(c, sessionId, s, events).value; Agrees(c, sessionId, t) && NeverLogged(sessionId, t)
  {
    if events != [] {
      var init, last := events[..|events| - 1], events[|events| - 1];
      MissedEntryStaysMissing(c, sessionId, s, init);
      var u := After(c, sessionId, s, init).value;
      StepAgrees(c, sessionId, u, last);
      if last.Log? {
        OwnSnoc(u.entries, last.entry, sessionId);
      } else if last.Crash? {
        OwnPrefix(u.entries, last.kept, sessionId);
      }
    }
  }

  /** After such a crash the session can be resumed exactly until a coding message has been kept. */
  lemma LaterResumes(c: Config, sessionId: string, s: State, events: seq<Event>)
    requires Agrees(c, sessionId, s) && s.process.Down? && NeverLogged(sessionId, s)
    requires After(c, sessionId, s, events).Some?
    ensures var t := After(c, sessionId, s, events).value;
      Load(c, sessionId, t.entries, t.stored, Resume).Ok? <==> !HasCodingHistory(t.entries)
  {
    MissedEntryStaysMissing(c, sessionId, s, events);
    var t := After(c, sessionId, s, events).value;
    ResumeSucceedsIff(c, sessionId, t.entries, t.stored);
  }

  /** The refused second resume, step by step. */
  lemma SecondResumeRefused(c: Config, sessionId: string, d: Decision)
    requires d.sessionId == sessionId && d.config == c
    ensures var start := State(None, [], 0, Down);
      var events := [Launch(New), WriteStore(d), Crash(0), Launch(Resume), Log(Coding), Crash(1)];
      && Undecided(sessionId, start) && After(c, sessionId, start, events).Some?
      && var t := After(c, sessionId, start, events).value;
      Load(c, sessionId, t.entries, t.stored, Resume) == Err(EntryMissing)
  {
    hide After;
    var start := State(None, [], 0, Down);
    var e1, e2, e3, e4, e5, e6 := Launch(New), WriteStore(d), Crash(0), Launch(Resume), Log(Coding), Crash(1);
    NothingOwn(sessionId);
    NothingYet(c, sessionId, start);
    assert [e1] == [] + [e1] && [e1, e2] == [e1] + [e2] && [e1, e2, e3] == [e1, e2] + [e3];
    assert [e1, e2, e3, e4] == [e1, e2, e3] + [e4] && [e1, e2, e3, e4, e5] == [e1, e2, e3, e4] + [e5];
    assert [e1, e2, e3, e4, e5, e6] == [e1, e2, e3, e4, e5] + [e6];
    assert [] + [Coding] == [Coding] && [Coding][..1] == [Coding];
    StepTo(c, sessionId, start, [], e1, start, start.(process := Ready(None)));
    var wrote := State(Some(d), [], 0, Wrote(d));
    StepTo(c, sessionId, start, [e1], e2, start.(process := Ready(None)), wrote);
    StepTo(c, sessionId, start, [e1, e2], e3, wrote, wrote.(process := Down));
    var resumed := wrote.(process := Ready(Some(d)));
    StepTo(c, sessionId, start, [e1, e2, e3], e4, wrote.(process := Down), resumed);
    var coding := resumed.(entries := [Coding]);
    StepTo(c, sessionId, start, [e1, e2, e3, e4], e5, resumed, coding);
    StepTo(c, sessionId, start, [e1, e2, e3, e4, e5], e6, coding, coding.(flushed := 1, process := Down));
  }

  lemma NothingYet(c: Config, sessionId: string, s: State)
    ensures After(c, sessionId, s, []) == Some(s)
  {
  }

  lemma StepTo(c: Config, sessionId: string, start: State, events: seq<Event>, e: Event, s: State, t: State)
    requires After(c, sessionId, start, events) == Some(s) && Step(c, sessionId, s, e) == Some(t)
    ensures After(c, sessionId, start, events + [e]) == Some(t)
  {
    Snoc(c, sessionId, start, events, e);
  }

  /** A session forked from one with coding history: if the deciding process crashes before its own entry is
      kept, the first resume is refused. */
  lemma ForkResumeRefused(c: Config, sessionId: string, d: Decision)
    requires d.sessionId == sessionId && d.config == c
    ensures var start := State(None, [Coding], 1, Down);
      var events := [Launch(Fork), WriteStore(d), AppendEntry, Crash(1)];
      && Undecided(sessionId, start) && OneProcess(events[..3]) && After(c, sessionId, start, events).Some?
      && var t := After(c, sessionId, start, events).value;
      t.stored == Some(d) && Load(c, sessionId, t.entries, t.stored, Resume) == Err(EntryMissing)
  {
    hide After;
    var start := State(None, [Coding], 1, Down);
    var e1, e2, e3, e4 := Launch(Fork), WriteStore(d), AppendEntry, Crash(1);
    NothingOwn(sessionId);
    NothingYet(c, sessionId, start);
    assert [] + [e1] == [e1] && [e1] + [e2] == [e1, e2] && [e1, e2] + [e3] == [e1, e2, e3];
    assert [e1, e2, e3] + [e4] == [e1, e2, e3, e4] && [e1, e2, e3, e4][..3] == [e1, e2, e3];
    var open := start.(process := Ready(None));
    StepTo(c, sessionId, start, [], e1, start, open);
    var wrote := open.(stored := Some(d), process := Wrote(d));
    StepTo(c, sessionId, start, [e1], e2, open, wrote);
    var ready := wrote.(entries := [Coding, Custom(d)], process := Ready(Some(d)));
    assert [Coding] + [Custom(d)] == [Coding, Custom(d)] && [Coding, Custom(d)][..1] == [Coding];
    StepTo(c, sessionId, start, [e1, e2], e3, wrote, ready);
    StepTo(c, sessionId, start, [e1, e2, e3], e4, ready, wrote.(process := Down));
  }

  lemma NothingOwn(sessionId: string)
    ensures OwnDecisions([], sessionId) == [] && OwnDecisions([Coding], sessionId) == []
  {
  }

  lemma Snoc(c: Config, sessionId: string, s: State, events: seq<Event>, e: Event)
    requires After(c, sessionId, s, events).Some?
    ensures After(c, sessionId, s, events + [e]) == Step(c, sessionId, After(c, sessionId, s, events).value, e)
  {
    assert (events + [e])[..|events|] == events;
  }

  // ----- inputs that overlap within a process -----

  /** Inputs of one process that all began before a decision was current. Each chooses its own decision,
      writes it to the store, and then makes it current and appends it; `chosen` have still to be written,
      `written` to be appended. */
  datatype Race = Race(state: State, chosen: set<Decision>, written: set<Decision>)

  datatype Move = Write(decision: Decision) | Append(decision: Decision) | Note(entry: Entry)

  function RaceStep(r: Race, move: Move): Option<Race> {
    match move
    case Write(d) =>
      if d in r.chosen then Some(Race(r.state.(stored := Some(d)), r.chosen - {d}, r.written + {d})) else None
    case Append(d) =>
      if d in r.written
      then Some(r.(state := r.state.(entries := r.state.entries + [Custom(d)], process := Ready(Some(d))),
                   written := r.written - {d}))
      else None
    case Note(entry) =>
      if entry.Other? || (entry.Coding? && r.state.process.Ready? && r.state.process.current.Some?)
      then Some(r.(state := r.state.(entries := r.state.entries + [entry]))) else None
  }

  function RaceAfter(s: State, decisions: set<Decision>, moves: seq<Move>): Option<Race> {
    if moves == [] then Some(Race(s, decisions, {}))
    else
      match RaceAfter(s, decisions, moves[..|moves| - 1])
      case None => None
      case Some(r) => RaceStep(r, moves[|moves| - 1])
  }

  predicate BoundTo(c: Config, sessionId: string, d: Decision) { d.sessionId == sessionId && d.config == c }

  ghost predicate RaceInv(c: Config, sessionId: string, s: State, count: nat, r: Race) {
    && r.chosen !! r.written && (forall d :: d in r.chosen || d in r.written ==> BoundTo(c, sessionId, d))
    && |OwnDecisions(r.state.entries, sessionId)| + |r.chosen| + |r.written| == count
    && (OwnDecisions(r.state.entries, sessionId) != [] || r.written != {} ==> r.state.stored.Some?)
    && (r.state.stored.Some? ==> BoundTo(c, sessionId, r.state.stored.value))
    && r.state.process.Ready? && r.state.flushed == s.flushed && s.entries <= r.state.entries
  }

  /** A process that launched and found nothing decided. */
  predicate Open(sessionId: string, s: State) {
    s.process == Ready(None) && s.stored.None? && s.flushed == |s.entries| && OwnDecisions(s.entries, sessionId) == []
  }

  lemma Removed(s: set<Decision>, d: Decision)
    requires d in s
    ensures |s - {d}| == |s| - 1
  {
  }

  lemma Moved(from: set<Decision>, to: set<Decision>, d: Decision)
    requires d in from && from !! to
    ensures |from - {d}| == |from| - 1 && |to + {d}| == |to| + 1 && from - {d} !! to + {d}
  {
  }

  lemma WriteInv(c: Config, sessionId: string, s: State, count: nat, r: Race, d: Decision)
    requires RaceInv(c, sessionId, s, count, r) && d in r.chosen
    ensures RaceInv(c, sessionId, s, count, RaceStep(r, Write(d)).value)
  {
    hide OwnDecisions, BoundTo;
    Moved(r.chosen, r.written, d);
  }

  lemma AppendInv(c: Config, sessionId: string, s: State, count: nat, r: Race, d: Decision)
    requires RaceInv(c, sessionId, s, count, r) && d in r.written
    ensures RaceInv(c, sessionId, s, count, RaceStep(r, Append(d)).value)
  {
    Removed(r.written, d);
    OwnSnoc(r.state.entries, Custom(d), sessionId);
    assert d.sessionId == sessionId;
    hide OwnDecisions, BoundTo;
  }

  lemma NoteInv(c: Config, sessionId: string, s: State, count: nat, r: Race, entry: Entry)
    requires RaceInv(c, sessionId, s, count, r) && RaceStep(r, Note(entry)).Some?
    ensures RaceInv(c, sessionId, s, count, RaceStep(r, Note(entry)).value)
  {
    hide OwnDecisions, BoundTo;
    OwnSnoc(r.state.entries, entry, sessionId);
  }

  lemma RaceStepInv(c: Config, sessionId: string, s: State, count: nat, r: Race, move: Move)
    requires RaceInv(c, sessionId, s, count, r) && RaceStep(r, move).Some?
    ensures RaceInv(c, sessionId, s, count, RaceStep(r, move).value)
  {
    hide RaceInv;
    match move {
      case Write(d) => WriteInv(c, sessionId, s, count, r, d);
      case Append(d) => AppendInv(c, sessionId, s, count, r, d);
      case Note(entry) => NoteInv(c, sessionId, s, count, r, entry);
    }
  }

  lemma {:induction false} RaceRunInv(c: Config, sessionId: string, s: State, decisions: set<Decision>,
      moves: seq<Move>)
    requires Open(sessionId, s) && (forall d :: d in decisions ==> BoundTo(c, sessionId, d))
    requires RaceAfter(s, decisions, moves).Some?
    ensures RaceInv(c, sessionId, s, |decisions|, RaceAfter(s, decisions, moves).value)
  {
    if moves != [] {
      var init := moves[..|moves| - 1];
      RaceRunInv(c, sessionId, s, decisions, init);
      RaceStepInv(c, sessionId, s, |decisions|, RaceAfter(s, decisions, init).value, moves[|moves| - 1]);
    }
  }

  /** No process runs with a decision, and what every crash keeps of the log contradicts the store. */
  ghost predicate Broken(sessionId: string, s: State) {
    && (s.process.Down? || s.process.Failed?) && s.stored.Some? && s.flushed <= |s.entries|
    && OwnDecisions(s.entries[..s.flushed], sessionId) != []
    && OwnDecisions(s.entries[..s.flushed], sessionId) != [s.stored.value]
  }

  lemma BrokenLoad(c: Config, sessionId: string, s: State, reason: Reason)
    requires Broken(sessionId, s)
    ensures Load(c, sessionId, s.entries, s.stored, reason).Err?
  {
    OwnPrefix(s.entries, s.flushed, sessionId);
    ResumeSucceedsIff(c, sessionId, s.entries, s.stored);
  }

  lemma StepBroken(c: Config, sessionId: string, s: State, e: Event)
    requires Broken(sessionId, s) && Step(c, sessionId, s, e).Some?
    ensures Broken(sessionId, Step(c, sessionId, s, e).value)
  {
    hide OwnDecisions, Load, HasCodingHistory;
    if e.Launch? {
      BrokenLoad(c, sessionId, s, e.reason);
    }
    var t := Step(c, sessionId, s, e).value;
    assert s.flushed <= t.flushed <= |t.entries| && t.entries[..t.flushed][..s.flushed] == s.entries[..s.flushed];
    OwnPrefix(t.entries[..t.flushed], s.flushed, sessionId);
  }

  /** Such a session stays refused whatever is tried, by starts of every kind. */
  lemma {:induction false} BrokenForGood(c: Config, sessionId: string, s: State, events: seq<Event>, reason: Reason)
    requires Broken(sessionId, s) && After(c, sessionId, s, events).Some?
    ensures var t := After(c, sessionId, s, events).value;
      Broken(sessionId, t) && Load(c, sessionId, t.entries, t.stored, reason).Err?
  {
    hide Broken, Step, Load;
    if events != [] {
      BrokenForGood(c, sessionId, s, events[..|events| - 1], reason);
      StepBroken(c, sessionId, After(c, sessionId, s, events[..|events| - 1]).value, events[|events| - 1]);
    }
    BrokenLoad(c, sessionId, After(c, sessionId, s, events).value, reason);
  }

  /** However overlapping inputs interleave, and wherever the process then ends: while nothing was written
      the session is as before; otherwise it can be resumed exactly if the log kept the durable decision's
      entry alone, or no entry and no coding message. In any other case with an entry it is broken. */
  lemma OverlappingInputs(c: Config, sessionId: string, s: State, decisions: set<Decision>, moves: seq<Move>,
      kept: nat)
    requires Open(sessionId, s) && (forall d :: d in decisions ==> BoundTo(c, sessionId, d))
    requires RaceAfter(s, decisions, moves).Some?
    requires Step(c, sessionId, RaceAfter(s, decisions, moves).value.state, Crash(kept)).Some?
    ensures var t := Step(c, sessionId, RaceAfter(s, decisions, moves).value.state, Crash(kept)).value;
      var own := OwnDecisions(t.entries, sessionId);
      && (t.stored.None? ==> Undecided(sessionId, t))
      && (t.stored.Some? ==>
           (Load(c, sessionId, t.entries, t.stored, Resume).Ok? <==>
             own == [t.stored.value] || (own == [] && !HasCodingHistory(t.entries))))
      && (own != [] && own != [t.stored.value] ==> Broken(sessionId, t))
  {
    RaceRunInv(c, sessionId, s, decisions, moves);
    hide OwnDecisions, HasCodingHistory, Load, RaceAfter;
    var u := RaceAfter(s, decisions, moves).value.state;
    OwnPrefix(u.entries, kept, sessionId);
    var t := Step(c, sessionId, u, Crash(kept)).value;
    assert t.entries[..t.flushed] == t.entries;
    ResumeSucceedsIff(c, sessionId, t.entries, t.stored);
  }

  /** Two or more inputs accepted, and their log kept: every later start of the session is refused, by the
      test for conflicting entries. */
  lemma AcceptedInputsConflict(c: Config, sessionId: string, s: State, decisions: set<Decision>, moves: seq<Move>,
      reason: Reason)
    requires Open(sessionId, s) && (forall d :: d in decisions ==> BoundTo(c, sessionId, d))
    requires RaceAfter(s, decisions, moves).Some? && |decisions| >= 2
    requires var r := RaceAfter(s, decisions, moves).value; r.chosen == {} && r.written == {}
    ensures var u := RaceAfter(s, decisions, moves).value.state;
      var t := Step(c, sessionId, u, Crash(|u.entries|));
      && t.Some? && Broken(sessionId, t.value) && |OwnDecisions(t.value.entries, sessionId)| == |decisions|
      && Load(c, sessionId, t.value.entries, t.value.stored, reason) == Err(ConflictingEntries)
  {
    RaceRunInv(c, sessionId, s, decisions, moves);
    hide OwnDecisions, HasCodingHistory, RaceAfter;
    EndsConflicting(c, sessionId, RaceAfter(s, decisions, moves).value.state, reason);
  }

  lemma EndsConflicting(c: Config, sessionId: string, s: State, reason: Reason)
    requires s.process.Ready? && s.stored.Some? && s.flushed <= |s.entries| && |OwnDecisions(s.entries, sessionId)| >= 2
    ensures Step(c, sessionId, s, Crash(|s.entries|)) == Some(s.(flushed := |s.entries|, process := Down))
    ensures Broken(sessionId, s.(flushed := |s.entries|, process := Down))
    ensures Load(c, sessionId, s.entries, s.stored, reason) == Err(ConflictingEntries)
  {
    hide OwnDecisions, HasCodingHistory;
    assert s.entries[..|s.entries|] == s.entries;
  }
}
