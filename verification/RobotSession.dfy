/** One reconnecting duplex connection to a robot, with request correlation (`robot_session.py`). */
module RobotSession {
  import opened Text
  import opened Json
  import opened FlowPointers
  import opened FlowWait

  datatype CommandsFrame = CommandsFrame(revision: nat, generation: nat, commands: map<string, Json>)

  /** `flowRevision` is the number of Flow frames seen when the correlated acknowledgement arrived. */
  datatype CommandReceipt = CommandReceipt(result: Json, generation: nat, flowRevision: nat)

  datatype Future = Waiting | Receipt(receipt: CommandReceipt) | Rejection(message: string) | Lost

  /** A running `request_command`: what it captured before dispatch, and its future. */
  datatype Request = Request(websocket: nat, generation: nat, sent: bool, future: Future)

  /** How `request_command` ends. */
  datatype Answer = Accepted(receipt: CommandReceipt) | Refused(message: string) | NotSent | Ambiguous | Cancelled

  /** What has happened on this connection, oldest first. */
  datatype Entry =
    | Opened
    | Closed
    | Framed(frame: FlowFrame)
    | Begun(id: string, generation: nat)
    | Sent(id: string)
    | Settled(ids: set<string>, future: Future)
    | Returned(id: string, answer: Answer)

  datatype Session = Session(
    websocket: Option<nat>, connected: bool, generation: nat,
    flowRevision: nat, latestFlow: Option<FlowPointer>, history: seq<FlowFrame>,
    commandsRevision: nat, latestCommands: Option<CommandsFrame>,
    pending: map<string, Request>, log: seq<Entry>)

  datatype Event =
    | Open(websocket: nat)
    | Close
    | Message(payload: Json)
    | RejectAll
    | Begin(id: string)
    | Send(id: string, delivered: bool)
    | Timeout(id: string)
    | Return(id: string)
    | Cancel(id: string)

  const INITIAL := Session(None, false, 0, 0, None, [], 0, None, map[], [])

  // ---------------------------------------------------------------- steps

  function Activate(s: Session, websocket: nat): Session {
    s.(websocket := Some(websocket), generation := s.generation + 1, latestFlow := None, latestCommands := None,
       connected := true, log := s.log + [Opened])
  }

  function Invalidate(s: Session): Session {
    s.(websocket := None, connected := false, latestFlow := None, latestCommands := None, log := s.log + [Closed])
  }

  /** The future of a correlated response. */
  function Settlement(response: map<string, Json>, generation: nat, flowRevision: nat): (future: Future)
    ensures future != Waiting
  {
    if "error" !in response then Lost
    else if response["error"] == Null then Receipt(CommandReceipt(Get(response, "result"), generation, flowRevision))
    else if TextOf(response["error"]).Some? then Rejection(TextOf(response["error"]).value)
    else Lost
  }

  function Settle(s: Session, response: map<string, Json>): Session {
    var id := TextOf(Get(response, "request_id"));
    if id.None? || id.value !in s.pending || s.pending[id.value].future != Waiting then s
    else
      var future := Settlement(response, s.generation, s.flowRevision);
      s.(pending := s.pending[id.value := s.pending[id.value].(future := future)],
         log := s.log + [Settled({id.value}, future)])
  }

  function TakeCommands(s: Session, commands: map<string, Json>): Session {
    s.(commandsRevision := s.commandsRevision + 1,
       latestCommands := Some(CommandsFrame(s.commandsRevision + 1, s.generation, commands)))
  }

  /** `deque(maxlen=512).append` */
  function Remember(history: seq<FlowFrame>, frame: FlowFrame): seq<FlowFrame> {
    var longer := history + [frame];
    if |longer| > FLOW_HISTORY_LIMIT then longer[1..] else longer
  }

  function TakeFlow(s: Session, flow: Json): Session {
    var revision := s.flowRevision + 1;
    var pointer := ParseFlowPointer(flow, revision, s.generation);
    var frame := FlowFrame(revision, s.generation, pointer);
    s.(flowRevision := revision, latestFlow := pointer, history := Remember(s.history, frame), log := s.log + [Framed(frame)])
  }

  function HandleMessage(s: Session, payload: Json): Session {
    if !payload.Obj? then s
    else
      var fields := payload.fields;
      var settled := if Get(fields, "response").Obj? then Settle(s, fields["response"].fields) else s;
      var informed := if Get(fields, "commands").Obj? then TakeCommands(settled, fields["commands"].fields) else settled;
      if "flow" in fields then TakeFlow(informed, fields["flow"]) else informed
  }

  function WaitingIds(s: Session): set<string> {
    set id | id in s.pending && s.pending[id].future == Waiting
  }

  function LoseWaiting(request: Request): Request {
    if request.future == Waiting then request.(future := Lost) else request
  }

  function RejectPending(s: Session): Session {
    s.(pending := map id | id in s.pending :: LoseWaiting(s.pending[id]),
       log := s.log + [Settled(WaitingIds(s), Lost)])
  }

  function BeginRequest(s: Session, id: string): Session {
    if !s.connected || s.websocket.None? then s
    else
      s.(pending := s.pending[id := Request(s.websocket.value, s.generation, false, Waiting)],
         log := s.log + [Begun(id, s.generation)])
  }

  function Finish(s: Session, id: string, answer: Answer): Session {
    s.(pending := s.pending - {id}, log := s.log + [Returned(id, answer)])
  }

  predicate IsSameConnection(s: Session, request: Request) {
    s.websocket == Some(request.websocket) && s.connected && s.generation == request.generation
  }

  function SendRequest(s: Session, id: string, delivered: bool): Session
    requires id in s.pending
  {
    if !IsSameConnection(s, s.pending[id]) then Finish(s, id, NotSent)
    else if !delivered then Finish(s, id, Ambiguous)
    else s.(pending := s.pending[id := s.pending[id].(sent := true)], log := s.log + [Sent(id)])
  }

  function AnswerOf(s: Session, request: Request): Answer {
    match request.future
    case Receipt(receipt) => if s.connected && s.generation == request.generation then Accepted(receipt) else Ambiguous
    case Rejection(message) => Refused(message)
    case _ => Ambiguous
  }

  predicate HasBegun(log: seq<Entry>, id: string) {
    exists i | 0 <= i < |log| :: log[i].Begun? && log[i].id == id
  }

  predicate HasSettled(log: seq<Entry>, id: string) {
    exists i | 0 <= i < |log| :: log[i].Settled? && id in log[i].ids
  }

  /** Which events can happen: request identifiers are fresh, and a request waits for its future only once sent. */
  predicate Enabled(s: Session, e: Event) {
    match e
    case Begin(id) => !HasBegun(s.log, id)
    case Send(id, _) => id in s.pending && !s.pending[id].sent
    case Timeout(id) => id in s.pending && s.pending[id].sent && s.pending[id].future == Waiting
    case Return(id) => id in s.pending && s.pending[id].sent && s.pending[id].future != Waiting
    case Cancel(id) => id in s.pending && s.pending[id].sent
    case _ => true
  }

  function Apply(s: Session, e: Event): Session
    requires Enabled(s, e)
  {
    match e
    case Open(websocket) => Activate(s, websocket)
    case Close => Invalidate(s)
    case Message(payload) => HandleMessage(s, payload)
    case RejectAll => RejectPending(s)
    case Begin(id) => BeginRequest(s, id)
    case Send(id, delivered) => SendRequest(s, id, delivered)
    case Timeout(id) => Finish(s, id, Ambiguous)
    case Return(id) => Finish(s, id, AnswerOf(s, s.pending[id]))
    case Cancel(id) => Finish(s, id, Cancelled)
  }

  predicate IsRun(s: Session, events: seq<Event>)
    decreases |events|
  {
    events == [] || (Enabled(s, events[0]) && IsRun(Apply(s, events[0]), events[1..]))
  }

  function ApplyAll(s: Session, events: seq<Event>): Session
    requires IsRun(s, events)
    decreases |events|
  {
    if events == [] then s else ApplyAll(Apply(s, events[0]), events[1..])
  }

  // ---------------------------------------------------------------- reading the log

  function Init(log: seq<Entry>): seq<Entry>
    requires log != []
  {
    log[..|log| - 1]
  }

  function Last(log: seq<Entry>): Entry
    requires log != []
  {
    log[|log| - 1]
  }

  function Connections(log: seq<Entry>): nat {
    if log == [] then 0 else Connections(Init(log)) + if Last(log).Opened? then 1 else 0
  }

  predicate IsOpen(log: seq<Entry>) {
    log != [] && (Last(log).Opened? || (!Last(log).Closed? && IsOpen(Init(log))))
  }

  function Frames(log: seq<Entry>): seq<FlowFrame> {
    if log == [] then []
    else if Last(log).Framed? then Frames(Init(log)) + [Last(log).frame]
    else Frames(Init(log))
  }

  /** What an entry must satisfy, given everything logged before it. */
  predicate EntryOk(before: seq<Entry>, e: Entry) {
    match e
    case Framed(frame) =>
      && frame.revision == |Frames(before)| + 1 && frame.generation == Connections(before)
      && (frame.pointer.Some? ==>
            frame.pointer.value.generation == frame.generation && frame.pointer.value.revision == frame.revision)
    case Begun(id, generation) => generation == Connections(before) && IsOpen(before) && !HasBegun(before, id)
    case Sent(id) => HasBegun(before, id)
    case Settled(ids, future) =>
      && (forall id <- ids :: HasBegun(before, id) && !HasSettled(before, id))
      && (future.Receipt? ==>
            future.receipt.generation == Connections(before) && future.receipt.flowRevision == |Frames(before)|)
    case Returned(id, Accepted(receipt)) =>
      && IsOpen(before)
      && Begun(id, Connections(before)) in before
      && Sent(id) in before
      && Settled({id}, Receipt(receipt)) in before
    case _ => true
  }

  predicate LogOk(log: seq<Entry>) {
    log == [] || (LogOk(Init(log)) && EntryOk(Init(log), Last(log)))
  }

  lemma Push(log: seq<Entry>, e: Entry)
    ensures Init(log + [e]) == log && Last(log + [e]) == e
    ensures Connections(log + [e]) == Connections(log) + if e.Opened? then 1 else 0
    ensures IsOpen(log + [e]) == (e.Opened? || (!e.Closed? && IsOpen(log)))
    ensures Frames(log + [e]) == if e.Framed? then Frames(log) + [e.frame] else Frames(log)
    ensures LogOk(log + [e]) == (LogOk(log) && EntryOk(log, e))
  {
    hide EntryOk, HasBegun, HasSettled;
    assert Init(log + [e]) == log;
  }

  lemma Mentions(log: seq<Entry>, e: Entry, id: string)
    ensures HasBegun(log + [e], id) == (HasBegun(log, id) || (e.Begun? && e.id == id))
    ensures HasSettled(log + [e], id) == (HasSettled(log, id) || (e.Settled? && id in e.ids))
  {
    assert forall i | 0 <= i < |log| :: (log + [e])[i] == log[i];
    assert (log + [e])[|log|] == e;
  }

  // ---------------------------------------------------------------- the invariant

  predicate RequestOk(log: seq<Entry>, id: string, request: Request) {
    && Begun(id, request.generation) in log
    && (request.sent ==> Sent(id) in log)
    && (request.future == Waiting <==> !HasSettled(log, id))
    && (request.future.Receipt? ==> Settled({id}, request.future) in log)
  }

  predicate Invariant(s: Session) {
    && LogOk(s.log)
    && s.generation == Connections(s.log)
    && s.connected == s.websocket.Some? == IsOpen(s.log)
    && s.flowRevision == |Frames(s.log)|
    && s.history == LastN(Frames(s.log))
    && (s.latestFlow.Some? ==>
          s.latestFlow.value.revision == s.flowRevision && s.latestFlow.value.generation == s.generation)
    && (s.latestCommands.Some? ==> s.latestCommands.value.generation == s.generation)
    && forall id <- s.pending :: RequestOk(s.log, id, s.pending[id])
  }

  /** An entry that neither begins nor settles a request leaves it as it was. */
  lemma RequestsKept(log: seq<Entry>, e: Entry, id: string, request: Request)
    requires RequestOk(log, id, request)
    requires e.Settled? ==> id !in e.ids
    ensures RequestOk(log + [e], id, request)
  {
    hide HasSettled, HasBegun;
    Mentions(log, e, id);
  }

  lemma RememberIsLastN(frames: seq<FlowFrame>, frame: FlowFrame)
    ensures Remember(LastN(frames), frame) == LastN(frames + [frame])
  {
  }

  lemma ConnectionStep(s: Session, e: Event)
    requires Invariant(s) && (e.Open? || e.Close?)
    ensures Invariant(Apply(s, e))
  {
    hide LogOk, Connections, IsOpen, Frames, RequestOk;
    var entry := if e.Open? then Opened else Closed;
    Push(s.log, entry);
    forall id <- s.pending ensures RequestOk(s.log + [entry], id, s.pending[id]) {
      RequestsKept(s.log, entry, id, s.pending[id]);
    }
  }

  lemma FlowStep(s: Session, flow: Json)
    requires Invariant(s)
    ensures Invariant(TakeFlow(s, flow))
  {
    hide LogOk, Connections, IsOpen, Frames, RequestOk, Remember, LastN;
    var pointer := ParseFlowPointer(flow, s.flowRevision + 1, s.generation);
    hide ParseFlowPointer;
    var entry := Framed(FlowFrame(s.flowRevision + 1, s.generation, pointer));
    Push(s.log, entry);
    RememberIsLastN(Frames(s.log), entry.frame);
    forall id <- s.pending ensures RequestOk(s.log + [entry], id, s.pending[id]) {
      RequestsKept(s.log, entry, id, s.pending[id]);
    }
  }

  lemma BegunIsKnown(log: seq<Entry>, id: string, request: Request)
    requires RequestOk(log, id, request)
    ensures HasBegun(log, id)
  {
    var i :| 0 <= i < |log| && log[i] == Begun(id, request.generation);
    assert log[i].Begun? && log[i].id == id;
  }

  lemma SettleStep(s: Session, response: map<string, Json>)
    requires Invariant(s)
    ensures Invariant(Settle(s, response))
  {
    hide LogOk, Connections, IsOpen, Frames, HasBegun, HasSettled, LastN, TextOf;
    var id := TextOf(Get(response, "request_id"));
    if id.Some? && id.value in s.pending && s.pending[id.value].future == Waiting {
      var entry := Settled({id.value}, Settlement(response, s.generation, s.flowRevision));
      hide Settlement;
      Push(s.log, entry);
      Mentions(s.log, entry, id.value);
      BegunIsKnown(s.log, id.value, s.pending[id.value]);
      forall other <- s.pending | other != id.value
        ensures RequestOk(s.log + [entry], other, s.pending[other])
      {
        RequestsKept(s.log, entry, other, s.pending[other]);
      }
      var after := Settle(s, response);
      forall other <- after.pending ensures RequestOk(after.log, other, after.pending[other]) {
      }
    }
  }

  lemma MessageStep(s: Session, payload: Json)
    requires Invariant(s)
    ensures Invariant(HandleMessage(s, payload))
  {
    hide Settle, TakeFlow, LogOk, Connections, IsOpen, Frames, RequestOk, LastN;
    if payload.Obj? {
      var fields := payload.fields;
      var settled := if Get(fields, "response").Obj? then Settle(s, fields["response"].fields) else s;
      if Get(fields, "response").Obj? {
        SettleStep(s, fields["response"].fields);
      }
      var informed := if Get(fields, "commands").Obj? then TakeCommands(settled, fields["commands"].fields) else settled;
      if "flow" in fields {
        FlowStep(informed, fields["flow"]);
      }
    }
  }

  lemma RejectStep(s: Session)
    requires Invariant(s)
    ensures Invariant(RejectPending(s))
  {
    hide LogOk, Connections, IsOpen, Frames, HasBegun, HasSettled, LastN;
    var entry := Settled(WaitingIds(s), Lost);
    Push(s.log, entry);
    var after := RejectPending(s);
    forall id <- after.pending ensures RequestOk(after.log, id, after.pending[id]) && HasBegun(s.log, id) {
      BegunIsKnown(s.log, id, s.pending[id]);
      Mentions(s.log, entry, id);
    }
  }

  lemma BeginStep(s: Session, id: string)
    requires Invariant(s) && !HasBegun(s.log, id)
    ensures Invariant(BeginRequest(s, id))
  {
    hide LogOk, Connections, IsOpen, Frames, HasBegun, HasSettled, LastN;
    if s.connected && s.websocket.Some? {
      var entry := Begun(id, s.generation);
      Push(s.log, entry);
      forall other <- s.pending ensures RequestOk(s.log + [entry], other, s.pending[other]) {
        RequestsKept(s.log, entry, other, s.pending[other]);
      }
      Mentions(s.log, entry, id);
      if HasSettled(s.log, id) {
        SettledWasBegun(s.log, id);
      }
      assert RequestOk(s.log + [entry], id, BeginRequest(s, id).pending[id]);
    }
  }

  lemma {:induction false} SettledWasBegun(log: seq<Entry>, id: string)
    requires LogOk(log) && HasSettled(log, id)
    ensures HasBegun(log, id)
  {
    hide HasBegun, Frames, Connections, IsOpen;
    assert log == Init(log) + [Last(log)];
    Mentions(Init(log), Last(log), id);
    if HasSettled(Init(log), id) {
      SettledWasBegun(Init(log), id);
    }
  }

  lemma FinishStep(s: Session, id: string, answer: Answer)
    requires Invariant(s) && EntryOk(s.log, Returned(id, answer))
    ensures Invariant(Finish(s, id, answer))
  {
    hide LogOk, Connections, IsOpen, Frames, RequestOk, LastN, EntryOk;
    var entry, after := Returned(id, answer), Finish(s, id, answer);
    Push(s.log, entry);
    forall other <- after.pending ensures RequestOk(after.log, other, after.pending[other]) {
      RequestsKept(s.log, entry, other, s.pending[other]);
    }
  }

  lemma SendStep(s: Session, id: string, delivered: bool)
    requires Invariant(s) && id in s.pending
    ensures Invariant(SendRequest(s, id, delivered))
  {
    hide LogOk, Connections, IsOpen, Frames, HasBegun, HasSettled, LastN, Finish;
    if !IsSameConnection(s, s.pending[id]) {
      FinishStep(s, id, NotSent);
    } else if !delivered {
      FinishStep(s, id, Ambiguous);
    } else {
      var entry := Sent(id);
      Push(s.log, entry);
      BegunIsKnown(s.log, id, s.pending[id]);
      var after := SendRequest(s, id, delivered);
      forall other <- after.pending ensures RequestOk(after.log, other, after.pending[other]) {
        RequestsKept(s.log, entry, other, s.pending[other]);
      }
    }
  }

  lemma ReturnStep(s: Session, id: string)
    requires Invariant(s) && Enabled(s, Return(id))
    ensures Invariant(Apply(s, Return(id)))
  {
    hide LogOk, Connections, IsOpen, Frames, HasBegun, HasSettled, LastN, Finish;
    FinishStep(s, id, AnswerOf(s, s.pending[id]));
  }

  /** Every event, in any order, keeps the invariant. */
  lemma InvariantKept(s: Session, e: Event)
    requires Invariant(s) && Enabled(s, e)
    ensures Invariant(Apply(s, e))
  {
    hide Invariant, Activate, Invalidate, HandleMessage, RejectPending, BeginRequest, SendRequest, Finish;
    match e
    case Open(_) => ConnectionStep(s, e);
    case Close => ConnectionStep(s, e);
    case Message(payload) => MessageStep(s, payload);
    case RejectAll => RejectStep(s);
    case Begin(id) => BeginStep(s, id);
    case Send(id, delivered) => SendStep(s, id, delivered);
    case Return(id) => ReturnStep(s, id);
    case Timeout(id) => FinishStep(s, id, Ambiguous);
    case Cancel(id) => FinishStep(s, id, Cancelled);
  }

  lemma {:induction false} RunInvariant(s: Session, events: seq<Event>)
    requires Invariant(s) && IsRun(s, events)
    ensures Invariant(ApplyAll(s, events))
    decreases |events|
  {
    hide Invariant, Apply, Enabled;
    if events != [] {
      InvariantKept(s, events[0]);
      RunInvariant(Apply(s, events[0]), events[1..]);
    }
  }

  /** Nothing that has been logged is ever lost. */
  lemma LogGrows(s: Session, e: Event)
    requires Enabled(s, e)
    ensures s.log <= Apply(s, e).log
  {
    hide HasBegun, HasSettled, ParseFlowPointer, Settlement, Remember;
  }

  lemma {:induction false} RunLogGrows(s: Session, events: seq<Event>)
    requires IsRun(s, events)
    ensures s.log <= ApplyAll(s, events).log
    decreases |events|
  {
    hide Apply, Enabled;
    if events != [] {
      LogGrows(s, events[0]);
      RunLogGrows(Apply(s, events[0]), events[1..]);
    }
  }

  lemma FramesGrow(log: seq<Entry>, later: seq<Entry>)
    requires log <= later
    ensures Frames(log) <= Frames(later)
  {
    hide Frames;
    ConnectionsGrow(later, |log|, |later|);
    assert later[..|log|] == log && later[..|later|] == later;
  }

  /** There is always an identifier that no request has used. */
  lemma UnusedId(log: seq<Entry>)
    ensures exists id :: !HasBegun(log, id)
  {
    var n := LongestId(log);
    assert !HasBegun(log, seq(n + 1, i => 'x'));
  }

  lemma {:induction false} LongestId(log: seq<Entry>) returns (n: nat)
    ensures forall i | 0 <= i < |log| && log[i].Begun? :: |log[i].id| <= n
  {
    if log == [] {
      n := 0;
    } else {
      n := LongestId(Init(log));
      if Last(log).Begun? && |Last(log).id| > n {
        n := |Last(log).id|;
      }
      assert forall i | 0 <= i < |log| - 1 :: log[i] == Init(log)[i];
    }
  }

  // ---------------------------------------------------------------- the dispatch guard

  predicate IsSamePointer(latest: FlowPointer, pointer: FlowPointer) {
    latest.generation == pointer.generation && latest.revision == pointer.revision
    && latest.flowId == pointer.flowId && latest.status == pointer.status
    && latest.actionIndex == pointer.actionIndex && latest.actionCommand == pointer.actionCommand
  }

  /** The Flow part of the guard checked before every dispatch (`_require_live_execution_state`). */
  predicate FlowGuard(s: Session, pointer: FlowPointer) {
    s.connected && s.generation == pointer.generation && s.latestFlow.Some? && IsSamePointer(s.latestFlow.value, pointer)
  }

  /** Something happened to the connection or to the Flow. */
  predicate IsDisturbance(e: Event) {
    e.Open? || e.Close? || (e.Message? && e.payload.Obj? && "flow" in e.payload.fields)
  }

  predicate IsStale(s: Session, pointer: FlowPointer) {
    s.generation > pointer.generation || s.flowRevision > pointer.revision || !s.connected
  }

  lemma SettleKeepsFlow(s: Session, response: map<string, Json>)
    ensures var after := Settle(s, response);
      after == s.(pending := after.pending, log := after.log)
  {
  }

  lemma QuietStep(s: Session, e: Event)
    requires Enabled(s, e) && !IsDisturbance(e)
    ensures var after := Apply(s, e);
      after.connected == s.connected && after.generation == s.generation
      && after.flowRevision == s.flowRevision && after.latestFlow == s.latestFlow
  {
    hide Settle;
    if e.Message? && e.payload.Obj? && Get(e.payload.fields, "response").Obj? {
      SettleKeepsFlow(s, e.payload.fields["response"].fields);
    }
  }

  lemma RevisionsNeverFall(s: Session, e: Event)
    requires Enabled(s, e)
    ensures Apply(s, e).generation == s.generation + if e.Open? then 1 else 0
    ensures Apply(s, e).flowRevision >= s.flowRevision
    ensures e.Message? && IsDisturbance(e) ==> Apply(s, e).flowRevision > s.flowRevision
    ensures !e.Open? && !s.connected ==> !Apply(s, e).connected
  {
    hide Settle, ParseFlowPointer;
    if e.Message? && e.payload.Obj? && Get(e.payload.fields, "response").Obj? {
      SettleKeepsFlow(s, e.payload.fields["response"].fields);
    }
  }

  /** Once stale, a pointer never passes the guard again. */
  lemma {:induction false} StaleForever(s: Session, events: seq<Event>, pointer: FlowPointer)
    requires Invariant(s) && IsRun(s, events)
    requires pointer.generation <= s.generation && pointer.revision <= s.flowRevision && IsStale(s, pointer)
    ensures !FlowGuard(ApplyAll(s, events), pointer)
    decreases |events|
  {
    if events != [] {
      hide Invariant, Apply, Enabled, FlowGuard;
      InvariantKept(s, events[0]);
      RevisionsNeverFall(s, events[0]);
      StaleForever(Apply(s, events[0]), events[1..], pointer);
    }
  }

  /**
   The guard passes for the pointer that was the latest one exactly when no Flow frame, disconnect or reconnect
   happened since.
   */
  lemma {:induction false} GuardIffUndisturbed(s: Session, events: seq<Event>, pointer: FlowPointer)
    requires Invariant(s) && s.connected && s.latestFlow == Some(pointer) && IsRun(s, events)
    ensures FlowGuard(ApplyAll(s, events), pointer) <==> forall e <- events :: !IsDisturbance(e)
    decreases |events|
  {
    if events != [] {
      hide Apply, Enabled, IsDisturbance;
      InvariantKept(s, events[0]);
      if IsDisturbance(events[0]) {
        RevisionsNeverFall(s, events[0]);
        DisturbanceIsStale(s, events[0], pointer);
        StaleForever(Apply(s, events[0]), events[1..], pointer);
      } else {
        QuietStep(s, events[0]);
        GuardIffUndisturbed(Apply(s, events[0]), events[1..], pointer);
        assert events == [events[0]] + events[1..];
      }
    }
  }

  lemma DisturbanceIsStale(s: Session, e: Event, pointer: FlowPointer)
    requires Invariant(s) && s.latestFlow == Some(pointer) && Enabled(s, e) && IsDisturbance(e)
    ensures IsStale(Apply(s, e), pointer)
  {
    RevisionsNeverFall(s, e);
  }

  // ---------------------------------------------------------------- what a log shows

  lemma {:induction false} LogPrefixOk(log: seq<Entry>, i: nat)
    requires LogOk(log) && i < |log|
    ensures LogOk(log[..i]) && EntryOk(log[..i], log[i])
    decreases |log|
  {
    hide EntryOk;
    if i < |log| - 1 {
      LogPrefixOk(Init(log), i);
      assert Init(log)[..i] == log[..i];
    }
  }

  lemma {:induction false} ConnectionsGrow(log: seq<Entry>, i: nat, j: nat)
    requires i <= j <= |log|
    ensures Connections(log[..i]) <= Connections(log[..j])
    ensures Frames(log[..i]) <= Frames(log[..j])
    decreases j
  {
    if i < j {
      ConnectionsGrow(log, i, j - 1);
      assert log[..j] == log[..j - 1] + [log[j - 1]];
      Push(log[..j - 1], log[j - 1]);
    }
  }

  /** With as many connections before as after, and open at the end, nothing between touched the connection. */
  lemma {:induction false} ConnectionUnbroken(log: seq<Entry>, k: nat, i: nat)
    requires k <= i <= |log| && IsOpen(log[..i]) && Connections(log[..k]) == Connections(log[..i])
    ensures forall m | k <= m < i :: !log[m].Opened? && !log[m].Closed?
    decreases i
  {
    if k < i {
      hide Frames, LogOk;
      assert log[..i] == log[..i - 1] + [log[i - 1]];
      Push(log[..i - 1], log[i - 1]);
      ConnectionsGrow(log, k, i - 1);
      ConnectionUnbroken(log, k, i - 1);
    }
  }

  lemma KnownBefore(log: seq<Entry>, i: nat, j: nat, id: string)
    requires i < j < |log|
    ensures log[i].Settled? && id in log[i].ids ==> HasSettled(log[..j], id)
    ensures log[i].Begun? && log[i].id == id ==> HasBegun(log[..j], id)
  {
    assert log[..j][i] == log[i];
  }

  /** A request is settled at most once. */
  lemma SettledOnce(log: seq<Entry>, i: nat, j: nat, id: string)
    requires LogOk(log) && i < |log| && j < |log|
    requires log[i].Settled? && id in log[i].ids && log[j].Settled? && id in log[j].ids
    ensures i == j
  {
    hide LogOk, Frames, Connections;
    if i < j {
      KnownBefore(log, i, j, id);
      LogPrefixOk(log, j);
    } else if j < i {
      KnownBefore(log, j, i, id);
      LogPrefixOk(log, i);
    }
  }

  lemma BegunOnce(log: seq<Entry>, i: nat, j: nat, id: string)
    requires LogOk(log) && i < |log| && j < |log|
    requires log[i].Begun? && log[i].id == id && log[j].Begun? && log[j].id == id
    ensures i == j
  {
    hide LogOk, Frames, Connections;
    if i < j {
      KnownBefore(log, i, j, id);
      LogPrefixOk(log, j);
    } else if j < i {
      KnownBefore(log, j, i, id);
      LogPrefixOk(log, i);
    }
  }

  /** A frame numbered up to a recorded count was logged before that moment; a later frame has a higher number. */
  lemma FrameSide(log: seq<Entry>, j: nat, m: nat)
    requires LogOk(log) && j < |log| && m < |log| && log[m].Framed?
    ensures log[m].frame.revision <= |Frames(log[..j])| <==> m < j
  {
    hide LogOk, Connections;
    LogPrefixOk(log, m);
    if m < j {
      assert log[..m + 1] == log[..m] + [log[m]];
      Push(log[..m], log[m]);
      ConnectionsGrow(log, m + 1, j);
    } else {
      ConnectionsGrow(log, j, m);
    }
  }

  /** Where the request of an accepted receipt was begun, sent and settled. */
  lemma ReceiptPlaces(log: seq<Entry>, i: nat, id: string, receipt: CommandReceipt) returns (k: nat, n: nat, j: nat)
    requires LogOk(log) && i < |log| && log[i] == Returned(id, Accepted(receipt))
    ensures k < i && log[k] == Begun(id, Connections(log[..i]))
    ensures n < i && log[n] == Sent(id)
    ensures j < i && log[j] == Settled({id}, Receipt(receipt))
  {
    hide LogOk, Frames, Connections, IsOpen;
    LogPrefixOk(log, i);
    k :| 0 <= k < i && log[..i][k] == Begun(id, Connections(log[..i]));
    n :| 0 <= n < i && log[..i][n] == Sent(id);
    j :| 0 <= j < i && log[..i][j] == Settled({id}, Receipt(receipt));
  }

  lemma BegunBefore(log: seq<Entry>, k: nat, j: nat, id: string)
    requires LogOk(log) && k < |log| && j < |log| && log[k].Begun? && log[k].id == id
    requires log[j] == Sent(id) || (log[j].Settled? && id in log[j].ids)
    ensures k < j
  {
    hide LogOk, Frames, Connections;
    LogPrefixOk(log, j);
    var b :| 0 <= b < j && log[..j][b].Begun? && log[..j][b].id == id;
    BegunOnce(log, k, b, id);
  }

  lemma ConnectionAtBegin(log: seq<Entry>, k: nat)
    requires LogOk(log) && k < |log| && log[k].Begun?
    ensures Connections(log[..k]) == log[k].generation
  {
    hide LogOk, Frames, Connections;
    LogPrefixOk(log, k);
  }

  lemma ReceiptContents(log: seq<Entry>, j: nat, id: string, receipt: CommandReceipt)
    requires LogOk(log) && j < |log| && log[j] == Settled({id}, Receipt(receipt))
    ensures receipt.generation == Connections(log[..j]) && receipt.flowRevision == |Frames(log[..j])|
  {
    hide LogOk, Frames, Connections;
    LogPrefixOk(log, j);
  }

  /** An accepted receipt, seen in the log: one unbroken connection, one settlement, and a clean cut of the Flow. */
  predicate IsSound(log: seq<Entry>, k: nat, n: nat, j: nat, i: nat, id: string, receipt: CommandReceipt) {
    && k < n < i < |log| && k < j < i
    && log[k] == Begun(id, receipt.generation)
    && log[n] == Sent(id)
    && log[j] == Settled({id}, Receipt(receipt))
    && receipt.generation == Connections(log[..j])
    && (forall m | k <= m < i :: !log[m].Opened? && !log[m].Closed?)
    && (forall m | 0 <= m < |log| :: log[m].Settled? && id in log[m].ids ==> m == j)
    && (forall m | 0 <= m < |log| :: log[m].Framed? ==> (log[m].frame.revision <= receipt.flowRevision <==> m < j))
  }

  /**
   Whatever the interleaving of reconnects and responses, a receipt that a request returns was dispatched and
   settled within one unbroken connection, settled once, and its revision separates the frames before the
   acknowledgement from those after it.
   */
  lemma ReturnedReceiptIsSound(log: seq<Entry>, i: nat, id: string, receipt: CommandReceipt) returns (k: nat, n: nat, j: nat)
    requires LogOk(log) && i < |log| && log[i] == Returned(id, Accepted(receipt))
    ensures IsSound(log, k, n, j, i, id, receipt)
  {
    hide LogOk, Frames, Connections, IsOpen;
    k, n, j := ReceiptPlaces(log, i, id, receipt);
    BegunBefore(log, k, n, id);
    BegunBefore(log, k, j, id);
    ConnectionAtBegin(log, k);
    LogPrefixOk(log, i);
    ConnectionUnbroken(log, k, i);
    ReceiptContents(log, j, id, receipt);
    ConnectionsGrow(log, k, j);
    ConnectionsGrow(log, j, i);
    forall m | 0 <= m < |log| && log[m].Settled? && id in log[m].ids ensures m == j {
      SettledOnce(log, m, j, id);
    }
    forall m | 0 <= m < |log| && log[m].Framed?
      ensures log[m].frame.revision <= receipt.flowRevision <==> m < j
    {
      FrameSide(log, j, m);
    }
  }

  /** The same for every run of the session from its construction. */
  lemma EveryReturnedReceiptIsSound(events: seq<Event>, i: nat, id: string, receipt: CommandReceipt)
    returns (k: nat, n: nat, j: nat)
    requires IsRun(INITIAL, events)
    requires i < |ApplyAll(INITIAL, events).log|
    requires ApplyAll(INITIAL, events).log[i] == Returned(id, Accepted(receipt))
    ensures IsSound(ApplyAll(INITIAL, events).log, k, n, j, i, id, receipt)
  {
    hide ApplyAll, IsRun, IsSound;
    assert Invariant(INITIAL);
    RunInvariant(INITIAL, events);
    k, n, j := ReturnedReceiptIsSound(ApplyAll(INITIAL, events).log, i, id, receipt);
  }

  /** The pointers published on one connection after a moment in the log. */
  function Heard(log: seq<Entry>, from: nat, generation: nat): seq<Option<FlowPointer>>
    requires from <= |log|
    decreases |log|
  {
    if |log| == from then []
    else
      var earlier := Heard(Init(log), from, generation);
      if Last(log).Framed? && Last(log).frame.generation == generation then earlier + [Last(log).frame.pointer] else earlier
  }

  lemma {:induction false} StreamBefore(log: seq<Entry>, revision: nat, generation: nat)
    requires |Frames(log)| <= revision && LogOk(log)
    ensures Stream(Frames(log), revision, generation) == []
    decreases |log|
  {
    if log != [] {
      hide EntryOk, Stream;
      LogPrefixOk(log, |log| - 1);
      StreamPush(Init(log), Last(log), revision, generation);
      StreamBefore(Init(log), revision, generation);
    }
  }

  lemma StreamPush(log: seq<Entry>, e: Entry, revision: nat, generation: nat)
    requires EntryOk(log, e)
    ensures Stream(Frames(log + [e]), revision, generation)
      == if e.Framed? && |Frames(log)| >= revision && e.frame.generation == generation
         then Stream(Frames(log), revision, generation) + [e.frame.pointer]
         else Stream(Frames(log), revision, generation)
  {
    hide Frames, LogOk;
    Push(log, e);
    if e.Framed? {
      StreamAppend(Frames(log), [e.frame], revision, generation);
    }
  }

  /** What the outcome wait judges after a receipt is what the robot published on that connection after the acknowledgement. */
  lemma {:induction false} StreamAfterAck(log: seq<Entry>, j: nat, generation: nat)
    requires j <= |log| && LogOk(log)
    ensures Stream(Frames(log), |Frames(log[..j])|, generation) == Heard(log, j, generation)
    decreases |log|
  {
    if |log| == j {
      assert log[..j] == log;
      StreamBefore(log, |Frames(log)|, generation);
    } else {
      hide EntryOk, Frames, Stream;
      assert Init(log)[..j] == log[..j];
      assert Init(log)[..|log| - 1] == Init(log);
      assert log == Init(log) + [Last(log)];
      StreamAfterAck(Init(log), j, generation);
      StreamPush(Init(log), Last(log), |Frames(log[..j])|, generation);
      ConnectionsGrow(log, j, |log| - 1);
    }
  }

  /** The published frames are numbered one by one, so the wait may rely on their order. */
  lemma {:induction false} FramesAscend(log: seq<Entry>)
    requires LogOk(log)
    ensures forall i | 0 <= i < |Frames(log)| :: Frames(log)[i].revision == i + 1
    ensures IsAscending(Frames(log))
  {
    if log != [] {
      FramesAscend(Init(log));
    }
  }

  // ---------------------------------------------------------------- the live object

  /** The session object: its methods are the atomic stretches of code between two awaits. */
  class RobotConnection {
    var websocket: Option<nat>
    var connected: bool
    var generation: nat
    var flowRevision: nat
    var latestFlow: Option<FlowPointer>
    var flowHistory: seq<FlowFrame>
    var commandsRevision: nat
    var latestCommands: Option<CommandsFrame>
    var pending: map<string, Request>
    ghost var log: seq<Entry>

    ghost function Abs(): Session
      reads this
    {
      Session(websocket, connected, generation, flowRevision, latestFlow, flowHistory,
              commandsRevision, latestCommands, pending, log)
    }

    constructor ()
      ensures Abs() == INITIAL && Invariant(Abs())
    {
      websocket, connected, generation := None, false, 0;
      flowRevision, latestFlow, flowHistory := 0, None, [];
      commandsRevision, latestCommands := 0, None;
      pending, log := map[], [];
    }

    method ActivateConnection(socket: nat)
      requires Invariant(Abs())
      modifies this
      ensures Abs() == Apply(old(Abs()), Open(socket)) && Invariant(Abs())
    {
      hide Invariant;
      InvariantKept(Abs(), Open(socket));
      websocket := Some(socket);
      generation := generation + 1;
      latestFlow := None;
      latestCommands := None;
      connected := true;
      log := log + [Opened];
    }

    method InvalidateConnection()
      requires Invariant(Abs())
      modifies this
      ensures Abs() == Apply(old(Abs()), Close) && Invariant(Abs())
    {
      hide Invariant;
      InvariantKept(Abs(), Close);
      websocket := None;
      connected := false;
      latestFlow := None;
      latestCommands := None;
      log := log + [Closed];
    }

    method HandleMessage(payload: Json)
      requires Invariant(Abs())
      modifies this
      ensures Abs() == Apply(old(Abs()), Message(payload)) && Invariant(Abs())
    {
      hide Invariant, Settle, TakeCommands, TakeFlow;
      InvariantKept(Abs(), Message(payload));
      if !payload.Obj? {
        return;
      }
      var fields := payload.fields;
      if Get(fields, "response").Obj? {
        SettleResponse(fields["response"].fields);
      }
      if Get(fields, "commands").Obj? {
        TakeCommandsFrame(fields["commands"].fields);
      }
      if "flow" in fields {
        TakeFlowFrame(fields["flow"]);
      }
    }

    method TakeCommandsFrame(commands: map<string, Json>)
      modifies this
      ensures Abs() == TakeCommands(old(Abs()), commands)
    {
      commandsRevision := commandsRevision + 1;
      latestCommands := Some(CommandsFrame(commandsRevision, generation, commands));
    }

    method TakeFlowFrame(flow: Json)
      modifies this
      ensures Abs() == TakeFlow(old(Abs()), flow)
    {
      hide ParseFlowPointer;
      flowRevision := flowRevision + 1;
      latestFlow := ParseFlowPointer(flow, flowRevision, generation);
      var frame := FlowFrame(flowRevision, generation, latestFlow);
      flowHistory := flowHistory + [frame];
      if |flowHistory| > FLOW_HISTORY_LIMIT {
        flowHistory := flowHistory[1..];
      }
      log := log + [Framed(frame)];
    }

    method SettleResponse(response: map<string, Json>)
      modifies this
      ensures Abs() == Settle(old(Abs()), response)
    {
      var id := TextOf(Get(response, "request_id"));
      if id.None? {
        return;
      }
      if id.value !in pending || pending[id.value].future != Waiting {
        return;
      }
      var future: Future;
      if "error" !in response {
        future := Lost;
      } else if response["error"] == Null {
        future := Receipt(CommandReceipt(Get(response, "result"), generation, flowRevision));
      } else if TextOf(response["error"]).Some? {
        future := Rejection(TextOf(response["error"]).value);
      } else {
        future := Lost;
      }
      pending := pending[id.value := pending[id.value].(future := future)];
      log := log + [Settled({id.value}, future)];
    }

    method RejectPendingUnknown()
      requires Invariant(Abs())
      modifies this
      ensures Abs() == Apply(old(Abs()), RejectAll) && Invariant(Abs())
    {
      hide Invariant;
      InvariantKept(Abs(), RejectAll);
      ghost var before := Abs();
      LosePending();
      log := log + [Settled(WaitingIds(before), Lost)];
    }

    method LosePending()
      modifies this`pending
      ensures pending == map id | id in old(pending) :: LoseWaiting(old(pending)[id])
    {
      ghost var before := pending;
      var ids := pending.Keys;
      while ids != {}
        invariant ids <= pending.Keys == before.Keys
        invariant forall id <- before :: pending[id] == if id in ids then before[id] else LoseWaiting(before[id])
        decreases |ids|
      {
        var id :| id in ids;
        if pending[id].future == Waiting {
          pending := pending[id := pending[id].(future := Lost)];
        }
        ids := ids - {id};
      }
    }

    /** The start of `request_command`, up to the send lock. */
    method BeginRequest(id: string) returns (begun: bool)
      requires Invariant(Abs()) && Enabled(Abs(), Begin(id))
      modifies this
      ensures Abs() == Apply(old(Abs()), Begin(id)) && Invariant(Abs())
      ensures begun <==> old(connected)
    {
      InvariantKept(Abs(), Begin(id));
      if !connected || websocket.None? {
        return false;
      }
      pending := pending[id := Request(websocket.value, generation, false, Waiting)];
      log := log + [Begun(id, generation)];
      return true;
    }

    /** Under the send lock: dispatch only on the connection the request started on. */
    method SendRequest(id: string, delivered: bool) returns (sent: bool)
      requires Invariant(Abs()) && Enabled(Abs(), Send(id, delivered))
      modifies this
      ensures Abs() == Apply(old(Abs()), Send(id, delivered)) && Invariant(Abs())
      ensures sent ==> IsSameConnection(old(Abs()), old(pending[id]))
    {
      hide Invariant;
      InvariantKept(Abs(), Send(id, delivered));
      var request := pending[id];
      if websocket != Some(request.websocket) || !connected || generation != request.generation {
        pending := pending - {id};
        log := log + [Returned(id, NotSent)];
        return false;
      }
      if !delivered {
        pending := pending - {id};
        log := log + [Returned(id, Ambiguous)];
        return false;
      }
      pending := pending[id := request.(sent := true)];
      log := log + [Sent(id)];
      return true;
    }

    /** The end of `request_command`, once its future is done. */
    method ReturnRequest(id: string) returns (answer: Answer)
      requires Invariant(Abs()) && Enabled(Abs(), Return(id))
      modifies this
      ensures Abs() == Apply(old(Abs()), Return(id)) && Invariant(Abs())
      ensures answer == AnswerOf(old(Abs()), old(pending[id]))
    {
      hide Invariant;
      InvariantKept(Abs(), Return(id));
      var request := pending[id];
      match request.future {
        case Rejection(message) =>
          answer := Refused(message);
        case Receipt(receipt) =>
          if !connected || generation != request.generation {
            answer := Ambiguous;
          } else {
            answer := Accepted(receipt);
          }
        case _ =>
          answer := Ambiguous;
      }
      pending := pending - {id};
      log := log + [Returned(id, answer)];
    }

    method TimeOutRequest(id: string)
      requires Invariant(Abs()) && Enabled(Abs(), Timeout(id))
      modifies this
      ensures Abs() == Apply(old(Abs()), Timeout(id)) && Invariant(Abs())
    {
      hide Invariant;
      InvariantKept(Abs(), Timeout(id));
      pending := pending - {id};
      log := log + [Returned(id, Ambiguous)];
    }
  }
}
