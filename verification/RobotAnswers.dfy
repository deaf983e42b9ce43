/** What a robot session holds is what the robot said: answers, commands and the latest Flow (`robot_session.py`). */
module RobotAnswers {
  import opened Text
  import opened Json
  import opened FlowPointers
  import opened FlowWait
  import opened RobotSession

  // ---------------------------------------------------------------- answers to requests

  /** The message answers this request, without an error. */
  predicate Answers(payload: Json, id: string, result: Json) {
    payload.Obj? && Get(payload.fields, "response").Obj?
    && var response := Get(payload.fields, "response").fields;
    Says(response, "request_id", Some(id)) && "error" in response && response["error"] == Null
    && Get(response, "result") == result
  }

  /** The message refuses this request, and says why. */
  predicate Refuses(payload: Json, id: string, message: string) {
    payload.Obj? && Get(payload.fields, "response").Obj?
    && var response := Get(payload.fields, "response").fields;
    Says(response, "request_id", Some(id)) && Says(response, "error", Some(message))
  }

  /** Nothing was said, or the robot said just that. */
  predicate IsFutureSaid(e: Event, id: string, future: Future) {
    match future
    case Receipt(receipt) => e.Message? && Answers(e.payload, id, receipt.result)
    case Rejection(message) => e.Message? && Refuses(e.payload, id, message)
    case _ => true
  }

  /** The future of a request; one that is not pending has not been answered. */
  function FutureOf(s: Session, id: string): Future {
    if id in s.pending then s.pending[id].future else Waiting
  }

  lemma SettlementIsSaid(response: map<string, Json>, id: string, generation: nat, revision: nat)
    requires Says(response, "request_id", Some(id))
    ensures
      var message, future := Message(Obj(map["response" := Obj(response)])), Settlement(response, generation, revision);
      && IsFutureSaid(message, id, future)
      && (future.Receipt? ==> future.receipt.generation == generation && future.receipt.flowRevision == revision)
  {
    TextIff(response, "error");
  }

  lemma SettleSays(s: Session, response: map<string, Json>, id: string)
    ensures
      var before, after := FutureOf(s, id), FutureOf(Settle(s, response), id);
      after == before || IsFutureSaid(Message(Obj(map["response" := Obj(response)])), id, after)
  {
    hide Settlement, IsFutureSaid;
    TextIff(response, "request_id");
    if TextOf(Get(response, "request_id")) == Some(id) {
      SettlementIsSaid(response, id, s.generation, s.flowRevision);
    }
  }

  lemma OnlyTheResponse(e: Event, id: string, future: Future)
    requires e.Message? && e.payload.Obj? && Get(e.payload.fields, "response").Obj?
    requires IsFutureSaid(Message(Obj(map["response" := Get(e.payload.fields, "response")])), id, future)
    ensures IsFutureSaid(e, id, future)
  {
  }

  /** A step leaves a future as it is, or it is the message that says so. */
  lemma StepSays(s: Session, e: Event, id: string)
    requires Enabled(s, e)
    ensures FutureOf(Apply(s, e), id) == FutureOf(s, id) || IsFutureSaid(e, id, FutureOf(Apply(s, e), id))
  {
    hide Settle, ParseFlowPointer, IsFutureSaid;
    match e
    case Message(payload) =>
      if payload.Obj? && Get(payload.fields, "response").Obj? {
        var response := payload.fields["response"].fields;
        SettleSays(s, response, id);
        if FutureOf(Settle(s, response), id) != FutureOf(s, id) {
          OnlyTheResponse(e, id, FutureOf(Settle(s, response), id));
        }
      }
    case _ => OtherStepSays(s, e, id);
  }

  lemma OtherStepSays(s: Session, e: Event, id: string)
    requires Enabled(s, e) && !e.Message?
    ensures FutureOf(Apply(s, e), id) == FutureOf(s, id) || IsFutureSaid(e, id, FutureOf(Apply(s, e), id))
  {
  }

  lemma {:induction false} RunSays(s: Session, events: seq<Event>, id: string)
    requires IsRun(s, events)
    ensures
      var after := FutureOf(ApplyAll(s, events), id);
      after == FutureOf(s, id) || exists e <- events :: IsFutureSaid(e, id, after)
    decreases |events|
  {
    hide Apply, Enabled, FutureOf, IsFutureSaid;
    if events != [] {
      assert events[0] in events && forall e <- events[1..] :: e in events;
      StepSays(s, events[0], id);
      RunSays(Apply(s, events[0]), events[1..], id);
    }
  }

  /**
   In every run, whatever a request comes back with the robot has said to that very request: a result in a message with
   its identifier and an explicit null error, or a refusal with its reason.
   */
  lemma EveryAnswerWasSaid(events: seq<Event>, id: string)
    requires IsRun(INITIAL, events) && id in ApplyAll(INITIAL, events).pending
    ensures
      var after := ApplyAll(INITIAL, events);
      match AnswerOf(after, after.pending[id])
      case Accepted(receipt) => exists e <- events :: e.Message? && Answers(e.payload, id, receipt.result)
      case Refused(message) => exists e <- events :: e.Message? && Refuses(e.payload, id, message)
      case _ => true
  {
    hide ApplyAll, IsRun, Answers, Refuses;
    RunSays(INITIAL, events, id);
    var future := FutureOf(ApplyAll(INITIAL, events), id);
    if !future.Waiting? {
      var e :| e in events && IsFutureSaid(e, id, future);
    }
  }

  /** And what the robot says to a request that waits for it arrives. */
  lemma AnswerArrives(s: Session, payload: Json, id: string, text: string)
    requires id in s.pending && s.pending[id].future == Waiting
    ensures
      var future := FutureOf(Apply(s, Message(payload)), id);
      && (forall result | Answers(payload, id, result) ::
            future == Receipt(CommandReceipt(result, s.generation, s.flowRevision)))
      && (Refuses(payload, id, text) ==> future == Rejection(text))
  {
    hide ParseFlowPointer;
    if payload.Obj? && Get(payload.fields, "response").Obj? {
      TextIff(Get(payload.fields, "response").fields, "request_id");
      TextIff(Get(payload.fields, "response").fields, "error");
    }
  }

  // ---------------------------------------------------------------- what the robot showed last

  predicate ShowsCommands(e: Event, frame: CommandsFrame) {
    e.Message? && e.payload.Obj? && Get(e.payload.fields, "commands") == Obj(frame.commands)
  }

  ghost predicate ShowsFlow(e: Event, p: FlowPointer) {
    e.Message? && e.payload.Obj? && "flow" in e.payload.fields
    && Shows(e.payload.fields["flow"], p.revision, p.generation, p)
  }

  lemma SettleKeepsFrames(s: Session, response: map<string, Json>)
    ensures Settle(s, response).latestCommands == s.latestCommands && Settle(s, response).latestFlow == s.latestFlow
    ensures Settle(s, response).generation == s.generation && Settle(s, response).flowRevision == s.flowRevision
  {
  }

  lemma StepShows(s: Session, e: Event)
    requires Enabled(s, e)
    ensures
      var after := Apply(s, e);
      && (after.latestCommands.Some? ==>
            after.latestCommands == s.latestCommands
            || (ShowsCommands(e, after.latestCommands.value) && after.latestCommands.value.generation == after.generation))
      && (after.latestFlow.Some? ==>
            (after.latestFlow == s.latestFlow && after.flowRevision == s.flowRevision)
            || (ShowsFlow(e, after.latestFlow.value) && after.latestFlow.value.generation == after.generation
                && after.latestFlow.value.revision == after.flowRevision))
      && (after.generation != s.generation ==> after.latestCommands.None? && after.latestFlow.None?)
  {
    hide Settle, ParseFlowPointer, Shows;
    if e.Message? && e.payload.Obj? {
      var fields := e.payload.fields;
      if Get(fields, "response").Obj? {
        SettleKeepsFrames(s, fields["response"].fields);
      }
      if "flow" in fields {
        var read := ParseFlowPointer(fields["flow"], s.flowRevision + 1, s.generation);
        if read.Some? {
          PointerIff(fields["flow"], s.flowRevision + 1, s.generation, read.value);
          ReadRevision(fields["flow"], s.flowRevision + 1, s.generation, read.value);
        }
      }
    }
  }

  lemma ReadRevision(flow: Json, revision: nat, generation: nat, p: FlowPointer)
    requires Shows(flow, revision, generation, p)
    ensures p.revision == revision && p.generation == generation
  {
  }

  /** The commands and the Flow that the session holds were shown by these events, the Flow last, on this connection. */
  ghost predicate AreShown(s: Session, events: seq<Event>) {
    && (s.latestCommands.Some? ==>
          s.latestCommands.value.generation == s.generation && exists e <- events :: ShowsCommands(e, s.latestCommands.value))
    && (s.latestFlow.Some? ==>
          s.latestFlow.value.generation == s.generation && s.latestFlow.value.revision == s.flowRevision
          && exists e <- events :: ShowsFlow(e, s.latestFlow.value))
  }

  lemma OneMoreShown(s: Session, before: seq<Event>, e: Event)
    requires AreShown(s, before) && Enabled(s, e)
    ensures AreShown(Apply(s, e), before + [e])
  {
    hide Apply, Enabled, ShowsCommands, ShowsFlow;
    StepShows(s, e);
    assert e in before + [e] && forall d <- before :: d in before + [e];
  }

  lemma {:induction false} RunShows(s: Session, before: seq<Event>, events: seq<Event>)
    requires AreShown(s, before) && IsRun(s, events)
    ensures AreShown(ApplyAll(s, events), before + events)
    decreases |events|
  {
    hide Apply, Enabled, AreShown;
    if events == [] {
      assert before + events == before;
    } else {
      OneMoreShown(s, before, events[0]);
      RunShows(Apply(s, events[0]), before + [events[0]], events[1..]);
      assert before + [events[0]] + events[1..] == before + events;
    }
  }

  /** In every run, the commands the guard relies on and the pointer it compares with are what the robot showed. */
  lemma EveryFrameWasShown(events: seq<Event>)
    requires IsRun(INITIAL, events)
    ensures AreShown(ApplyAll(INITIAL, events), events)
  {
    hide ApplyAll, IsRun;
    RunShows(INITIAL, [], events);
    assert [] + events == events;
  }

  /** And what the robot shows is what the session then holds, as far as it can be read. */
  lemma FrameArrives(s: Session, payload: Json, commands: map<string, Json>, p: FlowPointer)
    ensures
      var after := Apply(s, Message(payload));
      && (payload.Obj? && Get(payload.fields, "commands") == Obj(commands) ==>
            after.latestCommands.Some? && after.latestCommands.value.commands == commands
            && after.latestCommands.value.generation == s.generation)
      && (payload.Obj? && "flow" in payload.fields ==>
            after.flowRevision == s.flowRevision + 1
            && (after.latestFlow == Some(p) <==> Shows(payload.fields["flow"], s.flowRevision + 1, s.generation, p)))
  {
    hide Settle, ParseFlowPointer, Shows;
    if payload.Obj? {
      if Get(payload.fields, "response").Obj? {
        SettleKeepsFrames(s, payload.fields["response"].fields);
      }
      if "flow" in payload.fields {
        PointerIff(payload.fields["flow"], s.flowRevision + 1, s.generation, p);
      }
    }
  }
}
