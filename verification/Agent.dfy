/** The Agent object of packages/agent/src/agent.ts: one run at a time over the loop, its queues and its transcript. */
module Agents {
  import opened Common
  import opened AgentEvents
  import opened AgentLoop
  import opened AgentTurns
  import opened AgentRuns

  datatype Refusal = AlreadyRunning | NothingToContinueFrom | CannotContinueFromAssistant | StillRunning

  class Agent {
    var messages: seq<Message>
    var streamingMessage: Option<Message>
    var pendingToolCalls: set<string>
    var errorMessage: Option<string>
    var active: bool
    const steeringQueue: PendingMessageQueue
    const followUpQueue: PendingMessageQueue
    ghost var steered: seq<Message>   // history: steering messages written to the transcript, in order
    ghost var followed: seq<Message>  // history: follow-up messages written to the transcript, in order

    /** Between runs every queued message is accounted for: it is in the transcript, in order, or still queued. */
    ghost predicate Idle()
      reads this, steeringQueue, followUpQueue
    {
      && Sound() && !active
      && steeringQueue.enqueued == steered + steeringQueue.messages
      && followUpQueue.enqueued == followed + followUpQueue.messages
    }

    ghost predicate Sound()
      reads this, steeringQueue, followUpQueue
    {
      && steeringQueue != followUpQueue && steeringQueue.Valid() && followUpQueue.Valid()
      && (!active ==> steeringQueue.drained == steered && followUpQueue.drained == followed)
    }

    ghost function View(): AgentView
      reads this
    {
      AgentView(messages, streamingMessage, pendingToolCalls, errorMessage)
    }

    constructor (initial: seq<Message>, steeringMode: QueueMode, followUpMode: QueueMode)
      ensures Idle() && messages == initial && fresh(steeringQueue) && fresh(followUpQueue)
    {
      messages, streamingMessage, pendingToolCalls, errorMessage, active := initial, None, {}, None, false;
      steeringQueue := new PendingMessageQueue(steeringMode);
      followUpQueue := new PendingMessageQueue(followUpMode);
      steered, followed := [], [];
    }

    method Steer(message: Message)
      requires Sound()
      modifies steeringQueue
      ensures Sound() && steeringQueue.enqueued == old(steeringQueue.enqueued) + [message]
      ensures steeringQueue.View() == old(steeringQueue.View()).(messages := old(steeringQueue.messages) + [message])
    {
      steeringQueue.Enqueue(message);
    }

    method FollowUp(message: Message)
      requires Sound()
      modifies followUpQueue
      ensures Sound() && followUpQueue.enqueued == old(followUpQueue.enqueued) + [message]
      ensures followUpQueue.View() == old(followUpQueue.View()).(messages := old(followUpQueue.messages) + [message])
    {
      followUpQueue.Enqueue(message);
    }

    method ProcessEvent(event: Event)
      modifies this`messages, this`streamingMessage, this`pendingToolCalls, this`errorMessage
      ensures View() == Reduce(old(View()), event)
    {
      match event
      case MessageStart(m) => streamingMessage := Some(m);
      case MessageUpdate(m) => streamingMessage := Some(m);
      case MessageEnd(m) =>
        streamingMessage := None;
        messages := messages + [m];
      case ToolExecutionStart(id) => pendingToolCalls := pendingToolCalls + {id};
      case ToolExecutionEnd(id, _) => pendingToolCalls := pendingToolCalls - {id};
      case TurnEnd(m, _) =>
        if m.Assistant? && m.msg.errorMessage.Some? && m.msg.errorMessage.value != "" {
          errorMessage := m.msg.errorMessage;
        }
      case AgentEnd(_) => streamingMessage := None;
      case _ =>
    }

    /** The loop awaits the reducer for each event, in order. */
    method ProcessEvents(es: seq<Event>)
      modifies this`messages, this`streamingMessage, this`pendingToolCalls, this`errorMessage
      ensures View() == ReduceAll(old(View()), es)
    {
      for k := 0 to |es|
        invariant View() == ReduceAll(old(View()), es[..k])
      {
        assert es[..k + 1][..k] == es[..k];
        ProcessEvent(es[k]);
      }
      assert es[..|es|] == es;
    }

    /**
     * A run has ended, or is still going. Ended, it has added exactly its prompts and what its turns wrote to the
     * transcript. Either way the queues are those of the run: they have taken in what arrived, handed out what its
     * polls found and hold the rest.
     */
    ghost predicate Ran(i: Inputs, b: Start, r: Result<Loop, Refusal>)
      reads this, steeringQueue, followUpQueue
    {
      && r == (if RunOf(i).stage.Complete? then Ok(RunOf(i).l) else Err(StillRunning))
      && InStep(RunOf(i), steeringQueue, followUpQueue, b)
      && (r.Err? ==> active)
      && (r.Ok? ==> !active && streamingMessage == None && pendingToolCalls == {})
      && (r.Ok? ==> messages == i.base + i.prompts + Written(r.value.turns))
    }

    /** Reduces the events of a run and, if it has ended, leaves the running state. */
    method Absorb(run: Run, ghost i: Inputs, ghost b: Start) returns (r: Result<Loop, Refusal>)
      requires active && run == RunOf(i) && messages == i.base && KeepsContract(i.script)
      requires InStep(run, steeringQueue, followUpQueue, b)
      modifies this
      ensures Ran(i, b, r) && steered == old(steered) && followed == old(followed)
    {
      ghost var before := View();
      ProcessEvents(run.l.events);
      if !run.stage.Complete? { return Err(StillRunning); }
      RunTranscript(i, before);
      streamingMessage, pendingToolCalls, active := None, {}, false;
      return Ok(run.l);
    }

    method RunPrompts(prompts: seq<Message>, skipInitialPoll: bool, initial: Arrivals, script: seq<TurnScript>)
      returns (r: Result<Loop, Refusal>)
      requires !active && KeepsContract(script)
      requires steeringQueue != followUpQueue && steeringQueue.Valid() && followUpQueue.Valid()
      modifies this, steeringQueue, followUpQueue
      ensures Ran(Inputs(prompts, old(messages), old(steeringQueue.View()), old(followUpQueue.View()), skipInitialPoll,
                         initial, script), old(StartOf(steeringQueue, followUpQueue)), r)
      ensures steered == old(steered) && followed == old(followed)
    {
      active, streamingMessage, errorMessage := true, None, None;
      ghost var i := Inputs(prompts, messages, steeringQueue.View(), followUpQueue.View(), skipInitialPoll, initial,
                            script);
      ghost var b := StartOf(steeringQueue, followUpQueue);
      var run := RunAgentLoop(prompts, messages, steeringQueue, followUpQueue, skipInitialPoll, initial, script);
      r := Absorb(run, i, b);
    }

    /** A run without prompts, from a user message or a tool result. */
    method RunContinuation(initial: Arrivals, script: seq<TurnScript>) returns (r: Result<Loop, Refusal>)
      requires !active && KeepsContract(script) && messages != [] && !messages[|messages| - 1].Assistant?
      requires steeringQueue != followUpQueue && steeringQueue.Valid() && followUpQueue.Valid()
      modifies this, steeringQueue, followUpQueue
      ensures Ran(Inputs([], old(messages), old(steeringQueue.View()), old(followUpQueue.View()), false,
                         initial, script),
                  old(StartOf(steeringQueue, followUpQueue)), r)
      ensures steered == old(steered) && followed == old(followed)
    {
      active, streamingMessage, errorMessage := true, None, None;
      ghost var i := Inputs([], messages, steeringQueue.View(), followUpQueue.View(), false, initial, script);
      ghost var b := StartOf(steeringQueue, followUpQueue);
      var run := RunAgentLoopContinue(messages, steeringQueue, followUpQueue, initial, script);
      r := Absorb(run.value, i, b);
    }

    /** Ended: what was queued has been written to the transcript in order or is still queued. */
    method Settle(ghost i: Inputs, ghost b: Start, r: Result<Loop, Refusal>, ghost fromSteering: seq<Message>,
                  ghost fromFollowUp: seq<Message>)
      requires Ran(i, b, r) && r.Ok?
      requires b.steered == steered + fromSteering && b.followed == followed + fromFollowUp
      modifies this`steered, this`followed
      ensures Idle()
      ensures steered == old(steered) + fromSteering + Injected(r.value.turns, Steering)
      ensures followed == old(followed) + fromFollowUp + Injected(r.value.turns, Origin.FollowUp)
    {
      NothingInFlight(i, Steering);
      NothingInFlight(i, Origin.FollowUp);
      steered := steered + fromSteering + Injected(r.value.turns, Steering);
      followed := followed + fromFollowUp + Injected(r.value.turns, Origin.FollowUp);
    }

    method Prompt(prompts: seq<Message>, initial: Arrivals, script: seq<TurnScript>) returns (r: Result<Loop, Refusal>)
      requires if active then Sound() else Idle()
      requires KeepsContract(script)
      modifies this, steeringQueue, followUpQueue
      ensures old(active) ==> r == Err(AlreadyRunning) && unchanged(this, steeringQueue, followUpQueue)
      ensures !old(active) ==>
        Ran(Inputs(prompts, old(messages), old(steeringQueue.View()), old(followUpQueue.View()), false,
                   initial, script),
            old(StartOf(steeringQueue, followUpQueue)), r)
      ensures r.Ok? ==> Idle() && steered == old(steered) + Injected(r.value.turns, Steering)
      ensures r.Ok? ==> followed == old(followed) + Injected(r.value.turns, Origin.FollowUp)
    {
      if active { return Err(AlreadyRunning); }
      ghost var i := Inputs(prompts, messages, steeringQueue.View(), followUpQueue.View(), false, initial, script);
      ghost var b := StartOf(steeringQueue, followUpQueue);
      r := RunPrompts(prompts, false, initial, script);
      if r.Ok? { Settle(i, b, r, [], []); }
    }

    /** What `continue` takes from the queues after an assistant message: steering messages, else follow-ups. */
    method TakeQueued() returns (fromSteering: seq<Message>, fromFollowUp: seq<Message>)
      requires steeringQueue != followUpQueue && steeringQueue.Valid() && followUpQueue.Valid()
      modifies steeringQueue, followUpQueue
      ensures steeringQueue.Valid() && followUpQueue.Valid()
      ensures Took(old(steeringQueue.View()), old(followUpQueue.View()), fromSteering, fromFollowUp)
      ensures StartOf(steeringQueue, followUpQueue) ==
              TookFrom(old(StartOf(steeringQueue, followUpQueue)), fromSteering, fromFollowUp)
    {
      fromFollowUp := [];
      fromSteering := steeringQueue.Drain();
      if fromSteering == [] { fromFollowUp := followUpQueue.Drain(); }
    }

    /** The queues have each been drained, the second only if the first gave nothing. */
    ghost predicate Took(steering: Queue, followUp: Queue, fromSteering: seq<Message>, fromFollowUp: seq<Message>)
      reads this, steeringQueue, followUpQueue
    {
      && fromSteering == Found(steering) && steeringQueue.View() == Left(steering)
      && fromFollowUp == (if fromSteering == [] then Found(followUp) else [])
      && followUpQueue.View() == (if fromSteering == [] then Left(followUp) else followUp)
    }

    /**
     * After an assistant message queued steering messages become the prompts of a run, else queued follow-ups do; after
     * any other message the run has no prompts.
     */
    method Continue(initial: Arrivals, script: seq<TurnScript>)
      returns (r: Result<Loop, Refusal>, fromSteering: seq<Message>, fromFollowUp: seq<Message>)
      requires if active then Sound() else Idle()
      requires KeepsContract(script)
      modifies this, steeringQueue, followUpQueue
      ensures old(active) ==> r == Err(AlreadyRunning)
      ensures !old(active) && old(messages) == [] ==> r == Err(NothingToContinueFrom)
      ensures r.Err? && r.error != StillRunning ==> unchanged(this) && fromSteering == [] == fromFollowUp
      ensures r.Err? && r.error != StillRunning ==>
        && steeringQueue.View() == old(steeringQueue.View()) && followUpQueue.View() == old(followUpQueue.View())
        && StartOf(steeringQueue, followUpQueue) == old(StartOf(steeringQueue, followUpQueue))
      ensures !old(active) && old(messages) != [] ==>
        Continued(old(messages), old(steeringQueue.View()), old(followUpQueue.View()),
                  old(StartOf(steeringQueue, followUpQueue)), initial, script, r, fromSteering, fromFollowUp)
      ensures r.Ok? ==> Idle() && steered == old(steered) + fromSteering + Injected(r.value.turns, Steering)
      ensures r.Ok? ==> followed == old(followed) + fromFollowUp + Injected(r.value.turns, Origin.FollowUp)
      ensures r.Ok? && fromSteering != [] ==> r.value.turns != [] && r.value.turns[0].injected == []
    {
      fromSteering, fromFollowUp := [], [];
      if active { return Err(AlreadyRunning), [], []; }
      if messages == [] { return Err(NothingToContinueFrom), [], []; }
      if messages[|messages| - 1].Assistant? {
        r, fromSteering, fromFollowUp := ContinueQueued(initial, script);
      } else {
        ghost var i := Inputs([], messages, steeringQueue.View(), followUpQueue.View(), false, initial, script);
        ghost var b := StartOf(steeringQueue, followUpQueue);
        r := RunContinuation(initial, script);
        if r.Ok? { Settle(i, b, r, [], []); }
      }
    }

    /**
     * What continuing from a transcript does: after an assistant message a run prompted with what the queues hand out,
     * refused exactly if they hand out nothing; after any other message a run without prompts.
     */
    ghost predicate Continued(before: seq<Message>, steering: Queue, followUp: Queue, b: Start, initial: Arrivals,
                              script: seq<TurnScript>, r: Result<Loop, Refusal>,
                              fromSteering: seq<Message>, fromFollowUp: seq<Message>)
      requires before != []
      reads this, steeringQueue, followUpQueue
    {
      if before[|before| - 1].Assistant? then
        ContinuedQueued(before, steering, followUp, b, initial, script, r, fromSteering, fromFollowUp)
      else
        && fromSteering == [] == fromFollowUp
        && Ran(Inputs([], before, steering, followUp, false, initial, script), b, r)
    }

    ghost predicate ContinuedQueued(before: seq<Message>, steering: Queue, followUp: Queue, b: Start, initial: Arrivals,
                                    script: seq<TurnScript>, r: Result<Loop, Refusal>,
                                    fromSteering: seq<Message>, fromFollowUp: seq<Message>)
      reads this, steeringQueue, followUpQueue
    {
      && fromSteering == Found(steering) && fromFollowUp == (if fromSteering == [] then Found(followUp) else [])
      && if fromSteering == [] == fromFollowUp then r == Err(CannotContinueFromAssistant)
         else Ran(Inputs(fromSteering + fromFollowUp, before, Left(steering),
                         if fromSteering == [] then Left(followUp) else followUp, fromSteering != [], initial, script),
                  TookFrom(b, fromSteering, fromFollowUp), r)
    }

    /** Continues from an assistant message, with what the queues hand out. */
    method ContinueQueued(initial: Arrivals, script: seq<TurnScript>)
      returns (r: Result<Loop, Refusal>, fromSteering: seq<Message>, fromFollowUp: seq<Message>)
      requires Idle() && KeepsContract(script)
      modifies this, steeringQueue, followUpQueue
      ensures ContinuedQueued(old(messages), old(steeringQueue.View()), old(followUpQueue.View()),
                              old(StartOf(steeringQueue, followUpQueue)), initial, script, r,
                              fromSteering, fromFollowUp)
      ensures r.Err? && r.error != StillRunning ==>
        && unchanged(this) && steeringQueue.View() == old(steeringQueue.View())
        && followUpQueue.View() == old(followUpQueue.View())
        && StartOf(steeringQueue, followUpQueue) == old(StartOf(steeringQueue, followUpQueue))
      ensures r.Ok? ==> Idle() && steered == old(steered) + fromSteering + Injected(r.value.turns, Steering)
      ensures r.Ok? ==> followed == old(followed) + fromFollowUp + Injected(r.value.turns, Origin.FollowUp)
      ensures r.Ok? && fromSteering != [] ==> r.value.turns != [] && r.value.turns[0].injected == []
    {
      fromSteering, fromFollowUp := TakeQueued();
      if fromSteering == [] && fromFollowUp == [] { return Err(CannotContinueFromAssistant), [], []; }
      ghost var i := Inputs(fromSteering + fromFollowUp, messages, steeringQueue.View(), followUpQueue.View(),
                            fromSteering != [], initial, script);
      ghost var b := StartOf(steeringQueue, followUpQueue);
      r := RunPrompts(fromSteering + fromFollowUp, fromSteering != [], initial, script);
      if r.Ok? {
        if fromSteering != [] { SkippedPoll(i); }
        Settle(i, b, r, fromSteering, fromFollowUp);
      }
    }
  }

  /** What the queues had handed out and taken in, once more has been handed out. */
  function TookFrom(b: Start, fromSteering: seq<Message>, fromFollowUp: seq<Message>): Start {
    b.(steered := b.steered + fromSteering, followed := b.followed + fromFollowUp)
  }

  /** The events of a complete run, reduced, add exactly its new messages to the transcript. */
  lemma RunTranscript(i: Inputs, v: AgentView)
    requires KeepsContract(i.script) && RunOf(i).stage.Complete? && v.messages == i.base
    ensures ReduceAll(v, RunOf(i).l.events).messages == i.base + i.prompts + Written(RunOf(i).l.turns)
  {
    RunIsWellFormed(i);
    RunWrites(i);
    TranscriptIsEndedMessages(v, RunOf(i).l.events);
    ContextGrows(i.base, i.prompts, Written(RunOf(i).l.turns));
  }

  /**
   * At the k-th turn_end of a complete run the transcript the agent shows is the initial messages, the prompts and what
   * the turns wrote; and it is the loop's own context when no earlier turn had its context replaced.
   */
  lemma TranscriptAgreesAtTurnEnds(i: Inputs, v: AgentView, k: nat)
    requires KeepsContract(i.script) && RunOf(i).stage.Complete? && v.messages == i.base && k < |RunOf(i).l.turns|
    ensures var l := RunOf(i).l;
            && k < |l.snapshots| == |l.turns| <= |i.script| && 0 < l.snapshots[k].length <= |l.events|
            && l.events[l.snapshots[k].length - 1] == TurnEnd(Assistant(i.script[k].final), l.turns[k].results)
            && var shown := ReduceAll(v, l.events[..l.snapshots[k].length]).messages;
            && shown == i.base + l.snapshots[k].newMessages == i.base + (i.prompts + Written(l.turns[..k + 1]))
            && ((forall j :: 0 <= j < k ==> i.script[j].replacement.None?) ==> shown == l.snapshots[k].context)
  {
    RunAgrees(i, k);
    var l := RunOf(i).l;
    TranscriptIsEndedMessages(v, l.events[..l.snapshots[k].length]);
    if forall j :: 0 <= j < k ==> i.script[j].replacement.None? { ContextIsTranscript(i, k); }
  }
}
