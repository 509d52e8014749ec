/**
 * runLoop and streamAssistantResponse of packages/agent/src/agent-loop.ts, and the message queue of agent.ts.
 * The model, the stream, the hooks, the tools and the user who queues messages are a finite script, one entry per turn:
 * every run that ends is the run of some script. RunFrom is the loop as a function of its inputs; the methods, with the
 * loops of the source, compute it. What it promises is proved in AgentRuns.
 */
module AgentLoop {
  import opened Common
  import opened AgentEvents
  import opened ToolBatch

  // ---------------------------------------------------------------- message queues

  datatype QueueMode = All | OneAtATime

  datatype Queue = Queue(messages: seq<Message>, mode: QueueMode)

  /** What a drain hands out. */
  function Found(q: Queue): (found: seq<Message>)
    ensures found <= q.messages
  {
    if q.mode.All? || q.messages == [] then q.messages else q.messages[..1]
  }

  /** What a drain leaves queued. */
  function Left(q: Queue): Queue { q.(messages := q.messages[|Found(q)|..]) }

  class PendingMessageQueue {
    var messages: seq<Message>
    var mode: QueueMode
    ghost var enqueued: seq<Message>  // history, oldest first
    ghost var drained: seq<Message>   // history, in the order handed out

    ghost predicate Valid()
      reads this
    {
      enqueued == drained + messages
    }

    ghost function View(): Queue
      reads this
    {
      Queue(messages, mode)
    }

    constructor (mode: QueueMode)
      ensures Valid() && View() == Queue([], mode) && enqueued == []
    {
      messages, this.mode, enqueued, drained := [], mode, [], [];
    }

    method Enqueue(message: Message)
      requires Valid()
      modifies this
      ensures Valid() && View() == old(View()).(messages := old(messages) + [message])
      ensures enqueued == old(enqueued) + [message] && drained == old(drained)
    {
      messages := messages + [message];
      enqueued := enqueued + [message];
    }

    method Drain() returns (out: seq<Message>)
      requires Valid()
      modifies this
      ensures Valid() && out == Found(old(View())) && View() == Left(old(View()))
      ensures out + messages == old(messages)
      ensures enqueued == old(enqueued) && drained == old(drained) + out
    {
      if mode == All {
        out := messages;
        messages := [];
      } else if messages == [] {
        out := [];
      } else {
        out := [messages[0]];
        messages := messages[1..];
      }
      drained := drained + out;
    }

    method Clear()
      requires Valid()
      modifies this
      ensures Valid() && View() == old(View()).(messages := []) && drained == old(drained)
    {
      messages := [];
      enqueued := drained;
    }
  }

  // ---------------------------------------------------------------- one assistant response

  datatype StreamEvent = StreamStart(partial: AssistantMessage) | StreamDelta(partial: AssistantMessage) | StreamFinish

  /** Start events the loop consumes: those before the first done or error event. */
  function Starts(stream: seq<StreamEvent>): nat {
    if stream == [] || stream[0].StreamFinish? then 0
    else (if stream[0].StreamStart? then 1 else 0) + Starts(stream[1..])
  }

  /** The context after a response, `started` start events of which have been seen. */
  function StreamContext(context: seq<Message>, started: nat, stream: seq<StreamEvent>,
                         final: AssistantMessage): seq<Message>
    requires started > 0 ==> context != []
    decreases |stream|
  {
    var last := |context| - 1;
    if stream == [] || stream[0].StreamFinish? then
      if started > 0 then context[last := Assistant(final)] else context + [Assistant(final)]
    else if stream[0].StreamStart? then
      StreamContext(context + [Assistant(stream[0].partial)], started + 1, stream[1..], final)
    else if started > 0 then StreamContext(context[last := Assistant(stream[0].partial)], started, stream[1..], final)
    else StreamContext(context, started, stream[1..], final)
  }

  /** The events es and those of a response, `started` start events of which have been seen. */
  function StreamTrace(es: seq<Event>, started: nat, stream: seq<StreamEvent>, final: AssistantMessage): seq<Event>
    decreases |stream|
  {
    if stream == [] || stream[0].StreamFinish? then
      (if started > 0 then es else es + [MessageStart(Assistant(final))]) + [MessageEnd(Assistant(final))]
    else if stream[0].StreamStart? then
      StreamTrace(es + [MessageStart(Assistant(stream[0].partial))], started + 1, stream[1..], final)
    else if started > 0 then
      StreamTrace(es + [MessageUpdate(Assistant(stream[0].partial))], started, stream[1..], final)
    else StreamTrace(es, started, stream[1..], final)
  }

  method StreamAssistantResponse(context: seq<Message>, events: seq<Event>, stream: seq<StreamEvent>,
                                 final: AssistantMessage)
    returns (context': seq<Message>, es: seq<Event>)
    ensures context' == StreamContext(context, 0, stream, final) && es == StreamTrace(events, 0, stream, final)
  {
    context', es := context, events;
    var started, k := 0, 0;
    while k < |stream| && !stream[k].StreamFinish?
      invariant 0 <= k <= |stream| && (started > 0 ==> context' != [])
      invariant StreamContext(context', started, stream[k..], final) == StreamContext(context, 0, stream, final)
      invariant StreamTrace(es, started, stream[k..], final) == StreamTrace(events, 0, stream, final)
    {
      assert stream[k..][1..] == stream[k + 1..];
      match stream[k] {
        case StreamStart(partial) =>
          context' := context' + [Assistant(partial)];
          es := es + [MessageStart(Assistant(partial))];
          started := started + 1;
        case StreamDelta(partial) =>
          if started > 0 {
            context' := context'[|context'| - 1 := Assistant(partial)];
            es := es + [MessageUpdate(Assistant(partial))];
          }
        case StreamFinish => assert false;
      }
      k := k + 1;
    }
    if started > 0 {
      context' := context'[|context'| - 1 := Assistant(final)];
    } else {
      context' := context' + [Assistant(final)];
      es := es + [MessageStart(Assistant(final))];
    }
    es := es + [MessageEnd(Assistant(final))];
  }

  // ---------------------------------------------------------------- one turn

  /** What reaches the queues before they are polled, and the modes set by then. */
  datatype Arrivals =
    Arrivals(steer: seq<Message>, followUp: seq<Message>, steerMode: QueueMode, followUpMode: QueueMode)

  datatype TurnScript = TurnScript(
    stream: seq<StreamEvent>,
    final: AssistantMessage,
    aborted: bool,                      // the signal has been aborted by the time the response is complete
    sequential: bool,                   // configured, or demanded by a called tool
    plans: Plans,
    schedule: seq<nat>,
    replacement: Option<seq<Message>>,  // context returned by prepareNextTurn
    shouldStop: bool,                   // shouldStopAfterTurn
    beforeSteeringPoll: Arrivals,
    beforeFollowUpPoll: Arrivals)

  datatype Origin = Steering | FollowUp

  /** A poll of a queue: its mode, what it handed out and what it left. NoPoll is the one `continue` skips. */
  datatype Poll = NoPoll | Poll(origin: Origin, mode: QueueMode, found: seq<Message>, left: seq<Message>)

  /** A turn: the polls made before it and the last of them, what it injected, the response, what the tools did. */
  datatype TurnRecord = TurnRecord(polls: nat, poll: Poll, injected: seq<Message>, message: AssistantMessage,
                                   results: seq<Message>, executed: seq<ToolCall>, aborted: bool)

  /** The loop's variables at a turn_end, the last of the first `length` events. */
  datatype Snapshot = Snapshot(context: seq<Message>, newMessages: seq<Message>, length: nat, replaced: bool)

  /** The loop's variables; turns, snapshots, polls and replaced are history. */
  datatype Loop = Loop(context: seq<Message>, newMessages: seq<Message>, events: seq<Event>, aborted: bool,
                       replaced: bool, turns: seq<TurnRecord>, snapshots: seq<Snapshot>, polls: seq<Poll>)

  /** The tool phase of a turn. */
  function Tools(message: AssistantMessage, s: TurnScript, aborted: bool): BatchRun {
    if message.stopReason.Length? then Truncated(message.toolCalls, aborted)
    else if s.sequential then Sequential(message.toolCalls, s.plans, aborted)
    else Concurrent(message.toolCalls, s.plans, aborted, s.schedule)
  }

  /** A batch of a truncated message never ends the run. */
  predicate Terminates(message: AssistantMessage, run: BatchRun) {
    !message.stopReason.Length? && run.outcomes.Some? && ShouldTerminate(run.outcomes.value)
  }

  method RunTools(message: AssistantMessage, s: TurnScript, aborted: bool) returns (run: BatchRun, terminate: bool)
    ensures run == Tools(message, s, aborted) && terminate == Terminates(message, run)
  {
    if message.stopReason == Length {
      run := FailTruncated(message.toolCalls, aborted);
      return run, false;
    }
    if s.sequential {
      run := ExecuteSequential(message.toolCalls, s.plans, aborted);
    } else {
      run := ExecuteParallel(message.toolCalls, s.plans, aborted, s.schedule);
    }
    terminate := run.outcomes.Some? && ShouldTerminate(run.outcomes.value);
  }

  function Extended(l: Loop, ms: seq<Message>, es: seq<Event>): Loop {
    l.(context := l.context + ms, newMessages := l.newMessages + ms, events := l.events + es)
  }

  /** Turns are separated by turn_start; the first one was opened by the caller. */
  function Opened(l: Loop): Loop {
    if l.turns == [] then l else l.(events := l.events + [TurnStart])
  }

  function Responded(l: Loop, s: TurnScript): Loop {
    l.(context := StreamContext(l.context, 0, s.stream, s.final), newMessages := l.newMessages + [Assistant(s.final)],
       events := StreamTrace(l.events, 0, s.stream, s.final), aborted := l.aborted || s.aborted)
  }

  function Closed(l: Loop, r: TurnRecord): Loop {
    l.(turns := l.turns + [r], events := l.events + [TurnEnd(Assistant(r.message), r.results)],
       snapshots := l.snapshots + [Snapshot(l.context, l.newMessages, |l.events| + 1, l.replaced)])
  }

  /** A turn up to its response. */
  function Begun(l: Loop, pending: seq<Message>, s: TurnScript): Loop {
    Responded(Extended(Opened(l), pending, BracketAll(pending)), s)
  }

  function LastPoll(l: Loop): Poll { if l.polls == [] then NoPoll else l.polls[|l.polls| - 1] }

  function NewRecord(l: Loop, pending: seq<Message>, s: TurnScript): TurnRecord {
    TurnRecord(|l.polls|, LastPoll(l), pending, s.final, [], [], l.aborted)
  }

  /** The rest of a turn once its tools have run, and whether they want another turn. None: a tool never ends. */
  function WithTools(l: Loop, r: TurnRecord, run: BatchRun): Option<(Loop, bool)> {
    if run.outcomes.None? then None
    else
      var results := ResultMessages(run.outcomes.value);
      Some((Closed(Extended(l, results, run.events).(aborted := run.aborted),
                   r.(results := results, executed := run.executed, aborted := run.aborted)),
            !Terminates(r.message, run)))
  }

  predicate CallsTools(m: AssistantMessage) { !Failed(m) && m.toolCalls != [] }

  function TurnOf(l: Loop, pending: seq<Message>, s: TurnScript): (r: Option<(Loop, bool)>)
    ensures r.Some? ==> |r.value.0.turns| == |l.turns| + 1
  {
    var begun := Begun(l, pending, s);
    var record := NewRecord(begun, pending, s);
    if CallsTools(s.final) then WithTools(begun, record, Tools(s.final, s, begun.aborted))
    else Some((Closed(begun, record), false))
  }

  /** Emits the bracket of each message and pushes it on the context and the new messages. */
  method Inject(l: Loop, pending: seq<Message>) returns (l': Loop)
    ensures l' == Extended(l, pending, BracketAll(pending))
  {
    var context, newMessages, events := l.context, l.newMessages, l.events;
    for k := 0 to |pending|
      invariant context == l.context + pending[..k]
      invariant newMessages == l.newMessages + pending[..k]
      invariant events == l.events + BracketAll(pending[..k])
    {
      BracketOneMore(pending, k);
      assert events + Bracket(pending[k]) == l.events + BracketAll(pending[..k + 1]);
      events := events + Bracket(pending[k]);
      context := context + [pending[k]];
      newMessages := newMessages + [pending[k]];
    }
    assert pending[..|pending|] == pending;
    return l.(context := context, newMessages := newMessages, events := events);
  }

  lemma BracketOneMore(ms: seq<Message>, k: nat)
    requires k < |ms|
    ensures BracketAll(ms[..k + 1]) == BracketAll(ms[..k]) + Bracket(ms[k])
  {
    assert ms[..k + 1][..k] == ms[..k];
  }

  /** Pushes each tool result on the context and the new messages. */
  method PushResults(l: Loop, results: seq<Message>, es: seq<Event>) returns (l': Loop)
    ensures l' == Extended(l, results, es)
  {
    var context, newMessages := l.context, l.newMessages;
    for k := 0 to |results|
      invariant context == l.context + results[..k]
      invariant newMessages == l.newMessages + results[..k]
    {
      context := context + [results[k]];
      newMessages := newMessages + [results[k]];
    }
    assert results[..|results|] == results;
    return l.(context := context, newMessages := newMessages, events := l.events + es);
  }

  method BeginTurn(l0: Loop, pending: seq<Message>, s: TurnScript) returns (l: Loop)
    ensures l == Begun(l0, pending, s)
  {
    l := l0;
    if l.turns != [] { l := l.(events := l.events + [TurnStart]); }
    l := Inject(l, pending);
    var context, es := StreamAssistantResponse(l.context, l.events, s.stream, s.final);
    l := l.(context := context, newMessages := l.newMessages + [Assistant(s.final)], events := es,
            aborted := l.aborted || s.aborted);
  }

  /** A turn from its pending messages to its turn_end. */
  method RunTurn(l0: Loop, pending: seq<Message>, s: TurnScript) returns (r: Option<(Loop, bool)>)
    ensures r == TurnOf(l0, pending, s)
  {
    var l := BeginTurn(l0, pending, s);
    var record := NewRecord(l, pending, s);
    if !CallsTools(s.final) {
      return Some((Closed(l, record), false));
    }
    var run, terminate := RunTools(s.final, s, l.aborted);
    if run.outcomes.None? { return None; }
    var results := ResultMessages(run.outcomes.value);
    l := PushResults(l, results, run.events);
    l := l.(aborted := run.aborted);
    record := record.(results := results, executed := run.executed, aborted := run.aborted);
    return Some((Closed(l, record), !terminate));
  }

  // ---------------------------------------------------------------- the loop

  /** Lost: the script has no turn for a loop that wants one, or leaves a tool running. */
  datatype Stage = Going | Complete | Lost

  /** The loop with the queues it polls; `arrived` is history. */
  datatype Run = Run(l: Loop, steering: Queue, followUp: Queue, pending: seq<Message>, hasMoreToolCalls: bool,
                     stage: Stage, arrived: seq<Arrivals>)

  /** The loop has tool results to report or messages to serve. */
  predicate Wants(r: Run) { r.hasMoreToolCalls || r.pending != [] }

  function Arrived(r: Run, a: Arrivals): Run {
    r.(steering := Queue(r.steering.messages + a.steer, a.steerMode),
       followUp := Queue(r.followUp.messages + a.followUp, a.followUpMode),
       arrived := r.arrived + [a])
  }

  function PollOf(origin: Origin, q: Queue): Poll { Poll(origin, q.mode, Found(q), Left(q).messages) }

  function PollSteering(r: Run): Run {
    r.(l := r.l.(polls := r.l.polls + [PollOf(Steering, r.steering)]),
       pending := Found(r.steering), steering := Left(r.steering))
  }

  /** Follow-ups found are served like a new request. */
  function PollFollowUp(r: Run): Run {
    r.(l := r.l.(polls := r.l.polls + [PollOf(FollowUp, r.followUp)]),
       pending := Found(r.followUp), followUp := Left(r.followUp), hasMoreToolCalls := true)
  }

  function Over(r: Run, l: Loop): Run {
    r.(l := l.(events := l.events + [AgentEnd(l.newMessages)]), pending := [], hasMoreToolCalls := false,
       stage := Complete)
  }

  /** prepareNextTurn may hand the loop another context. */
  function PrepareNext(l: Loop, replacement: Option<seq<Message>>): Loop {
    if replacement.None? then l else l.(context := replacement.value, replaced := true)
  }

  /** What follows a turn_end: the hooks, then the steering poll. */
  function AfterTurn(r: Run, l: Loop, more: bool, s: TurnScript): Run {
    if Failed(s.final) then Over(r, l)
    else if s.shouldStop then Over(r, PrepareNext(l, s.replacement))
    else PollSteering(Arrived(r.(l := PrepareNext(l, s.replacement), hasMoreToolCalls := more), s.beforeSteeringPoll))
  }

  /** One pass of the inner loop. */
  function Pass(r: Run, s: TurnScript): (p: Run)
    ensures p.stage.Lost? || |p.l.turns| == |r.l.turns| + 1
  {
    match TurnOf(r.l, r.pending, s)
    case None => r.(stage := Lost)
    case Some((l, more)) => AfterTurn(r, l, more, s)
  }

  /** The inner loop is done: poll for follow-ups. */
  function Outer(r: Run, a: Arrivals): (p: Run)
    ensures |p.l.turns| == |r.l.turns| && (p.stage.Going? ==> Wants(p))
  {
    var next := PollFollowUp(Arrived(r, a));
    if next.pending == [] then Over(next, next.l) else next
  }

  /** The loop from a state on. Turn k runs script[k]. */
  function RunFrom(r: Run, script: seq<TurnScript>): (e: Run)
    requires |r.l.turns| <= |script|
    ensures !e.stage.Going?
    decreases |script| - |r.l.turns|, if !r.stage.Going? then 0 else if Wants(r) then 1 else 2
  {
    var k := |r.l.turns|;
    if !r.stage.Going? then r
    else if Wants(r) then if k == |script| then r.(stage := Lost) else RunFrom(Pass(r, script[k]), script)
    else if k == 0 then r.(stage := Lost)
    else RunFrom(Outer(r, script[k - 1].beforeFollowUpPoll), script)
  }

  /** The steering poll before the first turn, which `continue` skips when it has just drained the queue itself. */
  function StartRun(l: Loop, steering: Queue, followUp: Queue, skipInitialPoll: bool, initial: Arrivals): Run {
    var r := Arrived(Run(l, steering, followUp, [], true, Going, []), initial);
    if skipInitialPoll then r.(l := l.(polls := l.polls + [NoPoll])) else PollSteering(r)
  }

  /** What the script sends while the loop runs on from a state: its arrivals before each poll the loop makes. */
  function Sent(r: Run, script: seq<TurnScript>): seq<Arrivals>
    requires |r.l.turns| <= |script|
    decreases |script| - |r.l.turns|, if !r.stage.Going? then 0 else if Wants(r) then 1 else 2
  {
    var k := |r.l.turns|;
    if !r.stage.Going? || (Wants(r) && k == |script|) || (!Wants(r) && k == 0) then []
    else if !Wants(r) then
      var a := script[k - 1].beforeFollowUpPoll;
      [a] + Sent(Outer(r, a), script)
    else
      var p := Pass(r, script[k]);
      (if p.stage.Going? then [script[k].beforeSteeringPoll] else []) + Sent(p, script)
  }

  /** The messages for one queue among arrivals. */
  function AllOf(arrivals: seq<Arrivals>, o: Origin): seq<Message> {
    if arrivals == [] then []
    else
      var last := arrivals[|arrivals| - 1];
      AllOf(arrivals[..|arrivals| - 1], o) + if o.Steering? then last.steer else last.followUp
  }

  lemma AllOfOneMore(arrivals: seq<Arrivals>, a: Arrivals, o: Origin)
    ensures AllOf(arrivals + [a], o) == AllOf(arrivals, o) + if o.Steering? then a.steer else a.followUp
  {
    assert (arrivals + [a])[..|arrivals|] == arrivals;
  }

  // ---------------------------------------------------------------- the loop with its queues in place

  method Feed(queue: PendingMessageQueue, messages: seq<Message>)
    requires queue.Valid()
    modifies queue
    ensures queue.Valid() && queue.View() == old(queue.View()).(messages := old(queue.messages) + messages)
    ensures queue.enqueued == old(queue.enqueued) + messages && queue.drained == old(queue.drained)
  {
    for k := 0 to |messages|
      invariant queue.Valid() && queue.View() == old(queue.View()).(messages := old(queue.messages) + messages[..k])
      invariant queue.enqueued == old(queue.enqueued) + messages[..k] && queue.drained == old(queue.drained)
    {
      queue.Enqueue(messages[k]);
    }
    assert messages[..|messages|] == messages;
  }

  method Arrive(steering: PendingMessageQueue, followUp: PendingMessageQueue, a: Arrivals)
    requires steering != followUp && steering.Valid() && followUp.Valid()
    modifies steering, followUp
    ensures steering.Valid() && followUp.Valid()
    ensures steering.View() == Queue(old(steering.messages) + a.steer, a.steerMode)
    ensures followUp.View() == Queue(old(followUp.messages) + a.followUp, a.followUpMode)
    ensures steering.drained == old(steering.drained) && steering.enqueued == old(steering.enqueued) + a.steer
    ensures followUp.drained == old(followUp.drained) && followUp.enqueued == old(followUp.enqueued) + a.followUp
  {
    Feed(steering, a.steer);
    Feed(followUp, a.followUp);
    steering.mode := a.steerMode;
    followUp.mode := a.followUpMode;
  }

  /** What polls of one queue handed out. */
  function Handed(polls: seq<Poll>, o: Origin): seq<Message> {
    if polls == [] then []
    else
      var last := polls[|polls| - 1];
      Handed(polls[..|polls| - 1], o) + if last.Poll? && last.origin == o then last.found else []
  }

  lemma HandedOneMore(polls: seq<Poll>, p: Poll, o: Origin)
    ensures Handed(polls + [p], o) == Handed(polls, o) + if p.Poll? && p.origin == o then p.found else []
  {
    assert (polls + [p])[..|polls|] == polls;
  }

  /** What both queues had handed out and taken in when the loop began. */
  datatype Start = Start(steered: seq<Message>, followed: seq<Message>, toSteer: seq<Message>, toFollow: seq<Message>)

  ghost function StartOf(steering: PendingMessageQueue, followUp: PendingMessageQueue): Start
    reads steering, followUp
  {
    Start(steering.drained, followUp.drained, steering.enqueued, followUp.enqueued)
  }

  /**
   * The queues are those of the run. Since the loop began they have handed out what its polls found and taken in what
   * arrived, and nothing else.
   */
  ghost predicate InStep(r: Run, steering: PendingMessageQueue, followUp: PendingMessageQueue, b: Start)
    reads steering, followUp
  {
    && steering != followUp && steering.Valid() && followUp.Valid()
    && steering.View() == r.steering && followUp.View() == r.followUp
    && steering.drained == b.steered + Handed(r.l.polls, Steering)
    && followUp.drained == b.followed + Handed(r.l.polls, FollowUp)
    && steering.enqueued == b.toSteer + AllOf(r.arrived, Steering)
    && followUp.enqueued == b.toFollow + AllOf(r.arrived, FollowUp)
  }

  /** Messages arrive at both queues. */
  method ServeArrivals(r: Run, a: Arrivals, steering: PendingMessageQueue, followUp: PendingMessageQueue,
                       ghost b: Start)
    returns (r': Run)
    requires InStep(r, steering, followUp, b)
    modifies steering, followUp
    ensures r' == Arrived(r, a) && InStep(r', steering, followUp, b)
  {
    Arrive(steering, followUp, a);
    AllOfOneMore(r.arrived, a, Steering);
    AllOfOneMore(r.arrived, a, FollowUp);
    return r.(steering := Queue(steering.messages, steering.mode), followUp := Queue(followUp.messages, followUp.mode),
              arrived := r.arrived + [a]);
  }

  /** Messages arrive, then the steering queue is polled. */
  method ServeSteering(r: Run, a: Arrivals, steering: PendingMessageQueue, followUp: PendingMessageQueue,
                       ghost b: Start)
    returns (r': Run)
    requires InStep(r, steering, followUp, b)
    modifies steering, followUp
    ensures r' == PollSteering(Arrived(r, a)) && InStep(r', steering, followUp, b)
  {
    var t := ServeArrivals(r, a, steering, followUp, b);
    var mode := steering.mode;
    var found := steering.Drain();
    var poll := Poll(Steering, mode, found, steering.messages);
    HandedOneMore(t.l.polls, poll, Steering);
    HandedOneMore(t.l.polls, poll, FollowUp);
    return t.(l := t.l.(polls := t.l.polls + [poll]), pending := found,
              steering := Queue(steering.messages, steering.mode));
  }

  method ServeFollowUps(r: Run, a: Arrivals, steering: PendingMessageQueue, followUp: PendingMessageQueue,
                        ghost b: Start)
    returns (r': Run)
    requires InStep(r, steering, followUp, b)
    modifies steering, followUp
    ensures r' == PollFollowUp(Arrived(r, a)) && InStep(r', steering, followUp, b)
  {
    var t := ServeArrivals(r, a, steering, followUp, b);
    var mode := followUp.mode;
    var found := followUp.Drain();
    var poll := Poll(FollowUp, mode, found, followUp.messages);
    HandedOneMore(t.l.polls, poll, Steering);
    HandedOneMore(t.l.polls, poll, FollowUp);
    return t.(l := t.l.(polls := t.l.polls + [poll]), pending := found, hasMoreToolCalls := true,
              followUp := Queue(followUp.messages, followUp.mode));
  }

  /** One pass of the inner loop: a turn, then the hooks, then the steering poll. */
  method LoopTurn(r: Run, s: TurnScript, steering: PendingMessageQueue, followUp: PendingMessageQueue,
                  ghost b: Start)
    returns (r': Run)
    requires InStep(r, steering, followUp, b)
    modifies steering, followUp
    ensures r' == Pass(r, s) && InStep(r', steering, followUp, b)
  {
    var turned := RunTurn(r.l, r.pending, s);
    if turned.None? { return r.(stage := Lost); }
    var (l, more) := turned.value;
    if Failed(s.final) { return Over(r, l); }
    l := PrepareNext(l, s.replacement);
    if s.shouldStop { return Over(r, l); }
    r' := ServeSteering(r.(l := l, hasMoreToolCalls := more), s.beforeSteeringPoll, steering, followUp, b);
  }

  /** The next turn of the script, if it has one. */
  method ServeTurn(r: Run, script: seq<TurnScript>, steering: PendingMessageQueue, followUp: PendingMessageQueue,
                   ghost b: Start)
    returns (r': Run)
    requires r.stage.Going? && Wants(r) && |r.l.turns| <= |script| && InStep(r, steering, followUp, b)
    modifies steering, followUp
    ensures InStep(r', steering, followUp, b)
    ensures |r'.l.turns| == |r.l.turns| + 1 || (r'.stage.Lost? && |r'.l.turns| == |r.l.turns|)
    ensures |r'.l.turns| <= |script| && RunFrom(r', script) == RunFrom(r, script)
  {
    if |r.l.turns| == |script| { return r.(stage := Lost); }
    r' := LoopTurn(r, script[|r.l.turns|], steering, followUp, b);
  }

  /** The inner loop: turns until there is neither a tool call nor a message left to serve. */
  method ServeTurns(r0: Run, script: seq<TurnScript>, steering: PendingMessageQueue, followUp: PendingMessageQueue,
                    ghost b: Start)
    returns (r: Run)
    requires r0.stage.Going? && |r0.l.turns| <= |script| && InStep(r0, steering, followUp, b)
    modifies steering, followUp
    ensures |r0.l.turns| <= |r.l.turns| <= |script| && InStep(r, steering, followUp, b)
    ensures RunFrom(r, script) == RunFrom(r0, script)
    ensures r.stage.Going? ==> !Wants(r) && (Wants(r0) ==> |r.l.turns| > |r0.l.turns|)
  {
    r := r0;
    while r.stage.Going? && Wants(r)
      invariant |r0.l.turns| <= |r.l.turns| <= |script| && InStep(r, steering, followUp, b)
      invariant RunFrom(r, script) == RunFrom(r0, script)
      invariant r == r0 || |r.l.turns| > |r0.l.turns| || !r.stage.Going?
      decreases |script| - |r.l.turns|, if r.stage.Going? then 1 else 0
    {
      r := ServeTurn(r, script, steering, followUp, b);
    }
  }

  /** The poll for follow-ups, without which the run is over. */
  method ServeOuter(r: Run, a: Arrivals, steering: PendingMessageQueue, followUp: PendingMessageQueue, ghost b: Start)
    returns (r': Run)
    requires InStep(r, steering, followUp, b)
    modifies steering, followUp
    ensures r' == Outer(r, a) && InStep(r', steering, followUp, b)
  {
    r' := ServeFollowUps(r, a, steering, followUp, b);
    if r'.pending == [] { r' := Over(r', r'.l); }
  }

  lemma OuterLeads(r: Run, script: seq<TurnScript>)
    requires r.stage.Going? && !Wants(r) && 0 < |r.l.turns| <= |script|
    ensures RunFrom(r, script) == RunFrom(Outer(r, script[|r.l.turns| - 1].beforeFollowUpPoll), script)
  {
  }

  /** One pass of the outer loop: turns, then a poll for follow-ups. */
  method ServeRound(r0: Run, script: seq<TurnScript>, steering: PendingMessageQueue, followUp: PendingMessageQueue,
                    ghost b: Start)
    returns (r: Run)
    requires r0.stage.Going? && Wants(r0) && |r0.l.turns| <= |script| && InStep(r0, steering, followUp, b)
    modifies steering, followUp
    ensures |r0.l.turns| <= |r.l.turns| <= |script| && InStep(r, steering, followUp, b)
    ensures RunFrom(r, script) == RunFrom(r0, script)
    ensures r.stage.Going? ==> Wants(r) && |r.l.turns| > |r0.l.turns|
  {
    r := ServeTurns(r0, script, steering, followUp, b);
    if r.stage.Going? {
      OuterLeads(r, script);
      r := ServeOuter(r, script[|r.l.turns| - 1].beforeFollowUpPoll, steering, followUp, b);
    }
  }

  /** The arrivals and the poll before the first turn. */
  method BeginLoop(l0: Loop, steering: PendingMessageQueue, followUp: PendingMessageQueue, skipInitialPoll: bool,
                   initial: Arrivals)
    returns (r: Run)
    requires steering != followUp && steering.Valid() && followUp.Valid() && l0.polls == []
    modifies steering, followUp
    ensures r == StartRun(l0, old(steering.View()), old(followUp.View()), skipInitialPoll, initial)
    ensures InStep(r, steering, followUp, old(StartOf(steering, followUp)))
  {
    ghost var b := StartOf(steering, followUp);
    r := Run(l0, Queue(steering.messages, steering.mode), Queue(followUp.messages, followUp.mode), [], true, Going, []);
    if skipInitialPoll {
      r := ServeArrivals(r, initial, steering, followUp, b);
      HandedOneMore([], NoPoll, Steering);
      HandedOneMore([], NoPoll, FollowUp);
      r := r.(l := l0.(polls := [NoPoll]));
    } else {
      r := ServeSteering(r, initial, steering, followUp, b);
    }
  }

  /** The outer loop: serves turns, then follow-ups, until neither queue has anything. */
  method RunLoop(l0: Loop, steering: PendingMessageQueue, followUp: PendingMessageQueue, skipInitialPoll: bool,
                 initial: Arrivals, script: seq<TurnScript>)
    returns (r: Run)
    requires steering != followUp && steering.Valid() && followUp.Valid() && l0.turns == [] && l0.polls == []
    modifies steering, followUp
    ensures r == RunFrom(StartRun(l0, old(steering.View()), old(followUp.View()), skipInitialPoll, initial), script)
    ensures InStep(r, steering, followUp, old(StartOf(steering, followUp)))
  {
    ghost var b := StartOf(steering, followUp);
    r := BeginLoop(l0, steering, followUp, skipInitialPoll, initial);
    ghost var end := RunFrom(r, script);
    while r.stage.Going?
      invariant |r.l.turns| <= |script| && InStep(r, steering, followUp, b)
      invariant RunFrom(r, script) == end && (r.stage.Going? ==> Wants(r))
      decreases |script| - |r.l.turns|, if r.stage.Going? then 1 else 0
    {
      r := ServeRound(r, script, steering, followUp, b);
    }
  }

  // ---------------------------------------------------------------- entry points

  /** The loop's variables once the prompts are in. */
  function Prompted(prompts: seq<Message>, context: seq<Message>): Loop {
    Loop(context + prompts, prompts, [AgentStart, TurnStart] + BracketAll(prompts), false, false, [], [], [])
  }

  /** A whole run as a function of its inputs. */
  function AgentRun(prompts: seq<Message>, context: seq<Message>, steering: Queue, followUp: Queue,
                    skipInitialPoll: bool, initial: Arrivals, script: seq<TurnScript>): Run {
    RunFrom(StartRun(Prompted(prompts, context), steering, followUp, skipInitialPoll, initial), script)
  }

  method RunAgentLoop(prompts: seq<Message>, context: seq<Message>, steering: PendingMessageQueue,
                      followUp: PendingMessageQueue, skipInitialPoll: bool, initial: Arrivals, script: seq<TurnScript>)
    returns (r: Run)
    requires steering != followUp && steering.Valid() && followUp.Valid()
    modifies steering, followUp
    ensures r == AgentRun(prompts, context, old(steering.View()), old(followUp.View()), skipInitialPoll, initial,
                          script)
    ensures InStep(r, steering, followUp, old(StartOf(steering, followUp)))
  {
    var l := Loop(context, [], [AgentStart, TurnStart], false, false, [], [], []);
    l := Inject(l, prompts);
    assert [] + prompts == prompts;
    r := RunLoop(l, steering, followUp, skipInitialPoll, initial, script);
  }

  datatype ContinueError = NoMessages | LastIsAssistant

  /** Continues from a context that ends in a user message or a tool result. */
  method RunAgentLoopContinue(context: seq<Message>, steering: PendingMessageQueue, followUp: PendingMessageQueue,
                              initial: Arrivals, script: seq<TurnScript>)
    returns (r: Result<Run, ContinueError>)
    requires steering != followUp && steering.Valid() && followUp.Valid()
    modifies steering, followUp
    ensures context == [] ==> r == Err(NoMessages)
    ensures context != [] && context[|context| - 1].Assistant? ==> r == Err(LastIsAssistant)
    ensures r.Err? ==> unchanged(steering, followUp) && (context == [] || context[|context| - 1].Assistant?)
    ensures r.Ok? ==> r.value == AgentRun([], context, old(steering.View()), old(followUp.View()), false, initial,
                                          script)
    ensures r.Ok? ==> InStep(r.value, steering, followUp, old(StartOf(steering, followUp)))
  {
    if context == [] { return Err(NoMessages); }
    if context[|context| - 1].Assistant? { return Err(LastIsAssistant); }
    var l := Loop(context, [], [AgentStart, TurnStart], false, false, [], [], []);
    assert l == Prompted([], context);
    var run := RunLoop(l, steering, followUp, false, initial, script);
    return Ok(run);
  }
}
