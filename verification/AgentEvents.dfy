/**
 * Messages and events of packages/agent/src/types.ts, the grammar of a run's event trace, and the transcript reducer.
 */
module AgentEvents {
  import opened Common

  datatype StopReason = Stop | Length | ToolUse | Error | Aborted

  datatype ToolCall = ToolCall(id: string, name: string, args: string)

  datatype AssistantMessage =
    AssistantMessage(text: string, toolCalls: seq<ToolCall>, stopReason: StopReason, errorMessage: Option<string>)

  datatype Message =
    | User(text: string)
    | Custom(kind: string)
    | Assistant(msg: AssistantMessage)
    | ToolResult(toolCallId: string, toolName: string, content: seq<string>, details: string,
                 usage: Option<string>, isError: bool)

  datatype Event =
    | AgentStart
    | TurnStart
    | MessageStart(message: Message)
    | MessageUpdate(message: Message)
    | MessageEnd(message: Message)
    | ToolExecutionStart(id: string)
    | ToolExecutionUpdate(id: string, partial: string)
    | ToolExecutionEnd(id: string, isError: bool)
    | TurnEnd(message: Message, toolResults: seq<Message>)
    | AgentEnd(messages: seq<Message>)

  predicate Failed(m: AssistantMessage) { m.stopReason == Error || m.stopReason == Aborted }

  /** Results answer a source-order prefix of the calls of an assistant message; a failed message has none. */
  predicate Answers(m: AssistantMessage, results: seq<Message>) {
    && |results| <= |m.toolCalls|
    && (Failed(m) ==> results == [])
    && forall i :: 0 <= i < |results| ==> AnswersCall(m.toolCalls[i], results[i])
  }

  predicate AnswersCall(call: ToolCall, result: Message) {
    result.ToolResult? && result.toolCallId == call.id && result.toolName == call.name
  }

  datatype Turn = Turn(turns: nat, all: seq<Message>, from: nat, open: bool, running: multiset<string>)

  /**
   * Recogniser of the trace grammar. A run is agent_start, one or more turns, agent_end. A turn is turn_start,
   * message brackets and tool events, turn_end. Message brackets do not overlap each other or tool events;
   * a tool updates and ends only while it runs. A turn closes on its assistant message followed by that
   * message's results, with no tool running but those of calls left unanswered, and the run closes with every
   * message it bracketed.
   */
  datatype Scan =
    | Fresh
    | Idle(turns: nat, all: seq<Message>)
    | InTurn(turn: Turn)
    | Done(all: seq<Message>)
    | Bad

  function Next(s: Scan, e: Event): Scan {
    match s
    case Fresh => if e.AgentStart? then Idle(0, []) else Bad
    case Idle(turns, all) =>
      if e.TurnStart? then InTurn(Turn(turns, all, |all|, false, multiset{}))
      else if e.AgentEnd? && turns > 0 && e.messages == all then Done(all)
      else Bad
    case InTurn(t) =>
      if t.open then
        (if e.MessageUpdate? then s
         else if e.MessageEnd? then InTurn(t.(all := t.all + [e.message], open := false))
         else Bad)
      else
        (match e
         case MessageStart(_) => InTurn(t.(open := true))
         case ToolExecutionStart(id) => InTurn(t.(running := t.running + multiset{id}))
         case ToolExecutionUpdate(id, _) => if id in t.running then s else Bad
         case ToolExecutionEnd(id, _) =>
           if id in t.running then InTurn(t.(running := t.running - multiset{id})) else Bad
         case TurnEnd(m, results) =>
           if ClosesTurn(t.all, t.from, m, results) && t.running <= MayStillRun(m.msg, results)
           then Idle(t.turns + 1, t.all) else Bad
         case _ => Bad)
    case _ => Bad
  }

  predicate ClosesTurn(all: seq<Message>, from: nat, m: Message, results: seq<Message>) {
    && m.Assistant? && Answers(m.msg, results)
    && from + 1 + |results| <= |all|
    && all[|all| - |results| - 1] == m
    && forall i :: 0 <= i < |results| ==> all[|all| - |results| + i] == results[i]
  }

  function Ids(calls: seq<ToolCall>): multiset<string> {
    if calls == [] then multiset{} else Ids(calls[..|calls| - 1]) + multiset{calls[|calls| - 1].id}
  }

  /** The calls without a result; only an abort leaves any. */
  function MayStillRun(m: AssistantMessage, results: seq<Message>): multiset<string>
    requires Answers(m, results)
  {
    if Failed(m) then multiset{} else Ids(m.toolCalls[|results|..])
  }

  function ScanAll(s: Scan, es: seq<Event>): Scan {
    if es == [] then s else Next(ScanAll(s, es[..|es| - 1]), es[|es| - 1])
  }

  predicate IsCompleteRun(es: seq<Event>) { ScanAll(Fresh, es).Done? }

  lemma {:induction false} ScanAppend(s: Scan, a: seq<Event>, b: seq<Event>)
    ensures ScanAll(s, a + b) == ScanAll(ScanAll(s, a), b)
    decreases |b|
  {
    if b == [] {
      assert a + b == a;
    } else {
      var n := |b| - 1;
      assert (a + b)[..|a + b| - 1] == a + b[..n];
      ScanAppend(s, a, b[..n]);
    }
  }

  lemma ScanOne(s: Scan, es: seq<Event>, e: Event)
    ensures ScanAll(s, es + [e]) == Next(ScanAll(s, es), e)
  {
    assert (es + [e])[..|es + [e]| - 1] == es;
  }

  /** One bracketed message. */
  function Bracket(m: Message): seq<Event> { [MessageStart(m), MessageEnd(m)] }

  lemma ScanSingle(s: Scan, e: Event)
    ensures ScanAll(s, [e]) == Next(s, e)
  {
    ScanOne(s, [], e);
    assert [] + [e] == [e];
  }

  lemma ScanBracket(t: Turn, m: Message)
    requires !t.open
    ensures ScanAll(InTurn(t), Bracket(m)) == InTurn(t.(all := t.all + [m]))
  {
    ScanSingle(InTurn(t), MessageStart(m));
    ScanOne(InTurn(t), [MessageStart(m)], MessageEnd(m));
    assert [MessageStart(m)] + [MessageEnd(m)] == Bracket(m);
  }

  function BracketAll(ms: seq<Message>): seq<Event> {
    if ms == [] then [] else BracketAll(ms[..|ms| - 1]) + Bracket(ms[|ms| - 1])
  }

  lemma {:induction false} ScanBrackets(t: Turn, ms: seq<Message>)
    requires !t.open
    ensures ScanAll(InTurn(t), BracketAll(ms)) == InTurn(t.(all := t.all + ms))
  {
    if ms == [] {
      assert t.all + ms == t.all;
    } else {
      var n := |ms| - 1;
      ScanBrackets(t, ms[..n]);
      ScanAppend(InTurn(t), BracketAll(ms[..n]), Bracket(ms[n]));
      ScanBracket(t.(all := t.all + ms[..n]), ms[n]);
      assert t.all + ms[..n] + [ms[n]] == t.all + ms;
    }
  }

  // ---------------------------------------------------------------- the transcript reducer of agent.ts

  datatype AgentView = AgentView(messages: seq<Message>, streaming: Option<Message>,
                                 pendingToolCalls: set<string>, errorMessage: Option<string>)

  function Reduce(v: AgentView, e: Event): AgentView {
    match e
    case MessageStart(m) => v.(streaming := Some(m))
    case MessageUpdate(m) => v.(streaming := Some(m))
    case MessageEnd(m) => v.(streaming := None, messages := v.messages + [m])
    case ToolExecutionStart(id) => v.(pendingToolCalls := v.pendingToolCalls + {id})
    case ToolExecutionEnd(id, _) => v.(pendingToolCalls := v.pendingToolCalls - {id})
    case TurnEnd(m, _) =>
      if m.Assistant? && m.msg.errorMessage.Some? && m.msg.errorMessage.value != ""
      then v.(errorMessage := m.msg.errorMessage) else v
    case AgentEnd(_) => v.(streaming := None)
    case _ => v
  }

  function ReduceAll(v: AgentView, es: seq<Event>): AgentView {
    if es == [] then v else Reduce(ReduceAll(v, es[..|es| - 1]), es[|es| - 1])
  }

  function Ended(es: seq<Event>): seq<Message> {
    if es == [] then []
    else
      var last := es[|es| - 1];
      Ended(es[..|es| - 1]) + if last.MessageEnd? then [last.message] else []
  }

  /** The transcript grows by exactly the message_end payloads, in order. */
  lemma {:induction false} TranscriptIsEndedMessages(v: AgentView, es: seq<Event>)
    ensures ReduceAll(v, es).messages == v.messages + Ended(es)
  {
    if es != [] { TranscriptIsEndedMessages(v, es[..|es| - 1]); }
  }

  /** The place of the last event with a property. */
  function LastWhere(es: seq<Event>, p: Event -> bool): (r: Option<nat>)
    ensures r.Some? ==> r.value < |es| && p(es[r.value])
    ensures forall k :: 0 <= k < |es| && (r.Some? ==> r.value < k) ==> !p(es[k])
  {
    if es == [] then None
    else if p(es[|es| - 1]) then Some(|es| - 1)
    else LastWhere(es[..|es| - 1], p)
  }

  predicate AboutMessage(e: Event) { e.MessageStart? || e.MessageUpdate? || e.MessageEnd? || e.AgentEnd? }

  predicate AboutCall(e: Event, id: string) { (e.ToolExecutionStart? || e.ToolExecutionEnd?) && e.id == id }

  /** The streaming message is the one last started or updated, unless a message or the run has ended since. */
  lemma {:induction false} StreamingIs(v: AgentView, es: seq<Event>)
    ensures var j := LastWhere(es, AboutMessage);
            ReduceAll(v, es).streaming ==
            if j.None? then v.streaming
            else if es[j.value].MessageStart? || es[j.value].MessageUpdate? then Some(es[j.value].message)
            else None
  {
    if es != [] { StreamingIs(v, es[..|es| - 1]); }
  }

  /** A tool call is pending exactly if the last that was heard of it is that it has started. */
  lemma {:induction false} PendingIs(v: AgentView, es: seq<Event>, id: string)
    ensures var j := LastWhere(es, (e: Event) => AboutCall(e, id));
            id in ReduceAll(v, es).pendingToolCalls <==>
            if j.None? then id in v.pendingToolCalls else es[j.value].ToolExecutionStart?
  {
    if es != [] { PendingIs(v, es[..|es| - 1], id); }
  }

  /** The turn ended in an assistant message that carries an error. */
  predicate EndsInError(e: Event) {
    e.TurnEnd? && e.message.Assistant? && e.message.msg.errorMessage.Some? && e.message.msg.errorMessage.value != ""
  }

  /** The error shown is that of the last turn that ended in one. */
  lemma {:induction false} ErrorIs(v: AgentView, es: seq<Event>)
    ensures var j := LastWhere(es, EndsInError);
            ReduceAll(v, es).errorMessage ==
            if j.None? then v.errorMessage else es[j.value].message.msg.errorMessage
  {
    if es != [] { ErrorIs(v, es[..|es| - 1]); }
  }

  ghost predicate Collects(s: Scan, ms: seq<Message>) {
    s.Bad? || ms == match s
                    case Fresh => []
                    case Idle(_, all) => all
                    case InTurn(t) => t.all
                    case Done(all) => all
                    case Bad => []
  }

  /** In a trace that follows the grammar, the messages collected are the message_end payloads. */
  lemma {:induction false} ScanCollectsEnded(es: seq<Event>)
    ensures Collects(ScanAll(Fresh, es), Ended(es))
  {
    if es != [] { ScanCollectsEnded(es[..|es| - 1]); }
  }

  predicate Halted(s: Scan) { s.Done? || s.Bad? }

  lemma GoesOn(s: Scan, e: Event)
    requires !Halted(Next(s, e))
    ensures !e.AgentEnd? && !Halted(s)
  {
  }

  lemma OnlyEndCloses(s: Scan, e: Event)
    requires Next(s, e).Done?
    ensures e.AgentEnd? && s.Idle?
  {
  }

  /** A complete run has no event after agent_end, and no agent_end before it. */
  lemma {:induction false} AgentEndIsLast(es: seq<Event>, i: nat)
    requires IsCompleteRun(es) && i < |es|
    ensures es[i].AgentEnd? <==> i == |es| - 1
  {
    var n := |es| - 1;
    OnlyEndCloses(ScanAll(Fresh, es[..n]), es[n]);
    if i < n { NeverAfterDone(es[..n], i); }
  }

  lemma LastGoesOn(es: seq<Event>)
    requires es != [] && !Halted(ScanAll(Fresh, es))
    ensures !es[|es| - 1].AgentEnd? && !Halted(ScanAll(Fresh, es[..|es| - 1]))
  {
    GoesOn(ScanAll(Fresh, es[..|es| - 1]), es[|es| - 1]);
  }

  lemma {:induction false} NeverAfterDone(es: seq<Event>, i: nat)
    requires i < |es| && !Halted(ScanAll(Fresh, es))
    ensures !es[i].AgentEnd?
    decreases |es|
  {
    LastGoesOn(es);
    if i < |es| - 1 { NeverAfterDone(es[..|es| - 1], i); }
  }
}
