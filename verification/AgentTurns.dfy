/** What one turn of packages/agent/src/agent-loop.ts does: its response, its tools and its trace. */
module AgentTurns {
  import opened Common
  import opened AgentEvents
  import opened ToolBatch
  import opened AgentLoop

  // ---------------------------------------------------------------- one response

  /** What a response leaves in the context. */
  lemma {:induction false} ContextAfter(context: seq<Message>, started: nat, stream: seq<StreamEvent>,
                                        final: AssistantMessage)
    requires started > 0 ==> context != []
    ensures var c := StreamContext(context, started, stream, final);
            var kept := if started > 0 then |context| - 1 else |context|;
            var added := if started + Starts(stream) == 0 then 1 else if started > 0 then 1 + Starts(stream)
                         else Starts(stream);
            |c| == kept + added && c[..kept] == context[..kept] && c[|c| - 1] == Assistant(final)
    decreases |stream|
  {
    if stream != [] && !stream[0].StreamFinish? {
      var last := |context| - 1;
      if stream[0].StreamStart? {
        ContextAfter(context + [Assistant(stream[0].partial)], started + 1, stream[1..], final);
      } else if started > 0 {
        ContextAfter(context[last := Assistant(stream[0].partial)], started, stream[1..], final);
      } else {
        ContextAfter(context, started, stream[1..], final);
      }
    }
  }

  /** The context grows by exactly the response if and only if the stream starts at most once. */
  lemma ResponseContextExactly(context: seq<Message>, stream: seq<StreamEvent>, final: AssistantMessage)
    ensures StreamContext(context, 0, stream, final) == context + [Assistant(final)] <==> Starts(stream) <= 1
  {
    ContextAfter(context, 0, stream, final);
  }

  lemma {:induction false} BadStays(es: seq<Event>, started: nat, stream: seq<StreamEvent>, final: AssistantMessage)
    requires ScanAll(Fresh, es).Bad?
    ensures ScanAll(Fresh, StreamTrace(es, started, stream, final)).Bad?
    decreases |stream|
  {
    if stream == [] || stream[0].StreamFinish? {
      ScanOne(Fresh, es, MessageStart(Assistant(final)));
      ScanOne(Fresh, if started > 0 then es else es + [MessageStart(Assistant(final))], MessageEnd(Assistant(final)));
    } else {
      var m := Assistant(stream[0].partial);
      ScanOne(Fresh, es, MessageStart(m));
      ScanOne(Fresh, es, MessageUpdate(m));
      if stream[0].StreamStart? {
        BadStays(es + [MessageStart(m)], started + 1, stream[1..], final);
      } else {
        BadStays(if started > 0 then es + [MessageUpdate(m)] else es, started, stream[1..], final);
      }
    }
  }

  lemma {:induction false} TraceAfter(es: seq<Event>, t: Turn, started: nat, stream: seq<StreamEvent>,
                                      final: AssistantMessage)
    requires !t.open && started <= 1 && ScanAll(Fresh, es) == InTurn(t.(open := started > 0))
    ensures ScanAll(Fresh, StreamTrace(es, started, stream, final)) ==
            if started + Starts(stream) <= 1 then InTurn(t.(all := t.all + [Assistant(final)])) else Bad
    decreases |stream|
  {
    if stream == [] || stream[0].StreamFinish? {
      FinishScan(es, t, started, final);
    } else {
      var m, later := Assistant(stream[0].partial), stream[1..];
      var now := if stream[0].StreamStart? then es + [MessageStart(m)]
                 else if started > 0 then es + [MessageUpdate(m)] else es;
      var starts := if stream[0].StreamStart? then started + 1 else started;
      assert StreamTrace(es, started, stream, final) == StreamTrace(now, starts, later, final);
      assert started + Starts(stream) == starts + Starts(later);
      if stream[0].StreamStart? && started == 0 {
        OpenScan(es, t, m);
        TraceAfter(now, t, starts, later, final);
      } else if stream[0].StreamStart? {
        OpenAgain(es, t, m);
        BadStays(now, starts, later, final);
      } else {
        if started > 0 { UpdateScan(es, t, m); }
        TraceAfter(now, t, starts, later, final);
      }
    }
  }

  lemma OpenAgain(es: seq<Event>, t: Turn, m: Message)
    requires !t.open && m.Assistant? && ScanAll(Fresh, es) == InTurn(t.(open := true))
    ensures ScanAll(Fresh, es + [MessageStart(m)]).Bad?
  {
    ScanOne(Fresh, es, MessageStart(m));
  }

  lemma UpdateScan(es: seq<Event>, t: Turn, m: Message)
    requires !t.open && m.Assistant? && ScanAll(Fresh, es) == InTurn(t.(open := true))
    ensures ScanAll(Fresh, es + [MessageUpdate(m)]) == InTurn(t.(open := true))
  {
    ScanOne(Fresh, es, MessageUpdate(m));
  }

  lemma OpenScan(es: seq<Event>, t: Turn, m: Message)
    requires !t.open && m.Assistant? && ScanAll(Fresh, es) == InTurn(t)
    ensures ScanAll(Fresh, es + [MessageStart(m)]) == InTurn(t.(open := true))
  {
    ScanOne(Fresh, es, MessageStart(m));
  }

  lemma FinishScan(es: seq<Event>, t: Turn, started: nat, final: AssistantMessage)
    requires !t.open && started <= 1 && ScanAll(Fresh, es) == InTurn(t.(open := started > 0))
    ensures ScanAll(Fresh, (if started > 0 then es else es + [MessageStart(Assistant(final))])
                           + [MessageEnd(Assistant(final))]) ==
            InTurn(t.(all := t.all + [Assistant(final)]))
  {
    if started == 0 { OpenScan(es, t, Assistant(final)); }
    ScanOne(Fresh, if started > 0 then es else es + [MessageStart(Assistant(final))], MessageEnd(Assistant(final)));
  }

  lemma {:induction false} TraceExtends(es: seq<Event>, started: nat, stream: seq<StreamEvent>, final: AssistantMessage)
    ensures es <= StreamTrace(es, started, stream, final)
    decreases |stream|
  {
    if stream != [] && !stream[0].StreamFinish? {
      var m := Assistant(stream[0].partial);
      if stream[0].StreamStart? {
        TraceExtends(es + [MessageStart(m)], started + 1, stream[1..], final);
      } else if started > 0 {
        TraceExtends(es + [MessageUpdate(m)], started, stream[1..], final);
      } else {
        TraceExtends(es, started, stream[1..], final);
      }
    }
  }

  /**
   * The response is one well-formed message bracket if and only if the stream starts at most once; else the trace is
   * bad.
   */
  lemma ResponseTraceExactly(es: seq<Event>, t: Turn, stream: seq<StreamEvent>, final: AssistantMessage)
    requires !t.open && ScanAll(Fresh, es) == InTurn(t)
    ensures ScanAll(Fresh, StreamTrace(es, 0, stream, final)) ==
            if Starts(stream) <= 1 then InTurn(t.(all := t.all + [Assistant(final)])) else Bad
  {
    TraceAfter(es, t, 0, stream, final);
  }

  // ---------------------------------------------------------------- the tools of one turn

  /** No abort is seen in a turn. */
  ghost predicate Calm(s: TurnScript) { !s.aborted && NoAbort(s.final.toolCalls, s.plans) }

  /** How many calls of a message are answered. */
  function AnsweredCount(s: TurnScript, aborted: bool): (n: nat)
    ensures n <= |s.final.toolCalls|
  {
    var n := |s.final.toolCalls|;
    if s.final.stopReason.Length? then n
    else if s.sequential then SequentialCount(s.plans, aborted, n, 0)
    else ConcurrentCount(s.plans, aborted || AnyPrepareAborted(s.plans, n), n, 0)
  }

  lemma SequentialOutcome(s: TurnScript, aborted: bool)
    ensures var run := Sequential(s.final.toolCalls, s.plans, aborted);
            && (aborted ==> run.aborted) && (!aborted && Calm(s) ==> !run.aborted)
            && (SequentialCount(s.plans, aborted, |s.final.toolCalls|, 0) < |s.final.toolCalls| ==> run.aborted)
  {
    SequentialStops(s.plans, aborted, |s.final.toolCalls|, 0);
    if !aborted && Calm(s) { NoAbortCounts(s.final.toolCalls, s.plans); }
  }

  lemma ConcurrentOutcome(s: TurnScript, aborted: bool)
    ensures var calls := s.final.toolCalls;
            var run := Concurrent(calls, s.plans, aborted, s.schedule);
            var n := ConcurrentCount(s.plans, aborted || AnyPrepareAborted(s.plans, |calls|), |calls|, 0);
            && (aborted ==> run.aborted) && (!aborted && Calm(s) ==> !run.aborted) && (n < |calls| ==> run.aborted)
            && (run.outcomes.Some? ==> run.outcomes.value == OutcomesUpTo(calls, s.plans, aborted, n))
  {
    var calls := s.final.toolCalls;
    var seen := aborted || AnyPrepareAborted(s.plans, |calls|);
    ConcurrentStops(s.plans, seen, |calls|, 0);
    if !aborted && Calm(s) { NoAbortCounts(calls, s.plans); }
    ConcurrentOutcomes(calls, s.plans, aborted, ConcurrentCount(s.plans, seen, |calls|, 0), s.schedule);
  }

  /**
   * What the tools of a turn do: a source-order prefix of the calls is answered, each with its own outcome, and exactly
   * those of them that were prepared are executed; nothing executes for a truncated message. An unanswered call means
   * the signal was aborted, and without an abort in the turn it is not.
   */
  lemma ToolsOutcome(s: TurnScript, aborted: bool)
    ensures var run := Tools(s.final, s, aborted);
            var n := AnsweredCount(s, aborted);
            var calls := s.final.toolCalls;
            && (aborted ==> run.aborted) && (n < |calls| ==> run.aborted) && (!aborted && Calm(s) ==> !run.aborted)
            && run.executed == (if s.final.stopReason.Length? then [] else ExecutedUpTo(calls, s.plans, aborted, n))
            && (run.outcomes.Some? ==>
                  run.outcomes.value == if s.final.stopReason.Length? then OutcomesOf(TruncatedRan(calls, n))
                                        else OutcomesUpTo(calls, s.plans, aborted, n))
  {
    if s.sequential { SequentialOutcome(s, aborted); } else { ConcurrentOutcome(s, aborted); }
  }

  /** The results of a batch answer a prefix of the calls. */
  lemma ToolsAnswer(s: TurnScript, aborted: bool)
    requires !Failed(s.final) && Tools(s.final, s, aborted).outcomes.Some?
    ensures var results := ResultMessages(Tools(s.final, s, aborted).outcomes.value);
            Answers(s.final, results) && |results| == AnsweredCount(s, aborted)
  {
    ToolsOutcome(s, aborted);
    OutcomesAre(s.final.toolCalls, s.plans, aborted, AnsweredCount(s, aborted));
  }

  lemma ToolsSay(s: TurnScript, aborted: bool, j: nat)
    requires !Failed(s.final) && Tools(s.final, s, aborted).outcomes.Some?
    requires j < |ResultMessages(Tools(s.final, s, aborted).outcomes.value)|
    ensures var results := ResultMessages(Tools(s.final, s, aborted).outcomes.value);
            && |results| <= |s.final.toolCalls|
            && if s.final.stopReason.Length? then SaysTruncated(s.final.toolCalls[j], results[j])
               else Says(s.final.toolCalls[j], s.plans(j), AbortedFor(s.plans, aborted, j), results[j])
  {
    ToolsOutcome(s, aborted);
    if !s.final.stopReason.Length? {
      OutcomesAre(s.final.toolCalls, s.plans, aborted, AnsweredCount(s, aborted));
      ResultSays(s.final.toolCalls[j], s.plans(j), AbortedFor(s.plans, aborted, j));
    }
  }

  /** The tools' events bracket exactly the results and leave no tool running but those of unanswered calls. */
  lemma ToolsTrace(t: Turn, s: TurnScript, aborted: bool) returns (running: multiset<string>)
    requires !t.open && t.running == multiset{} && !Failed(s.final) && Tools(s.final, s, aborted).outcomes.Some?
    ensures var run := Tools(s.final, s, aborted);
            var results := ResultMessages(run.outcomes.value);
            && Answers(s.final, results) && running <= MayStillRun(s.final, results)
            && ScanAll(InTurn(t), run.events) == InTurn(t.(all := t.all + results, running := running))
  {
    var calls, run := s.final.toolCalls, Tools(s.final, s, aborted);
    var results := ResultMessages(run.outcomes.value);
    ToolsAnswer(s, aborted);
    running := multiset{};
    if s.final.stopReason.Length? {
      ScanCalls(t, TruncatedRan(calls, |calls|));
    } else if s.sequential {
      SequentialBatch(t, calls, s.plans, aborted);
    } else {
      ConcurrentBatch(t, calls, s.plans, aborted, AnsweredCount(s, aborted), s.schedule);
      running := Ids(calls[|results|..]);
      assert t.running + running == running;
    }
  }

  /** Every answered call of a batch executed and asks to end the run. Calls of a truncated message never do. */
  ghost predicate EndsBatch(s: TurnScript, aborted: bool) {
    && !s.final.stopReason.Length? && AnsweredCount(s, aborted) > 0
    && forall i: nat :: i < AnsweredCount(s, aborted) ==>
         Executes(s.plans(i), AbortedFor(s.plans, aborted, i)) && AsksToTerminate(s.plans(i))
  }

  /** The model has called tools and is to see what became of the calls. */
  ghost predicate NeedsReport(s: TurnScript, aborted: bool) { CallsTools(s.final) && !EndsBatch(s, aborted) }

  lemma TerminatesWhen(s: TurnScript, aborted: bool)
    requires Tools(s.final, s, aborted).outcomes.Some?
    ensures Terminates(s.final, Tools(s.final, s, aborted)) <==> EndsBatch(s, aborted)
  {
    ToolsOutcome(s, aborted);
    if !s.final.stopReason.Length? {
      AllAskToTerminate(s.final.toolCalls, s.plans, aborted, AnsweredCount(s, aborted));
    }
  }

  lemma AllAskToTerminate(calls: seq<ToolCall>, plans: Plans, aborted: bool, n: nat)
    requires n <= |calls|
    ensures ShouldTerminate(OutcomesUpTo(calls, plans, aborted, n)) <==>
            n > 0 && forall i: nat :: i < n ==>
                       Executes(plans(i), AbortedFor(plans, aborted, i)) && AsksToTerminate(plans(i))
  {
    OutcomesAre(calls, plans, aborted, n);
    forall i: nat | i < n
      ensures OutcomesUpTo(calls, plans, aborted, n)[i].output.terminate == Some(true) <==>
              Executes(plans(i), AbortedFor(plans, aborted, i)) && AsksToTerminate(plans(i))
    {
      TerminatesExactly(calls[i], plans(i), AbortedFor(plans, aborted, i));
    }
  }

  /** The tools of a turn finish exactly when its schedule picks every entry often enough. */
  lemma ToolsFinishExactly(s: TurnScript, aborted: bool)
    ensures var n := AnsweredCount(s, aborted);
            Tools(s.final, s, aborted).outcomes.Some? <==>
              (s.final.stopReason.Length? || s.sequential ||
               forall i: nat :: i < n ==> Work(SlotOf(s.final.toolCalls, s.plans, aborted, i)) <= Picks(s.schedule, i))
  {
    var n := AnsweredCount(s, aborted);
    if !s.final.stopReason.Length? && !s.sequential {
      BatchSlots(s.final.toolCalls, s.plans, aborted, n);
      FinishesExactly(s.final.toolCalls, s.plans, BatchOf(s.final.toolCalls, s.plans, aborted, n), s.schedule);
    }
  }

  // ---------------------------------------------------------------- one turn

  /** What the tools made of a turn's response, the signal having been aborted before or not. */
  ghost predicate Explained(s: TurnScript, aborted: bool, r: TurnRecord) {
    if !CallsTools(s.final) then r.results == [] && r.executed == [] && r.aborted == aborted
    else
      var run := Tools(s.final, s, aborted);
      && run.outcomes.Some? && r.results == ResultMessages(run.outcomes.value)
      && r.executed == run.executed && r.aborted == run.aborted
  }

  function Wrote(r: TurnRecord): seq<Message> { r.injected + [Assistant(r.message)] + r.results }

  /** The loop after a turn with record r, told apart from how it was computed. */
  ghost predicate Turned(l: Loop, pending: seq<Message>, s: TurnScript, m: Loop, r: TurnRecord) {
    && m.turns == l.turns + [r] && m.polls == l.polls && m.replaced == l.replaced && m.aborted == r.aborted
    && r.polls == |l.polls| && r.poll == LastPoll(l) && r.injected == pending && r.message == s.final
    && m.newMessages == l.newMessages + Wrote(r)
    && (Starts(s.stream) <= 1 ==> m.context == l.context + Wrote(r))
    && l.events < m.events && m.events[|m.events| - 1] == TurnEnd(Assistant(s.final), r.results)
    && m.snapshots == l.snapshots + [Snapshot(m.context, m.newMessages, |m.events|, l.replaced)]
  }

  /** The loop within a turn, its response complete. */
  ghost predicate Begins(l: Loop, pending: seq<Message>, s: TurnScript, b: Loop) {
    && b.turns == l.turns && b.polls == l.polls && b.replaced == l.replaced && b.snapshots == l.snapshots
    && b.aborted == (l.aborted || s.aborted) && l.events <= b.events
    && b.newMessages == l.newMessages + pending + [Assistant(s.final)]
    && (Starts(s.stream) <= 1 ==> b.context == l.context + pending + [Assistant(s.final)])
  }

  lemma BegunIs(l: Loop, pending: seq<Message>, s: TurnScript)
    ensures Begins(l, pending, s, Begun(l, pending, s))
  {
    var e := Extended(Opened(l), pending, BracketAll(pending));
    ResponseContextExactly(e.context, s.stream, s.final);
    TraceExtends(e.events, 0, s.stream, s.final);
  }

  lemma TurnWrites(before: seq<Message>, pending: seq<Message>, final: AssistantMessage, results: seq<Message>)
    ensures before + pending + [Assistant(final)] + results == before + (pending + [Assistant(final)] + results)
  {
  }

  lemma BareTurn(l: Loop, pending: seq<Message>, s: TurnScript, b: Loop)
    requires Begins(l, pending, s, b)
    ensures Turned(l, pending, s, Closed(b, NewRecord(b, pending, s)), NewRecord(b, pending, s))
  {
    TurnWrites(l.newMessages, pending, s.final, []);
    TurnWrites(l.context, pending, s.final, []);
  }

  lemma ToolTurn(l: Loop, pending: seq<Message>, s: TurnScript, b: Loop, run: BatchRun)
    requires Begins(l, pending, s, b) && run.outcomes.Some?
    ensures var results := ResultMessages(run.outcomes.value);
            var r := NewRecord(b, pending, s).(results := results, executed := run.executed, aborted := run.aborted);
            Turned(l, pending, s, WithTools(b, NewRecord(b, pending, s), run).value.0, r)
  {
    TurnWrites(l.newMessages, pending, s.final, ResultMessages(run.outcomes.value));
    TurnWrites(l.context, pending, s.final, ResultMessages(run.outcomes.value));
  }

  lemma TurnIs(l: Loop, pending: seq<Message>, s: TurnScript) returns (m: Loop, more: bool, r: TurnRecord)
    requires TurnOf(l, pending, s).Some?
    ensures TurnOf(l, pending, s) == Some((m, more)) && Turned(l, pending, s, m, r)
    ensures Explained(s, l.aborted || s.aborted, r) && (more <==> NeedsReport(s, l.aborted || s.aborted))
  {
    var b := Begun(l, pending, s);
    BegunIs(l, pending, s);
    r := NewRecord(b, pending, s);
    if CallsTools(s.final) {
      var run := Tools(s.final, s, b.aborted);
      TerminatesWhen(s, b.aborted);
      ToolTurn(l, pending, s, b, run);
      m, more := WithTools(b, r, run).value.0, WithTools(b, r, run).value.1;
      r := r.(results := ResultMessages(run.outcomes.value), executed := run.executed, aborted := run.aborted);
    } else {
      BareTurn(l, pending, s, b);
      m, more := Closed(b, r), false;
    }
  }

  // ---------------------------------------------------------------- the trace of one turn

  /** At the start of a turn. */
  ghost predicate Ready(l: Loop) {
    ScanAll(Fresh, l.events) ==
      if l.turns == [] then InTurn(Turn(0, l.newMessages, 0, false, multiset{})) else Idle(|l.turns|, l.newMessages)
  }

  lemma BegunTrace(l: Loop, pending: seq<Message>, s: TurnScript) returns (t: Turn)
    requires Ready(l) && Starts(s.stream) <= 1
    ensures ScanAll(Fresh, Begun(l, pending, s).events) == InTurn(t) && !t.open && t.running == multiset{}
    ensures t.turns == |l.turns| && t.all == l.newMessages + pending + [Assistant(s.final)] && t.from <= |l.newMessages|
  {
    var o := Opened(l);
    if l.turns != [] { ScanOne(Fresh, l.events, TurnStart); }
    t := ScanAll(Fresh, o.events).turn;
    ScanAppend(Fresh, o.events, BracketAll(pending));
    ScanBrackets(t, pending);
    t := t.(all := l.newMessages + pending);
    ResponseTraceExactly(o.events + BracketAll(pending), t, s.stream, s.final);
    t := t.(all := l.newMessages + pending + [Assistant(s.final)]);
  }

  lemma ResultsClose(before: seq<Message>, from: nat, m: AssistantMessage, results: seq<Message>)
    requires from <= |before| && Answers(m, results)
    ensures ClosesTurn(before + [Assistant(m)] + results, from, Assistant(m), results)
  {
  }

  lemma NextCloses(t: Turn, m: AssistantMessage, results: seq<Message>)
    requires !t.open && ClosesTurn(t.all, t.from, Assistant(m), results) && t.running <= MayStillRun(m, results)
    ensures Next(InTurn(t), TurnEnd(Assistant(m), results)) == Idle(t.turns + 1, t.all)
  {
  }

  lemma ClosesAfter(t: Turn, m: AssistantMessage, results: seq<Message>, es: seq<Event>)
    requires ScanAll(Fresh, es) == InTurn(t) && !t.open && ClosesTurn(t.all, t.from, Assistant(m), results)
    requires t.running <= MayStillRun(m, results)
    ensures ScanAll(Fresh, es + [TurnEnd(Assistant(m), results)]) == Idle(t.turns + 1, t.all)
  {
    NextCloses(t, m, results);
    ScanOne(Fresh, es, TurnEnd(Assistant(m), results));
  }

  /** The tools' events, then turn_end. */
  lemma ToolTurnTrace(es: seq<Event>, t: Turn, before: seq<Message>, m: AssistantMessage, tools: seq<Event>,
                      results: seq<Message>, running: multiset<string>)
    requires ScanAll(Fresh, es) == InTurn(t) && !t.open && t.all == before + [Assistant(m)] && t.from <= |before|
    requires Answers(m, results) && running <= MayStillRun(m, results)
    requires ScanAll(InTurn(t), tools) == InTurn(t.(all := t.all + results, running := running))
    ensures ScanAll(Fresh, es + tools + [TurnEnd(Assistant(m), results)]) == Idle(t.turns + 1, t.all + results)
  {
    ScanAppend(Fresh, es, tools);
    ResultsClose(before, t.from, m, results);
    ClosesAfter(t.(all := t.all + results, running := running), m, results, es + tools);
  }

  lemma WithToolsReady(l: Loop, b: Loop, r: TurnRecord, run: BatchRun)
    requires run.outcomes.Some? && b.turns == l.turns
    requires ScanAll(Fresh, b.events + run.events + [TurnEnd(Assistant(r.message), ResultMessages(run.outcomes.value))])
          == Idle(|l.turns| + 1, b.newMessages + ResultMessages(run.outcomes.value))
    ensures Ready(WithTools(b, r, run).value.0)
  {
  }

  /** A turn is well bracketed and closes on its response and that response's results. */
  lemma TurnTrace(l: Loop, pending: seq<Message>, s: TurnScript)
    requires Ready(l) && Starts(s.stream) <= 1 && TurnOf(l, pending, s).Some?
    ensures Ready(TurnOf(l, pending, s).value.0)
  {
    var b := Begun(l, pending, s);
    BegunIs(l, pending, s);
    var t := BegunTrace(l, pending, s);
    if CallsTools(s.final) {
      var run := Tools(s.final, s, b.aborted);
      var results := ResultMessages(run.outcomes.value);
      var running := ToolsTrace(t, s, b.aborted);
      ToolTurnTrace(b.events, t, l.newMessages + pending, s.final, run.events, results, running);
      WithToolsReady(l, b, NewRecord(b, pending, s), run);
    } else {
      ResultsClose(l.newMessages + pending, t.from, s.final, []);
      assert t.all + [] == t.all;
      ClosesAfter(t, s.final, [], b.events);
    }
  }
}
