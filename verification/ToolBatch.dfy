/** Tool batches of packages/agent/src/agent-loop.ts: preparation, sequential and concurrent execution. */
module ToolBatch {
  import opened Common
  import opened AgentEvents

  datatype ToolOutput =
    ToolOutput(content: Option<seq<string>>, details: string, usage: Option<string>, terminate: Option<bool>)

  datatype Finalized = Finalized(call: ToolCall, output: ToolOutput, isError: bool)

  datatype Before = Allow | Block(reason: string) | BeforeThrows(message: string)

  datatype After =
    | Keep
    | Override(content: Option<seq<string>>, details: Option<string>, usage: Option<string>,
               terminate: Option<bool>, isError: Option<bool>)
    | AfterThrows(message: string)

  datatype Executed = Returns(output: ToolOutput) | Throws(message: string)

  /**
   * What the tool list, the argument checks, the hooks, the tool and the abort signal do for one call. `updates` are
   * those emitted while it executes; which of the reported ones these are is the subject of UpdateFlush.
   */
  datatype Plan = Plan(
    found: bool,
    arguments: Result<string, string>,
    before: Option<Before>,
    abortedAtPrepare: bool,
    updates: seq<string>,
    execution: Executed,
    after: Option<After>,
    abortedAtEnd: bool)

  datatype Preparation = Immediate(output: ToolOutput) | Prepared(args: string)

  function ErrorOutput(message: string): ToolOutput { ToolOutput(Some([message]), "{}", None, None) }

  function Prepare(call: ToolCall, plan: Plan, aborted: bool): Preparation {
    if !plan.found then Immediate(ErrorOutput("Tool " + call.name + " not found"))
    else if plan.arguments.Err? then Immediate(ErrorOutput(plan.arguments.error))
    else if plan.before.Some? && plan.before.value.BeforeThrows? then Immediate(ErrorOutput(plan.before.value.message))
    else if aborted then Immediate(ErrorOutput("Operation aborted"))
    else if plan.before.Some? && plan.before.value.Block? then
      Immediate(ErrorOutput(if plan.before.value.reason != "" then plan.before.value.reason
                            else "Tool execution was blocked"))
    else Prepared(plan.arguments.value)
  }

  function Or<T>(a: Option<T>, b: Option<T>): Option<T> { if a.Some? then a else b }

  function Finalize(call: ToolCall, plan: Plan): Finalized {
    var (output, isError) := match plan.execution
                             case Returns(o) => (o, false)
                             case Throws(m) => (ErrorOutput(m), true);
    match plan.after
    case None => Finalized(call, output, isError)
    case Some(Keep) => Finalized(call, output, isError)
    case Some(AfterThrows(m)) => Finalized(call, ErrorOutput(m), true)
    case Some(Override(content, details, usage, terminate, error)) =>
      Finalized(call,
                ToolOutput(Or(content, output.content),
                           if details.Some? then details.value else output.details,
                           Or(usage, output.usage), Or(terminate, output.terminate)),
                if error.Some? then error.value else isError)
  }

  /** The outcome of one call, as a function of the call, what its tool and hooks do, and the abort signal. */
  function Outcome(call: ToolCall, plan: Plan, aborted: bool): (f: Finalized)
    ensures f.call == call
  {
    match Prepare(call, plan, aborted)
    case Immediate(output) => Finalized(call, output, true)
    case Prepared(_) => Finalize(call, plan)
  }

  function ResultMessage(f: Finalized): Message {
    ToolResult(f.call.id, f.call.name, if f.output.content.Some? then f.output.content.value else [],
               f.output.details, f.output.usage, f.isError)
  }

  function ResultMessages(fs: seq<Finalized>): (ms: seq<Message>)
    ensures |ms| == |fs| && forall i :: 0 <= i < |fs| ==> ms[i] == ResultMessage(fs[i])
  {
    seq(|fs|, i requires 0 <= i < |fs| => ResultMessage(fs[i]))
  }

  predicate ShouldTerminate(fs: seq<Finalized>) {
    fs != [] && forall i :: 0 <= i < |fs| ==> fs[i].output.terminate == Some(true)
  }

  type Plans = nat -> Plan

  /** The abort signal as the preparation of call i sees it. */
  function AbortedFor(plans: Plans, aborted: bool, i: nat): bool { aborted || plans(i).abortedAtPrepare }

  function OutcomeAt(calls: seq<ToolCall>, plans: Plans, aborted: bool, i: nat): Finalized
    requires i < |calls|
  {
    Outcome(calls[i], plans(i), AbortedFor(plans, aborted, i))
  }

  predicate PreparedAt(calls: seq<ToolCall>, plans: Plans, aborted: bool, i: nat)
    requires i < |calls|
  {
    Prepare(calls[i], plans(i), AbortedFor(plans, aborted, i)).Prepared?
  }

  /** The outcomes of the first n calls, each as it is on its own. */
  function OutcomesUpTo(calls: seq<ToolCall>, plans: Plans, aborted: bool, n: nat): (fs: seq<Finalized>)
    requires n <= |calls|
    ensures |fs| == n
  {
    if n == 0 then [] else OutcomesUpTo(calls, plans, aborted, n - 1) + [OutcomeAt(calls, plans, aborted, n - 1)]
  }

  lemma {:induction false} OutcomesAre(calls: seq<ToolCall>, plans: Plans, aborted: bool, n: nat)
    requires n <= |calls|
    ensures forall i: nat :: i < n ==> OutcomesUpTo(calls, plans, aborted, n)[i] == OutcomeAt(calls, plans, aborted, i)
  {
    if n > 0 { OutcomesAre(calls, plans, aborted, n - 1); }
  }

  /** Those of the first n calls whose tools are executed. */
  function ExecutedUpTo(calls: seq<ToolCall>, plans: Plans, aborted: bool, n: nat): seq<ToolCall>
    requires n <= |calls|
  {
    if n == 0 then []
    else ExecutedUpTo(calls, plans, aborted, n - 1) + if PreparedAt(calls, plans, aborted, n - 1) then [calls[n - 1]]
        else []
  }

  /** What a batch gives: outcomes in source order unless the schedule leaves a tool running. */
  datatype BatchRun =
    BatchRun(outcomes: Option<seq<Finalized>>, events: seq<Event>, executed: seq<ToolCall>, aborted: bool)

  ghost predicate NoAbort(calls: seq<ToolCall>, plans: Plans) {
    forall i: nat :: i < |calls| ==> !plans(i).abortedAtPrepare && !plans(i).abortedAtEnd
  }

  // ---------------------------------------------------------------- events of calls run one at a time

  /** Events of one call run on its own, start to result message. */
  function CallEvents(f: Finalized, updates: seq<string>): seq<Event> {
    [ToolExecutionStart(f.call.id)] + UpdateEvents(f.call.id, updates) +
    [ToolExecutionEnd(f.call.id, f.isError)] + Bracket(ResultMessage(f))
  }

  function UpdateEvents(id: string, updates: seq<string>): seq<Event> {
    if updates == [] then []
    else UpdateEvents(id, updates[..|updates| - 1]) + [ToolExecutionUpdate(id, updates[|updates| - 1])]
  }

  datatype Ran = Ran(outcome: Finalized, updates: seq<string>)

  function CallsEvents(ran: seq<Ran>): seq<Event> {
    if ran == [] then []
    else
      var last := ran[|ran| - 1];
      CallsEvents(ran[..|ran| - 1]) + CallEvents(last.outcome, last.updates)
  }

  function OutcomesOf(ran: seq<Ran>): (fs: seq<Finalized>)
    ensures |fs| == |ran| && forall i :: 0 <= i < |ran| ==> fs[i] == ran[i].outcome
  {
    seq(|ran|, i requires 0 <= i < |ran| => ran[i].outcome)
  }

  lemma {:induction false} ScanUpdates(t: Turn, id: string, updates: seq<string>)
    requires !t.open && id in t.running
    ensures ScanAll(InTurn(t), UpdateEvents(id, updates)) == InTurn(t)
  {
    if updates != [] {
      var n := |updates| - 1;
      ScanUpdates(t, id, updates[..n]);
      ScanOne(InTurn(t), UpdateEvents(id, updates[..n]), ToolExecutionUpdate(id, updates[n]));
    }
  }

  lemma ScanCall(t: Turn, f: Finalized, updates: seq<string>)
    requires !t.open
    ensures ScanAll(InTurn(t), CallEvents(f, updates)) == InTurn(t.(all := t.all + [ResultMessage(f)]))
  {
    var id := f.call.id;
    var (a, u, e) := ([ToolExecutionStart(id)], UpdateEvents(id, updates), [ToolExecutionEnd(id, f.isError)]);
    var s, started := InTurn(t), t.(running := t.running + multiset{id});
    ScanSingle(s, a[0]);
    ScanAppend(s, a, u);
    ScanUpdates(started, id, updates);
    ScanAppend(s, a + u, e);
    ScanSingle(InTurn(started), e[0]);
    AddRemove(t.running, id);
    ScanAppend(s, a + u + e, Bracket(ResultMessage(f)));
    ScanBracket(t, ResultMessage(f));
  }

  /** On the trace, a batch run one call at a time is its result messages, each bracketed once. */
  lemma {:induction false} ScanCalls(t: Turn, ran: seq<Ran>)
    requires !t.open
    ensures ScanAll(InTurn(t), CallsEvents(ran)) == InTurn(t.(all := t.all + ResultMessages(OutcomesOf(ran))))
  {
    if ran == [] {
      assert t.all + ResultMessages(OutcomesOf(ran)) == t.all;
    } else {
      var n := |ran| - 1;
      var last := ran[n];
      var before := ResultMessages(OutcomesOf(ran[..n]));
      ScanCalls(t, ran[..n]);
      ScanAppend(InTurn(t), CallsEvents(ran[..n]), CallEvents(last.outcome, last.updates));
      ScanCall(t.(all := t.all + before), last.outcome, last.updates);
      assert ran == ran[..n] + [last];
      RanOneMore(ran[..n], last);
      ResultsOneMore(t.all, OutcomesOf(ran[..n]), last.outcome);
    }
  }

  lemma ResultsOneMore(all: seq<Message>, fs: seq<Finalized>, f: Finalized)
    ensures all + ResultMessages(fs + [f]) == all + ResultMessages(fs) + [ResultMessage(f)]
  {
  }

  lemma RanOneMore(ran: seq<Ran>, r: Ran)
    ensures CallsEvents(ran + [r]) == CallsEvents(ran) + CallEvents(r.outcome, r.updates)
    ensures OutcomesOf(ran + [r]) == OutcomesOf(ran) + [r.outcome]
  {
    assert (ran + [r])[..|ran|] == ran;
  }

  // ---------------------------------------------------------------- truncated messages

  const TRUNCATED_NOTICE :=
    "the response hit the output token limit, so its arguments may be truncated. " +
    "Re-issue the tool call with complete arguments."

  function TruncatedOutcome(call: ToolCall): Finalized {
    Finalized(call, ErrorOutput("Tool call \"" + call.name + "\" was not executed: " + TRUNCATED_NOTICE), true)
  }

  /** Every call of a truncated message, answered with an error. */
  function TruncatedRan(calls: seq<ToolCall>, n: nat): (ran: seq<Ran>)
    requires n <= |calls|
    ensures |ran| == n && forall i :: 0 <= i < n ==> ran[i] == Ran(TruncatedOutcome(calls[i]), [])
  {
    if n == 0 then [] else TruncatedRan(calls, n - 1) + [Ran(TruncatedOutcome(calls[n - 1]), [])]
  }

  function Truncated(calls: seq<ToolCall>, aborted: bool): BatchRun {
    var ran := TruncatedRan(calls, |calls|);
    BatchRun(Some(OutcomesOf(ran)), CallsEvents(ran), [], aborted)
  }

  method FailTruncated(calls: seq<ToolCall>, aborted: bool) returns (r: BatchRun)
    ensures r == Truncated(calls, aborted)
  {
    var fs, es := [], [];
    for k := 0 to |calls|
      invariant fs == OutcomesOf(TruncatedRan(calls, k)) && es == CallsEvents(TruncatedRan(calls, k))
    {
      var f := TruncatedOutcome(calls[k]);
      RanOneMore(TruncatedRan(calls, k), Ran(f, []));
      es := es + CallEvents(f, []);
      fs := fs + [f];
    }
    return BatchRun(Some(fs), es, [], aborted);
  }

  // ---------------------------------------------------------------- sequential execution

  /** How many calls are answered when they run one after another from the k-th on: an abort ends the batch. */
  function SequentialCount(plans: Plans, aborted: bool, n: nat, k: nat): (c: nat)
    requires k <= n
    ensures k <= c <= n
    decreases n - k
  {
    if k == n then n
    else if AbortedFor(plans, aborted, k) || plans(k).abortedAtEnd then k + 1
    else SequentialCount(plans, aborted, n, k + 1)
  }

  function RanAt(calls: seq<ToolCall>, plans: Plans, aborted: bool, i: nat): Ran
    requires i < |calls|
  {
    Ran(OutcomeAt(calls, plans, aborted, i), if PreparedAt(calls, plans, aborted, i) then plans(i).updates else [])
  }

  /** The first n calls run one after another. */
  function RanUpTo(calls: seq<ToolCall>, plans: Plans, aborted: bool, n: nat): (ran: seq<Ran>)
    requires n <= |calls|
    ensures |ran| == n
  {
    if n == 0 then [] else RanUpTo(calls, plans, aborted, n - 1) + [RanAt(calls, plans, aborted, n - 1)]
  }

  /** The first n calls, run one after another, and whether the signal is aborted by then. */
  function FirstCalls(calls: seq<ToolCall>, plans: Plans, aborted: bool, n: nat): BatchRun
    requires n <= |calls|
  {
    BatchRun(Some(OutcomesUpTo(calls, plans, aborted, n)), CallsEvents(RanUpTo(calls, plans, aborted, n)),
             ExecutedUpTo(calls, plans, aborted, n),
             aborted || (n > 0 && (plans(n - 1).abortedAtPrepare || plans(n - 1).abortedAtEnd)))
  }

  function Sequential(calls: seq<ToolCall>, plans: Plans, aborted: bool): BatchRun {
    FirstCalls(calls, plans, aborted, SequentialCount(plans, aborted, |calls|, 0))
  }

  lemma {:induction false} RanOutcomes(calls: seq<ToolCall>, plans: Plans, aborted: bool, n: nat)
    requires n <= |calls|
    ensures OutcomesOf(RanUpTo(calls, plans, aborted, n)) == OutcomesUpTo(calls, plans, aborted, n)
  {
    if n > 0 {
      RanOutcomes(calls, plans, aborted, n - 1);
      RanOneMore(RanUpTo(calls, plans, aborted, n - 1), RanAt(calls, plans, aborted, n - 1));
    }
  }

  /** Prepares one call and, unless preparation already decides it, executes and finalizes it. */
  method RunCall(call: ToolCall, plan: Plan, aborted: bool) returns (f: Finalized, updates: seq<string>, executed: bool)
    ensures f == Outcome(call, plan, aborted)
    ensures executed == Prepare(call, plan, aborted).Prepared? && updates == if executed then plan.updates else []
  {
    var preparation := Prepare(call, plan, aborted);
    if preparation.Immediate? {
      return Finalized(call, preparation.output, true), [], false;
    }
    return Finalize(call, plan), plan.updates, true;
  }

  /** Call k, once the calls before it have run without an abort. */
  method RunNext(calls: seq<ToolCall>, plans: Plans, ghost aborted: bool, k: nat, r: BatchRun) returns (r': BatchRun)
    requires k < |calls| && r == FirstCalls(calls, plans, aborted, k) && (k > 0 ==> !r.aborted)
    ensures r' == FirstCalls(calls, plans, aborted, k + 1)
    ensures r'.aborted <==> AbortedFor(plans, aborted, k) || plans(k).abortedAtEnd
  {
    var seen := r.aborted || plans(k).abortedAtPrepare;
    var f, updates, ranTool := RunCall(calls[k], plans(k), seen);
    RanOneMore(RanUpTo(calls, plans, aborted, k), RanAt(calls, plans, aborted, k));
    return BatchRun(Some(r.outcomes.value + [f]), r.events + CallEvents(f, updates),
                    r.executed + if ranTool then [calls[k]] else [], seen || plans(k).abortedAtEnd);
  }

  method ExecuteSequential(calls: seq<ToolCall>, plans: Plans, aborted: bool) returns (r: BatchRun)
    ensures r == Sequential(calls, plans, aborted)
  {
    r := BatchRun(Some([]), [], [], aborted);
    var k := 0;
    while k < |calls|
      invariant k <= |calls| && r == FirstCalls(calls, plans, aborted, k) && (k > 0 ==> !r.aborted)
      invariant SequentialCount(plans, aborted, |calls|, k) == SequentialCount(plans, aborted, |calls|, 0)
    {
      r := RunNext(calls, plans, aborted, k, r);
      k := k + 1;
      if r.aborted { return; }
    }
  }

  /** The sequential batch stops at the first call that sees an abort, and only there. */
  lemma {:induction false} SequentialStops(plans: Plans, aborted: bool, n: nat, k: nat)
    requires k <= n
    ensures var c := SequentialCount(plans, aborted, n, k);
            && (forall i: nat :: k <= i < c - 1 ==> !AbortedFor(plans, aborted, i) && !plans(i).abortedAtEnd)
            && (c < n ==> c > k && (AbortedFor(plans, aborted, c - 1) || plans(c - 1).abortedAtEnd))
    decreases n - k
  {
    if k < n && !AbortedFor(plans, aborted, k) && !plans(k).abortedAtEnd {
      SequentialStops(plans, aborted, n, k + 1);
    }
  }

  // ---------------------------------------------------------------- concurrent execution

  /** Progress of one entry of the batch. Entries decided at preparation are finished from the start. */
  datatype Slot = Running(updates: seq<string>) | Settling | Finished(outcome: Finalized)

  function InitialSlot(call: ToolCall, plan: Plan, aborted: bool): Slot {
    match Prepare(call, plan, aborted)
    case Immediate(output) => Finished(Finalized(call, output, true))
    case Prepared(_) => Running(plan.updates)
  }

  /** One scheduling step of an entry: emit an update, finish executing, or finalize and emit the end event. */
  function Advance(call: ToolCall, plan: Plan, slot: Slot): (Slot, seq<Event>) {
    match slot
    case Running(updates) =>
      if updates != [] then (Running(updates[1..]), [ToolExecutionUpdate(call.id, updates[0])]) else (Settling, [])
    case Settling =>
      var f := Finalize(call, plan);
      (Finished(f), [ToolExecutionEnd(call.id, f.isError)])
    case Finished(_) => (slot, [])
  }

  datatype Batch = Batch(slots: seq<Slot>, events: seq<Event>)

  /** Runs the scheduler's choices. Choices outside the batch are ignored. */
  function RunSchedule(calls: seq<ToolCall>, plans: Plans, b: Batch, schedule: seq<nat>): Batch
    requires |b.slots| <= |calls|
    decreases |schedule|
  {
    if schedule == [] then b
    else RunSchedule(calls, plans, StepBatch(calls, plans, b, schedule[0]), schedule[1..])
  }

  function StepBatch(calls: seq<ToolCall>, plans: Plans, b: Batch, i: nat): (c: Batch)
    requires |b.slots| <= |calls|
    ensures |c.slots| == |b.slots|
  {
    if i >= |b.slots| then b
    else
      var (slot, es) := Advance(calls[i], plans(i), b.slots[i]);
      Batch(b.slots[i := slot], b.events + es)
  }

  predicate AllFinished(slots: seq<Slot>) { forall i :: 0 <= i < |slots| ==> slots[i].Finished? }

  function Outcomes(slots: seq<Slot>): (fs: seq<Finalized>)
    requires AllFinished(slots)
    ensures |fs| == |slots|
    ensures forall i :: 0 <= i < |slots| ==> fs[i] == slots[i].outcome
  {
    seq(|slots|, i requires 0 <= i < |slots| => slots[i].outcome)
  }

  /** A finished entry holds the outcome its call has on its own; an unfinished one was prepared for execution. */
  ghost predicate Faithful(calls: seq<ToolCall>, plans: Plans, aborted: bool, slots: seq<Slot>) {
    && |slots| <= |calls|
    && forall i :: 0 <= i < |slots| ==>
         var alone := Outcome(calls[i], plans(i), aborted || plans(i).abortedAtPrepare);
         if slots[i].Finished? then slots[i].outcome == alone else alone == Finalize(calls[i], plans(i))
  }

  lemma {:induction false} ScheduleKeepsOutcomes(
    calls: seq<ToolCall>, plans: Plans, aborted: bool, b: Batch, schedule: seq<nat>)
    requires Faithful(calls, plans, aborted, b.slots)
    ensures var c := RunSchedule(calls, plans, b, schedule);
            |c.slots| == |b.slots| && Faithful(calls, plans, aborted, c.slots)
    decreases |schedule|
  {
    if schedule != [] {
      ScheduleKeepsOutcomes(calls, plans, aborted, StepBatch(calls, plans, b, schedule[0]), schedule[1..]);
    }
  }

  /** Scheduling steps an entry still needs. */
  function Work(slot: Slot): nat {
    match slot
    case Running(updates) => |updates| + 2
    case Settling => 1
    case Finished(_) => 0
  }

  /** How often a schedule picks entry i. */
  function Picks(schedule: seq<nat>, i: nat): nat {
    if schedule == [] then 0 else (if schedule[0] == i then 1 else 0) + Picks(schedule[1..], i)
  }

  /** A schedule finishes the batch exactly when it picks every entry as often as the entry needs. */
  lemma {:induction false} FinishesExactly(calls: seq<ToolCall>, plans: Plans, b: Batch, schedule: seq<nat>)
    requires |b.slots| <= |calls|
    ensures AllFinished(RunSchedule(calls, plans, b, schedule).slots) <==>
            forall i: nat :: i < |b.slots| ==> Work(b.slots[i]) <= Picks(schedule, i)
    decreases |schedule|
  {
    if schedule != [] {
      var c, rest := StepBatch(calls, plans, b, schedule[0]), schedule[1..];
      FinishesExactly(calls, plans, c, rest);
      forall i: nat | i < |b.slots|
        ensures Work(b.slots[i]) <= Picks(schedule, i) <==> Work(c.slots[i]) <= Picks(rest, i)
      {
        assert Work(c.slots[i]) == if i == schedule[0] && Work(b.slots[i]) > 0 then Work(b.slots[i]) - 1
               else Work(b.slots[i]);
      }
    }
  }

  function Repeated(i: nat, n: nat): seq<nat> { if n == 0 then [] else [i] + Repeated(i, n - 1) }

  function OneAfterAnother(slots: seq<Slot>, k: nat): seq<nat>
    requires k <= |slots|
  {
    if k == 0 then [] else Repeated(k - 1, Work(slots[k - 1])) + OneAfterAnother(slots, k - 1)
  }

  lemma {:induction false} PicksRepeated(i: nat, n: nat, rest: seq<nat>, j: nat)
    ensures Picks(Repeated(i, n) + rest, j) == (if i == j then n else 0) + Picks(rest, j)
  {
    if n == 0 {
      assert [] + rest == rest;
    } else {
      assert (Repeated(i, n) + rest)[1..] == Repeated(i, n - 1) + rest;
      PicksRepeated(i, n - 1, rest, j);
    }
  }

  lemma {:induction false} PicksEnough(slots: seq<Slot>, k: nat, j: nat)
    requires j < k <= |slots|
    ensures Picks(OneAfterAnother(slots, k), j) >= Work(slots[j])
  {
    PicksRepeated(k - 1, Work(slots[k - 1]), OneAfterAnother(slots, k - 1), j);
    if j < k - 1 { PicksEnough(slots, k - 1, j); }
  }

  /** Every batch has a schedule that finishes it. */
  lemma SomeScheduleFinishes(calls: seq<ToolCall>, plans: Plans, b: Batch) returns (schedule: seq<nat>)
    requires |b.slots| <= |calls|
    ensures AllFinished(RunSchedule(calls, plans, b, schedule).slots)
  {
    schedule := OneAfterAnother(b.slots, |b.slots|);
    forall i: nat | i < |b.slots| ensures Work(b.slots[i]) <= Picks(schedule, i) {
      PicksEnough(b.slots, |b.slots|, i);
    }
    FinishesExactly(calls, plans, b, schedule);
  }

  // ---------------------------------------------------------------- the concurrent executor and its trace

  predicate FinishedAt(slots: seq<Slot>, i: nat) { i < |slots| && slots[i].Finished? }

  /** Ids of the first k calls that have been started and not ended. */
  function Open(calls: seq<ToolCall>, slots: seq<Slot>, k: nat): multiset<string>
    requires k <= |calls|
  {
    if k == 0 then multiset{}
    else Open(calls, slots, k - 1) + if FinishedAt(slots, k - 1) then multiset{} else multiset{calls[k - 1].id}
  }

  /** Entry i, the only one that changes, finishes: its call is no longer open. */
  lemma {:induction false} OpenLess(calls: seq<ToolCall>, a: seq<Slot>, b: seq<Slot>, i: nat, k: nat)
    requires i < k <= |calls| && !FinishedAt(a, i) && FinishedAt(b, i)
    requires forall j: nat :: j < |calls| && j != i ==> FinishedAt(a, j) == FinishedAt(b, j)
    ensures Open(calls, a, k) == Open(calls, b, k) + multiset{calls[i].id}
  {
    if k == i + 1 {
      OpenSame(calls, a, b, i);
      SumNothing(Open(calls, b, i));
    } else {
      OpenLess(calls, a, b, i, k - 1);
      SumSwap(Open(calls, b, k - 1), multiset{calls[i].id},
              if FinishedAt(a, k - 1) then multiset{} else multiset{calls[k - 1].id});
    }
  }

  lemma {:induction false} OpenSame(calls: seq<ToolCall>, a: seq<Slot>, b: seq<Slot>, k: nat)
    requires k <= |calls| && forall j: nat :: j < k ==> FinishedAt(a, j) == FinishedAt(b, j)
    ensures Open(calls, a, k) == Open(calls, b, k)
  {
    if k > 0 { OpenSame(calls, a, b, k - 1); }
  }

  lemma {:induction false} OpenHas(calls: seq<ToolCall>, a: seq<Slot>, i: nat, k: nat)
    requires i < k <= |calls| && !FinishedAt(a, i)
    ensures calls[i].id in Open(calls, a, k)
  {
    if i < k - 1 { OpenHas(calls, a, i, k - 1); }
  }

  lemma AddRemove(x: multiset<string>, e: string)
    ensures x + multiset{e} - multiset{e} == x && x + multiset{} == x && e in x + multiset{e}
  {
  }

  lemma SumNothing(x: multiset<string>)
    ensures x + multiset{} == x
  {
  }

  lemma SumSwap(x: multiset<string>, y: multiset<string>, z: multiset<string>)
    ensures x + y + z == x + z + y
  {
  }

  function StartEvents(calls: seq<ToolCall>, k: nat): seq<Event>
    requires k <= |calls|
  {
    if k == 0 then [] else StartEvents(calls, k - 1) + [ToolExecutionStart(calls[k - 1].id)]
  }

  lemma NextStarts(t: Turn, open: multiset<string>, id: string)
    requires !t.open
    ensures Next(InTurn(t.(running := t.running + open)), ToolExecutionStart(id)) ==
            InTurn(t.(running := t.running + (open + multiset{id})))
  {
    SumAssoc(t.running, open, multiset{id});
  }

  lemma {:induction false} ScanStarts(t: Turn, calls: seq<ToolCall>, k: nat)
    requires !t.open && k <= |calls|
    ensures ScanAll(InTurn(t), StartEvents(calls, k)) == InTurn(t.(running := t.running + Open(calls, [], k)))
  {
    if k == 0 {
      SumNothing(t.running);
    } else {
      ScanStarts(t, calls, k - 1);
      ScanNextStart(t, calls, k, StartEvents(calls, k - 1), Open(calls, [], k - 1));
    }
  }

  lemma ScanNextStart(t: Turn, calls: seq<ToolCall>, k: nat, es: seq<Event>, open: multiset<string>)
    requires !t.open && 0 < k <= |calls| && es == StartEvents(calls, k - 1) && open == Open(calls, [], k - 1)
    requires ScanAll(InTurn(t), es) == InTurn(t.(running := t.running + open))
    ensures ScanAll(InTurn(t), StartEvents(calls, k)) == InTurn(t.(running := t.running + Open(calls, [], k)))
  {
    var id := calls[k - 1].id;
    assert StartEvents(calls, k) == es + [ToolExecutionStart(id)] && Open(calls, [], k) == open + multiset{id};
    NextStarts(t, open, id);
    ScanOne(InTurn(t), es, ToolExecutionStart(id));
  }

  lemma SumAssoc(x: multiset<string>, y: multiset<string>, z: multiset<string>)
    ensures x + y + z == x + (y + z)
  {
  }

  /** While a batch runs, the trace is inside the turn with exactly the unfinished calls running. */
  ghost predicate TracksBatch(t: Turn, calls: seq<ToolCall>, b: Batch) {
    && |b.slots| <= |calls|
    && !t.open
    && ScanAll(InTurn(t), b.events) == InTurn(t.(running := t.running + Open(calls, b.slots, |calls|)))
  }

  lemma StepTracks(t: Turn, calls: seq<ToolCall>, plans: Plans, b: Batch, i: nat)
    requires TracksBatch(t, calls, b)
    ensures TracksBatch(t, calls, StepBatch(calls, plans, b, i))
  {
    if i < |b.slots| {
      var (slot, es) := Advance(calls[i], plans(i), b.slots[i]);
      var slots := b.slots[i := slot];
      if es == [] {
        assert b.events + es == b.events;
        OpenSame(calls, b.slots, slots, |calls|);
      } else if slot.Finished? {
        EndTracks(t, calls, b, slots, i, slot.outcome.isError);
      } else {
        UpdateTracks(t, calls, b, slots, i, es[0].partial);
      }
    }
  }

  lemma NextEnds(t: Turn, open: multiset<string>, id: string, isError: bool)
    requires !t.open
    ensures Next(InTurn(t.(running := t.running + (open + multiset{id}))), ToolExecutionEnd(id, isError)) ==
            InTurn(t.(running := t.running + open))
  {
    SumAssoc(t.running, open, multiset{id});
    AddRemove(t.running + open, id);
  }

  /** Ending call i, the only call whose entry changes. */
  lemma EndTracks(t: Turn, calls: seq<ToolCall>, b: Batch, slots: seq<Slot>, i: nat, isError: bool)
    requires TracksBatch(t, calls, b) && |slots| <= |calls| && i < |calls|
    requires !FinishedAt(b.slots, i) && FinishedAt(slots, i)
    requires forall j: nat :: j < |calls| && j != i ==> FinishedAt(b.slots, j) == FinishedAt(slots, j)
    ensures TracksBatch(t, calls, Batch(slots, b.events + [ToolExecutionEnd(calls[i].id, isError)]))
  {
    var after, id := Open(calls, slots, |calls|), calls[i].id;
    OpenLess(calls, b.slots, slots, i, |calls|);
    NextEnds(t, after, id, isError);
    ScanOne(InTurn(t), b.events, ToolExecutionEnd(id, isError));
  }

  lemma UpdateTracks(t: Turn, calls: seq<ToolCall>, b: Batch, slots: seq<Slot>, i: nat, partial: string)
    requires TracksBatch(t, calls, b) && |slots| <= |calls| && i < |calls|
    requires !FinishedAt(b.slots, i)
    requires forall j: nat :: j < |calls| ==> FinishedAt(b.slots, j) == FinishedAt(slots, j)
    ensures TracksBatch(t, calls, Batch(slots, b.events + [ToolExecutionUpdate(calls[i].id, partial)]))
  {
    OpenSame(calls, b.slots, slots, |calls|);
    OpenHas(calls, slots, i, |calls|);
    ScanOne(InTurn(t), b.events, ToolExecutionUpdate(calls[i].id, partial));
  }

  /** The entry of one more call is added to the batch; a call decided at preparation ends at once. */
  function PushSlot(calls: seq<ToolCall>, b: Batch, slot: Slot): Batch
    requires |b.slots| < |calls|
  {
    Batch(b.slots + [slot],
          b.events + if slot.Finished? then [ToolExecutionEnd(calls[|b.slots|].id, slot.outcome.isError)] else [])
  }

  lemma PushTracks(t: Turn, calls: seq<ToolCall>, b: Batch, slot: Slot)
    requires TracksBatch(t, calls, b) && |b.slots| < |calls|
    ensures TracksBatch(t, calls, PushSlot(calls, b, slot))
  {
    if slot.Finished? {
      EndTracks(t, calls, b, b.slots + [slot], |b.slots|, slot.outcome.isError);
    } else {
      assert b.events + [] == b.events;
      OpenSame(calls, b.slots, b.slots + [slot], |calls|);
    }
  }

  /** Once all entries have finished, the calls that got none are still running. */
  lemma {:induction false} OnlyUnanswered(calls: seq<ToolCall>, slots: seq<Slot>, k: nat)
    requires |slots| <= k <= |calls| && AllFinished(slots)
    ensures Open(calls, slots, k) == Ids(calls[|slots|..k])
    decreases k
  {
    if k > |slots| {
      OnlyUnanswered(calls, slots, k - 1);
      IdsOneMore(calls, |slots|, k);
    } else {
      NoneOpen(calls, slots, k);
    }
  }

  lemma IdsOneMore(calls: seq<ToolCall>, n: nat, k: nat)
    requires n < k <= |calls|
    ensures Ids(calls[n..k]) == Ids(calls[n..k - 1]) + multiset{calls[k - 1].id}
  {
    assert calls[n..k][..k - n - 1] == calls[n..k - 1];
  }

  lemma {:induction false} NoneOpen(calls: seq<ToolCall>, slots: seq<Slot>, k: nat)
    requires k <= |calls| && k <= |slots| && AllFinished(slots)
    ensures Open(calls, slots, k) == multiset{}
  {
    if k > 0 { NoneOpen(calls, slots, k - 1); }
  }

  /** The batch once the first k preparations have become entries. */
  function BatchOf(calls: seq<ToolCall>, plans: Plans, aborted: bool, k: nat): (b: Batch)
    requires k <= |calls|
    ensures |b.slots| == k
  {
    if k == 0 then Batch([], StartEvents(calls, |calls|))
    else PushSlot(calls, BatchOf(calls, plans, aborted, k - 1), SlotOf(calls, plans, aborted, k - 1))
  }

  function SlotOf(calls: seq<ToolCall>, plans: Plans, aborted: bool, k: nat): Slot
    requires k < |calls|
  {
    InitialSlot(calls[k], plans(k), aborted || plans(k).abortedAtPrepare)
  }

  lemma {:induction false} BatchOfTracks(t: Turn, calls: seq<ToolCall>, plans: Plans, aborted: bool, k: nat)
    requires k <= |calls| && !t.open
    ensures TracksBatch(t, calls, BatchOf(calls, plans, aborted, k))
  {
    if k == 0 {
      ScanStarts(t, calls, |calls|);
    } else {
      BatchOfTracks(t, calls, plans, aborted, k - 1);
      PushTracks(t, calls, BatchOf(calls, plans, aborted, k - 1), SlotOf(calls, plans, aborted, k - 1));
    }
  }

  lemma {:induction false} BatchOfFaithful(calls: seq<ToolCall>, plans: Plans, aborted: bool, k: nat)
    requires k <= |calls|
    ensures Faithful(calls, plans, aborted, BatchOf(calls, plans, aborted, k).slots)
  {
    if k > 0 { BatchOfFaithful(calls, plans, aborted, k - 1); }
  }

  lemma {:induction false} ScheduleTracks(t: Turn, calls: seq<ToolCall>, plans: Plans, b: Batch, schedule: seq<nat>)
    requires TracksBatch(t, calls, b)
    ensures TracksBatch(t, calls, RunSchedule(calls, plans, b, schedule))
    decreases |schedule|
  {
    if schedule != [] {
      StepTracks(t, calls, plans, b, schedule[0]);
      ScheduleTracks(t, calls, plans, StepBatch(calls, plans, b, schedule[0]), schedule[1..]);
    }
  }

  function AnyPrepareAborted(plans: Plans, n: nat): bool {
    n > 0 && (AnyPrepareAborted(plans, n - 1) || plans(n - 1).abortedAtPrepare)
  }

  /** How many calls get an entry from the k-th on: `seen` says that the signal was aborted during preparation. */
  function ConcurrentCount(plans: Plans, seen: bool, n: nat, k: nat): (c: nat)
    requires k <= n
    ensures k <= c <= n
    decreases n - k
  {
    if k == n then n else if seen || plans(k).abortedAtEnd then k + 1 else ConcurrentCount(plans, seen, n, k + 1)
  }

  function Concurrent(calls: seq<ToolCall>, plans: Plans, aborted: bool, schedule: seq<nat>): BatchRun {
    var seen := aborted || AnyPrepareAborted(plans, |calls|);
    var n := ConcurrentCount(plans, seen, |calls|, 0);
    var b := RunSchedule(calls, plans, BatchOf(calls, plans, aborted, n), schedule);
    var executed, after := ExecutedUpTo(calls, plans, aborted, n), seen || (n > 0 && plans(n - 1).abortedAtEnd);
    if AllFinished(b.slots)
    then BatchRun(Some(Outcomes(b.slots)), b.events + BracketAll(ResultMessages(Outcomes(b.slots))), executed, after)
    else BatchRun(None, b.events, executed, after)
  }

  /** Whether the signal is aborted once all calls have been prepared. */
  method PrepareAll(calls: seq<ToolCall>, plans: Plans, aborted: bool) returns (seen: bool)
    ensures seen == (aborted || AnyPrepareAborted(plans, |calls|))
  {
    seen := aborted;
    for k := 0 to |calls|
      invariant seen == (aborted || AnyPrepareAborted(plans, k))
    {
      seen := seen || plans(k).abortedAtPrepare;
    }
  }

  /** The loop that turns preparations into entries, stopping at the abort signal. */
  method StartBatch(calls: seq<ToolCall>, plans: Plans, aborted: bool, seen: bool)
    returns (b: Batch, executed: seq<ToolCall>, aborted': bool)
    ensures var n := ConcurrentCount(plans, seen, |calls|, 0);
            && b == BatchOf(calls, plans, aborted, n)
            && executed == ExecutedUpTo(calls, plans, aborted, n)
            && aborted' == (seen || (n > 0 && plans(n - 1).abortedAtEnd))
  {
    b, executed, aborted' := Batch([], StartEvents(calls, |calls|)), [], seen;
    var k := 0;
    while k < |calls|
      invariant k <= |calls| && b == BatchOf(calls, plans, aborted, k)
      invariant executed == ExecutedUpTo(calls, plans, aborted, k)
      invariant aborted' == seen && (k > 0 ==> !seen && !plans(k - 1).abortedAtEnd)
      invariant ConcurrentCount(plans, seen, |calls|, k) == ConcurrentCount(plans, seen, |calls|, 0)
    {
      var slot := SlotOf(calls, plans, aborted, k);
      b := PushSlot(calls, b, slot);
      if !slot.Finished? { executed := executed + [calls[k]]; }
      aborted' := aborted' || plans(k).abortedAtEnd;
      k := k + 1;
      if aborted' { return; }
    }
  }

  /** Outcomes in source order when the schedule lets every entry finish. */
  method ExecuteParallel(calls: seq<ToolCall>, plans: Plans, aborted: bool, schedule: seq<nat>) returns (r: BatchRun)
    ensures r == Concurrent(calls, plans, aborted, schedule)
  {
    var seen := PrepareAll(calls, plans, aborted);
    var batch, executed, aborted' := StartBatch(calls, plans, aborted, seen);
    ghost var start := batch;
    for k := 0 to |schedule|
      invariant |batch.slots| == |start.slots|
      invariant RunSchedule(calls, plans, batch, schedule[k..]) == RunSchedule(calls, plans, start, schedule)
    {
      assert schedule[k..][1..] == schedule[k + 1..];
      batch := StepBatch(calls, plans, batch, schedule[k]);
    }
    assert schedule[|schedule|..] == [];
    if !AllFinished(batch.slots) { return BatchRun(None, batch.events, executed, aborted'); }
    var fs := Outcomes(batch.slots);
    return BatchRun(Some(fs), batch.events + BracketAll(ResultMessages(fs)), executed, aborted');
  }

  /** The concurrent batch stops at the first check that sees an abort, and only there. */
  lemma {:induction false} ConcurrentStops(plans: Plans, seen: bool, n: nat, k: nat)
    requires k <= n
    ensures var c := ConcurrentCount(plans, seen, n, k);
            && (forall i: nat :: k <= i < c - 1 ==> !seen && !plans(i).abortedAtEnd)
            && (c < n ==> c > k && (seen || plans(c - 1).abortedAtEnd))
    decreases n - k
  {
    if k < n && !seen && !plans(k).abortedAtEnd {
      ConcurrentStops(plans, seen, n, k + 1);
    }
  }

  lemma {:induction false} PrepareAborts(calls: seq<ToolCall>, plans: Plans, n: nat)
    requires NoAbort(calls, plans) && n <= |calls|
    ensures !AnyPrepareAborted(plans, n)
  {
    if n > 0 { PrepareAborts(calls, plans, n - 1); }
  }

  /** Whatever the schedule, a finished concurrent batch holds the outcomes the calls have on their own. */
  lemma ConcurrentOutcomes(calls: seq<ToolCall>, plans: Plans, aborted: bool, n: nat, schedule: seq<nat>)
    requires n <= |calls|
    ensures var b := RunSchedule(calls, plans, BatchOf(calls, plans, aborted, n), schedule);
            AllFinished(b.slots) ==> |b.slots| == n && Outcomes(b.slots) == OutcomesUpTo(calls, plans, aborted, n)
  {
    BatchOfFaithful(calls, plans, aborted, n);
    ScheduleKeepsOutcomes(calls, plans, aborted, BatchOf(calls, plans, aborted, n), schedule);
    OutcomesAre(calls, plans, aborted, n);
  }

  /** The trace of a batch that has finished, followed by its result messages. */
  lemma FinishedTrace(t: Turn, calls: seq<ToolCall>, b: Batch, ms: seq<Message>)
    requires TracksBatch(t, calls, b) && AllFinished(b.slots)
    ensures ScanAll(InTurn(t), b.events + BracketAll(ms)) ==
            InTurn(t.(all := t.all + ms, running := t.running + Ids(calls[|b.slots|..])))
  {
    ScanAppend(InTurn(t), b.events, BracketAll(ms));
    OnlyUnanswered(calls, b.slots, |calls|);
    assert calls[|b.slots|..|calls|] == calls[|b.slots|..];
    ScanBrackets(t.(running := t.running + Ids(calls[|b.slots|..])), ms);
  }

  /** What a finished concurrent batch means, for every schedule: outcomes and trace. */
  lemma ConcurrentBatch(t: Turn, calls: seq<ToolCall>, plans: Plans, aborted: bool, n: nat, schedule: seq<nat>)
    requires n <= |calls| && !t.open
    requires AllFinished(RunSchedule(calls, plans, BatchOf(calls, plans, aborted, n), schedule).slots)
    ensures var b := RunSchedule(calls, plans, BatchOf(calls, plans, aborted, n), schedule);
            && Outcomes(b.slots) == OutcomesUpTo(calls, plans, aborted, n)
            && ScanAll(InTurn(t), b.events + BracketAll(ResultMessages(Outcomes(b.slots)))) ==
               InTurn(t.(all := t.all + ResultMessages(Outcomes(b.slots)), running := t.running + Ids(calls[n..])))
  {
    var start := BatchOf(calls, plans, aborted, n);
    BatchOfTracks(t, calls, plans, aborted, n);
    ScheduleTracks(t, calls, plans, start, schedule);
    ConcurrentOutcomes(calls, plans, aborted, n, schedule);
    var b := RunSchedule(calls, plans, start, schedule);
    FinishedTrace(t, calls, b, ResultMessages(Outcomes(b.slots)));
  }

  /** The trace of a sequential batch. */
  lemma SequentialBatch(t: Turn, calls: seq<ToolCall>, plans: Plans, aborted: bool)
    requires !t.open
    ensures var r := Sequential(calls, plans, aborted);
            ScanAll(InTurn(t), r.events) == InTurn(t.(all := t.all + ResultMessages(r.outcomes.value)))
  {
    var n := SequentialCount(plans, aborted, |calls|, 0);
    ScanCalls(t, RanUpTo(calls, plans, aborted, n));
    RanOutcomes(calls, plans, aborted, n);
  }

  /**
   * Without an abort, and with tools and hooks that depend only on the call, the concurrent batch finishes exactly
   * under the schedules that pick every call often enough, and then gives the outcomes of the sequential batch in
   * source order: the same result messages, the same tools executed and the same terminate decision.
   */
  lemma ConcurrentEqualsSequential(calls: seq<ToolCall>, plans: Plans, schedule: seq<nat>)
    requires NoAbort(calls, plans)
    ensures var c, s := Concurrent(calls, plans, false, schedule), Sequential(calls, plans, false);
            && (c.outcomes.Some? <==> forall i: nat :: i < |calls| ==>
                Work(SlotOf(calls, plans, false, i)) <= Picks(schedule, i))
            && (c.outcomes.Some? ==> c.outcomes == s.outcomes)
            && c.executed == s.executed == ExecutedUpTo(calls, plans, false, |calls|)
            && !c.aborted && !s.aborted && |s.outcomes.value| == |calls|
  {
    NoAbortCounts(calls, plans);
    var b := BatchOf(calls, plans, false, |calls|);
    BatchSlots(calls, plans, false, |calls|);
    FinishesExactly(calls, plans, b, schedule);
    if AllFinished(RunSchedule(calls, plans, b, schedule).slots) {
      ConcurrentBatch(Turn(0, [], 0, false, multiset{}), calls, plans, false, |calls|, schedule);
    }
  }

  lemma NoAbortCounts(calls: seq<ToolCall>, plans: Plans)
    requires NoAbort(calls, plans)
    ensures SequentialCount(plans, false, |calls|, 0) == |calls| && !AnyPrepareAborted(plans, |calls|)
    ensures ConcurrentCount(plans, false, |calls|, 0) == |calls|
  {
    SequentialStops(plans, false, |calls|, 0);
    PrepareAborts(calls, plans, |calls|);
    ConcurrentStops(plans, false, |calls|, 0);
  }

  lemma {:induction false} BatchSlots(calls: seq<ToolCall>, plans: Plans, aborted: bool, k: nat)
    requires k <= |calls|
    ensures forall i: nat :: i < k ==> BatchOf(calls, plans, aborted, k).slots[i] == SlotOf(calls, plans, aborted, i)
  {
    if k > 0 { BatchSlots(calls, plans, aborted, k - 1); }
  }

  /** A tool that ran asks to end the run: by its result, unless the after hook decides otherwise or throws. */
  predicate AsksToTerminate(plan: Plan) {
    !(plan.after.Some? && plan.after.value.AfterThrows?) &&
    if plan.after.Some? && plan.after.value.Override? && plan.after.value.terminate.Some?
    then plan.after.value.terminate.value
    else plan.execution.Returns? && plan.execution.output.terminate == Some(true)
  }

  /**
   * A call executes exactly when its tool exists, its arguments are valid, nothing aborted and no hook stands in the
   * way.
   */
  predicate Executes(plan: Plan, aborted: bool) {
    plan.found && plan.arguments.Ok? && !aborted && (plan.before.None? || plan.before.value.Allow?)
  }

  lemma PreparedExactly(call: ToolCall, plan: Plan, aborted: bool)
    ensures Prepare(call, plan, aborted).Prepared? <==> Executes(plan, aborted)
  {
    if plan.before.Some? {
      match plan.before.value
      case Allow =>
      case Block(_) =>
      case BeforeThrows(_) =>
    }
  }

  /** An outcome is an error exactly when the call did not execute or, the after hook having the last word, failed. */
  lemma ErrorsExactly(call: ToolCall, plan: Plan, aborted: bool)
    ensures Outcome(call, plan, aborted).isError <==>
            (|| !Executes(plan, aborted)
             || (plan.after.Some? && plan.after.value.AfterThrows?)
             || (if plan.after.Some? && plan.after.value.Override? && plan.after.value.isError.Some?
                 then plan.after.value.isError.value else plan.execution.Throws?))
  {
    PreparedExactly(call, plan, aborted);
    if plan.after.Some? {
      match plan.after.value
      case Keep =>
      case AfterThrows(_) =>
      case Override(_, _, _, _, _) =>
    }
  }

  lemma TerminatesExactly(call: ToolCall, plan: Plan, aborted: bool)
    ensures Outcome(call, plan, aborted).output.terminate == Some(true) <==>
            Executes(plan, aborted) && AsksToTerminate(plan)
  {
    PreparedExactly(call, plan, aborted);
  }

  // ---------------------------------------------------------------- what a result message says

  /** Why a call that does not execute was refused. */
  function Refusal(call: ToolCall, plan: Plan, aborted: bool): string {
    if !plan.found then "Tool " + call.name + " not found"
    else if plan.arguments.Err? then plan.arguments.error
    else if plan.before.Some? && plan.before.value.BeforeThrows? then plan.before.value.message
    else if aborted then "Operation aborted"
    else if plan.before.Some? && plan.before.value.Block? && plan.before.value.reason != ""
        then plan.before.value.reason
    else "Tool execution was blocked"
  }

  /** A single reason in place of a result. */
  predicate SaysOnly(m: Message, text: string) {
    m.ToolResult? && m.content == [text] && m.details == "{}" && m.usage == None && m.isError
  }

  /** A field is the hook's where it gives one. */
  predicate Given<T(==)>(hook: Option<T>, field: T, otherwise: T) {
    field == if hook.Some? then hook.value else otherwise
  }

  /**
   * What the result message of a call says, told from the call and what its tool and hooks do. Not executed, or with an
   * after hook that throws, it says why. Otherwise each of its fields is the after hook's where that gives one, else
   * the tool's; a tool that throws says why, and missing content is none.
   */
  predicate Says(call: ToolCall, plan: Plan, aborted: bool, m: Message) {
    && m.ToolResult? && m.toolCallId == call.id && m.toolName == call.name
    && if !Executes(plan, aborted) then SaysOnly(m, Refusal(call, plan, aborted))
       else if plan.after.Some? && plan.after.value.AfterThrows? then SaysOnly(m, plan.after.value.message)
       else if plan.execution.Returns? then
         SaysFields(plan, m, plan.execution.output.content, plan.execution.output.details, plan.execution.output.usage,
                    false)
       else SaysFields(plan, m, Some([plan.execution.message]), "{}", None, true)
  }

  predicate SaysFields(plan: Plan, m: Message, content: Option<seq<string>>, details: string, usage: Option<string>,
                       failed: bool)
  {
    && m.ToolResult?
    && if plan.after.Some? && plan.after.value.Override? then
         var h := plan.after.value;
         && Given(h.content, m.content, if content.Some? then content.value else [])
         && Given(h.details, m.details, details) && Given(h.isError, m.isError, failed)
         && m.usage == (if h.usage.Some? then h.usage else usage)
       else
         && m.content == (if content.Some? then content.value else [])
         && m.details == details && m.usage == usage && m.isError == failed
  }

  lemma ResultSays(call: ToolCall, plan: Plan, aborted: bool)
    ensures Says(call, plan, aborted, ResultMessage(Outcome(call, plan, aborted)))
  {
    PreparedExactly(call, plan, aborted);
    if Executes(plan, aborted) {
      ExecutedSays(call, plan, aborted);
    } else if plan.before.Some? {
      match plan.before.value
      case Allow =>
      case Block(_) =>
      case BeforeThrows(_) =>
    }
  }

  lemma ExecutedSays(call: ToolCall, plan: Plan, aborted: bool)
    requires Executes(plan, aborted) && Prepare(call, plan, aborted).Prepared?
    ensures Says(call, plan, aborted, ResultMessage(Outcome(call, plan, aborted)))
  {
    if plan.after.Some? {
      match plan.after.value
      case Keep =>
      case AfterThrows(_) =>
      case Override(_, _, _, _, _) =>
    }
  }

  /** What the result message of a call of a truncated message says. */
  predicate SaysTruncated(call: ToolCall, m: Message) {
    && m.ToolResult? && m.toolCallId == call.id && m.toolName == call.name
    && SaysOnly(m, "Tool call \"" + call.name + "\" was not executed: " + TRUNCATED_NOTICE)
  }

  /**
   * A batch ends the run exactly when it has calls, all of them executed and every one asks for it; a call that was
   * refused, blocked or failed in its after hook keeps the run going. By ConcurrentEqualsSequential the concurrent
   * batch decides the same.
   */
  lemma BatchTerminatesExactly(calls: seq<ToolCall>, plans: Plans)
    requires NoAbort(calls, plans)
    ensures ShouldTerminate(Sequential(calls, plans, false).outcomes.value) <==>
            calls != [] && forall i: nat :: i < |calls| ==> Executes(plans(i), false) && AsksToTerminate(plans(i))
  {
    NoAbortCounts(calls, plans);
    OutcomesAre(calls, plans, false, |calls|);
    var fs := OutcomesUpTo(calls, plans, false, |calls|);
    forall i: nat | i < |calls|
      ensures fs[i].output.terminate == Some(true) <==> Executes(plans(i), false) && AsksToTerminate(plans(i))
    {
      TerminatesExactly(calls[i], plans(i), false);
    }
  }
}
