/**
 * The tool updates in the trace of a batch of packages/agent/src/agent-loop.ts: those of each executed call, all of
 * them and in order, whatever the schedule. That they come between the call's start and end is part of the trace
 * grammar.
 */
module ToolUpdates {
  import opened Common
  import opened AgentEvents
  import opened ToolBatch

  /** The updates emitted under an id, in order. */
  function UpdatesOf(es: seq<Event>, id: string): seq<string> {
    if es == [] then []
    else
      var last := es[|es| - 1];
      UpdatesOf(es[..|es| - 1], id) + if last.ToolExecutionUpdate? && last.id == id then [last.partial] else []
  }

  lemma {:induction false} UpdatesOfAppend(a: seq<Event>, b: seq<Event>, id: string)
    ensures UpdatesOf(a + b, id) == UpdatesOf(a, id) + UpdatesOf(b, id)
  {
    if b == [] {
      assert a + b == a;
    } else {
      var n := |b| - 1;
      assert (a + b)[..|a| + n] == a + b[..n];
      UpdatesOfAppend(a, b[..n], id);
    }
  }

  lemma {:induction false} NoUpdates(es: seq<Event>, id: string)
    requires forall i :: 0 <= i < |es| ==> !(es[i].ToolExecutionUpdate? && es[i].id == id)
    ensures UpdatesOf(es, id) == []
  {
    if es != [] { NoUpdates(es[..|es| - 1], id); }
  }

  lemma {:induction false} UpdateEventsOf(id: string, updates: seq<string>, other: string)
    ensures UpdatesOf(UpdateEvents(id, updates), other) == if id == other then updates else []
  {
    if updates != [] {
      var n := |updates| - 1;
      UpdateEventsOf(id, updates[..n], other);
      var last := [ToolExecutionUpdate(id, updates[n])];
      UpdatesOfAppend(UpdateEvents(id, updates[..n]), last, other);
      assert last[..0] == [];
      assert updates[..n] + [updates[n]] == updates;
    }
  }

  /** One call's events carry exactly its updates. */
  lemma CallUpdates(f: Finalized, updates: seq<string>, id: string)
    ensures UpdatesOf(CallEvents(f, updates), id) == if f.call.id == id then updates else []
  {
    var a, u := [ToolExecutionStart(f.call.id)], UpdateEvents(f.call.id, updates);
    var e, r := [ToolExecutionEnd(f.call.id, f.isError)], Bracket(ResultMessage(f));
    NoUpdates(a, id);
    NoUpdates(e, id);
    NoUpdates(r, id);
    UpdateEventsOf(f.call.id, updates, id);
    UpdatesOfAppend(a, u, id);
    UpdatesOfAppend(a + u, e, id);
    UpdatesOfAppend(a + u + e, r, id);
  }

  /** The id of call i is its own. */
  ghost predicate UniqueId(calls: seq<ToolCall>, i: nat)
    requires i < |calls|
  {
    forall j: nat :: j < |calls| && j != i ==> calls[j].id != calls[i].id
  }

  /** What call i, one of the first n, reports in a batch. */
  function UpdatesAt(calls: seq<ToolCall>, plans: Plans, aborted: bool, n: nat, i: nat): seq<string>
    requires i < |calls|
  {
    if i < n && PreparedAt(calls, plans, aborted, i) then plans(i).updates else []
  }

  /** What calls run one after another report under an id. */
  function ReportedBy(ran: seq<Ran>, id: string): seq<string> {
    if ran == [] then []
    else
      var last := ran[|ran| - 1];
      ReportedBy(ran[..|ran| - 1], id) + if last.outcome.call.id == id then last.updates else []
  }

  lemma {:induction false} CallsUpdates(ran: seq<Ran>, id: string)
    ensures UpdatesOf(CallsEvents(ran), id) == ReportedBy(ran, id)
  {
    if ran != [] {
      var before, last := ran[..|ran| - 1], ran[|ran| - 1];
      CallsUpdates(before, id);
      UpdatesOfAppend(CallsEvents(before), CallEvents(last.outcome, last.updates), id);
      CallUpdates(last.outcome, last.updates, id);
    }
  }

  /** Only the i-th of the calls has the id. */
  ghost predicate OnlyAt(ran: seq<Ran>, i: nat, id: string) {
    forall j: nat :: j < |ran| ==> (ran[j].outcome.call.id == id <==> j == i)
  }

  lemma OnlyAtPrefix(ran: seq<Ran>, i: nat, id: string)
    requires ran != [] && OnlyAt(ran, i, id)
    ensures OnlyAt(ran[..|ran| - 1], i, id) && (ran[|ran| - 1].outcome.call.id == id <==> |ran| - 1 == i)
  {
    var before := ran[..|ran| - 1];
    forall j: nat | j < |before| ensures before[j].outcome.call.id == id <==> j == i {
      assert before[j] == ran[j];
    }
  }

  lemma {:induction false} OnlyOneReports(ran: seq<Ran>, i: nat, id: string)
    requires OnlyAt(ran, i, id)
    ensures ReportedBy(ran, id) == if i < |ran| then ran[i].updates else []
  {
    if ran != [] {
      OnlyAtPrefix(ran, i, id);
      OnlyOneReports(ran[..|ran| - 1], i, id);
      NothingBefore(if i < |ran| then ran[i].updates else []);
    }
  }

  lemma {:induction false} RanIs(calls: seq<ToolCall>, plans: Plans, aborted: bool, n: nat, k: nat)
    requires k < n <= |calls|
    ensures var r := RanUpTo(calls, plans, aborted, n)[k];
            r.outcome.call == calls[k] && r.updates == UpdatesAt(calls, plans, aborted, n, k)
  {
    if k < n - 1 { RanIs(calls, plans, aborted, n - 1, k); }
  }

  lemma UniqueReports(calls: seq<ToolCall>, plans: Plans, aborted: bool, n: nat, i: nat)
    requires i < |calls| && n <= |calls| && UniqueId(calls, i)
    ensures ReportedBy(RanUpTo(calls, plans, aborted, n), calls[i].id) == UpdatesAt(calls, plans, aborted, n, i)
  {
    var ran := RanUpTo(calls, plans, aborted, n);
    forall j: nat | j < |ran| ensures ran[j].outcome.call.id == calls[i].id <==> j == i {
      RanIs(calls, plans, aborted, n, j);
    }
    OnlyOneReports(ran, i, calls[i].id);
    if i < n { RanIs(calls, plans, aborted, n, i); }
  }

  lemma NothingBefore(updates: seq<string>)
    ensures [] + updates == updates && updates + [] == updates
  {
  }

  /** In a sequential batch the updates emitted for a call are those of its execution, all and in order, or none. */
  lemma SequentialUpdates(calls: seq<ToolCall>, plans: Plans, aborted: bool, i: nat)
    requires i < |calls| && UniqueId(calls, i)
    ensures UpdatesOf(Sequential(calls, plans, aborted).events, calls[i].id) ==
            UpdatesAt(calls, plans, aborted, SequentialCount(plans, aborted, |calls|, 0), i)
  {
    var n := SequentialCount(plans, aborted, |calls|, 0);
    CallsUpdates(RanUpTo(calls, plans, aborted, n), calls[i].id);
    UniqueReports(calls, plans, aborted, n, i);
  }

  /** What an entry has still to report. */
  function StillToReport(slots: seq<Slot>, i: nat): seq<string> {
    if i < |slots| && slots[i].Running? then slots[i].updates else []
  }

  /** A step of one entry: what it emits is what it then need not report. */
  lemma EntryReports(call: ToolCall, plan: Plan, slot: Slot, id: string)
    ensures var (next, es) := Advance(call, plan, slot);
            && (call.id != id ==> UpdatesOf(es, id) == [])
            && (call.id == id ==> UpdatesOf(es, id) + StillToReport([next], 0) == StillToReport([slot], 0))
  {
    var (next, es) := Advance(call, plan, slot);
    if slot.Running? && slot.updates != [] {
      assert es[..0] == [] && UpdatesOf(es[..0], id) == [];
      assert [slot.updates[0]] + slot.updates[1..] == slot.updates;
    } else {
      NoUpdates(es, id);
    }
  }

  lemma Regroup(a: seq<string>, b: seq<string>, c: seq<string>, d: seq<string>)
    requires b + c == d
    ensures a + b + c == a + d
  {
  }

  lemma StepReports(calls: seq<ToolCall>, plans: Plans, b: Batch, k: nat, i: nat)
    requires i < |calls| && |b.slots| <= |calls| && UniqueId(calls, i)
    ensures var c := StepBatch(calls, plans, b, k);
            UpdatesOf(c.events, calls[i].id) + StillToReport(c.slots, i) ==
            UpdatesOf(b.events, calls[i].id) + StillToReport(b.slots, i)
  {
    if k < |b.slots| {
      var (next, es) := Advance(calls[k], plans(k), b.slots[k]);
      var c := Batch(b.slots[k := next], b.events + es);
      UpdatesOfAppend(b.events, es, calls[i].id);
      EntryReports(calls[k], plans(k), b.slots[k], calls[i].id);
      assert UpdatesOf(es, calls[i].id) + StillToReport(c.slots, i) == StillToReport(b.slots, i) by {
        NothingBefore(StillToReport(b.slots, i));
        assert k == i ==> StillToReport(c.slots, i) == StillToReport([next], 0);
      }
      Regroup(UpdatesOf(b.events, calls[i].id), UpdatesOf(es, calls[i].id), StillToReport(c.slots, i),
              StillToReport(b.slots, i));
    }
  }

  lemma {:induction false} ScheduleReports(calls: seq<ToolCall>, plans: Plans, b: Batch, schedule: seq<nat>, i: nat)
    requires i < |calls| && |b.slots| <= |calls| && UniqueId(calls, i)
    ensures var c := RunSchedule(calls, plans, b, schedule);
            UpdatesOf(c.events, calls[i].id) + StillToReport(c.slots, i) ==
            UpdatesOf(b.events, calls[i].id) + StillToReport(b.slots, i)
    decreases |schedule|
  {
    if schedule != [] {
      StepReports(calls, plans, b, schedule[0], i);
      ScheduleReports(calls, plans, StepBatch(calls, plans, b, schedule[0]), schedule[1..], i);
    }
  }

  lemma {:induction false} StartsReportNothing(calls: seq<ToolCall>, k: nat, id: string)
    requires k <= |calls|
    ensures UpdatesOf(StartEvents(calls, k), id) == []
  {
    if k > 0 {
      StartsReportNothing(calls, k - 1, id);
      var last := [ToolExecutionStart(calls[k - 1].id)];
      NoUpdates(last, id);
      UpdatesOfAppend(StartEvents(calls, k - 1), last, id);
    }
  }

  lemma PushReportsNothing(calls: seq<ToolCall>, b: Batch, slot: Slot, id: string)
    requires |b.slots| < |calls|
    ensures UpdatesOf(PushSlot(calls, b, slot).events, id) == UpdatesOf(b.events, id)
  {
    var es := if slot.Finished? then [ToolExecutionEnd(calls[|b.slots|].id, slot.outcome.isError)] else [];
    NoUpdates(es, id);
    UpdatesOfAppend(b.events, es, id);
    NothingBefore(UpdatesOf(b.events, id));
  }

  lemma {:induction false} BatchReportsNothing(calls: seq<ToolCall>, plans: Plans, aborted: bool, k: nat, id: string)
    requires k <= |calls|
    ensures UpdatesOf(BatchOf(calls, plans, aborted, k).events, id) == []
  {
    if k == 0 {
      StartsReportNothing(calls, |calls|, id);
    } else {
      BatchReportsNothing(calls, plans, aborted, k - 1, id);
      PushReportsNothing(calls, BatchOf(calls, plans, aborted, k - 1), SlotOf(calls, plans, aborted, k - 1), id);
    }
  }

  lemma {:induction false} BracketsReportNothing(ms: seq<Message>, id: string)
    ensures UpdatesOf(BracketAll(ms), id) == []
  {
    if ms != [] {
      var n := |ms| - 1;
      BracketsReportNothing(ms[..n], id);
      NoUpdates(Bracket(ms[n]), id);
      UpdatesOfAppend(BracketAll(ms[..n]), Bracket(ms[n]), id);
    }
  }

  /** The same in a concurrent batch, for every schedule that finishes it. */
  lemma ConcurrentUpdates(calls: seq<ToolCall>, plans: Plans, aborted: bool, schedule: seq<nat>, i: nat)
    requires i < |calls| && UniqueId(calls, i) && Concurrent(calls, plans, aborted, schedule).outcomes.Some?
    ensures var n := ConcurrentCount(plans, aborted || AnyPrepareAborted(plans, |calls|), |calls|, 0);
            UpdatesOf(Concurrent(calls, plans, aborted, schedule).events, calls[i].id) ==
            UpdatesAt(calls, plans, aborted, n, i)
  {
    var n := ConcurrentCount(plans, aborted || AnyPrepareAborted(plans, |calls|), |calls|, 0);
    BatchUpdates(calls, plans, aborted, n, schedule, i);
  }

  lemma FreshReports(calls: seq<ToolCall>, plans: Plans, aborted: bool, n: nat, i: nat)
    requires i < |calls| && n <= |calls|
    ensures StillToReport(BatchOf(calls, plans, aborted, n).slots, i) == UpdatesAt(calls, plans, aborted, n, i)
  {
    BatchSlots(calls, plans, aborted, n);
  }

  lemma BatchUpdates(calls: seq<ToolCall>, plans: Plans, aborted: bool, n: nat, schedule: seq<nat>, i: nat)
    requires i < |calls| && n <= |calls| && UniqueId(calls, i)
    requires AllFinished(RunSchedule(calls, plans, BatchOf(calls, plans, aborted, n), schedule).slots)
    ensures var c := RunSchedule(calls, plans, BatchOf(calls, plans, aborted, n), schedule);
            UpdatesOf(c.events + BracketAll(ResultMessages(Outcomes(c.slots))), calls[i].id) ==
            UpdatesAt(calls, plans, aborted, n, i)
  {
    var b := BatchOf(calls, plans, aborted, n);
    var c := RunSchedule(calls, plans, b, schedule);
    BatchReportsNothing(calls, plans, aborted, n, calls[i].id);
    ScheduleReports(calls, plans, b, schedule, i);
    FreshReports(calls, plans, aborted, n, i);
    assert StillToReport(c.slots, i) == [];
    NothingBefore(UpdatesOf(c.events, calls[i].id));
    NothingBefore(UpdatesAt(calls, plans, aborted, n, i));
    BracketsReportNothing(ResultMessages(Outcomes(c.slots)), calls[i].id);
    UpdatesOfAppend(c.events, BracketAll(ResultMessages(Outcomes(c.slots))), calls[i].id);
  }
}
