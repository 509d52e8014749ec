/**
 * executePreparedToolCall of packages/agent/src/agent-loop.ts: coalescing of tool updates.
 * The machine keeps the microtask queue and the promise chain explicitly, because the guarantee that the last update
 * goes out, alone, before the outcome is returned rests on their first-in first-out order.
 */
module UpdateFlush {
  import opened Common

  /** Hook is the queueMicrotask callback; Flush(k) is the chained flushUpdate that settles promise k;
      Resume is the continuation of `await updateFlush` once the tool has returned or thrown. */
  datatype Job = Hook | Flush(promise: nat) | Resume

  datatype Phase = Executing | Awaiting | FinalEmit | Returned

  datatype State<U> = State(
    latest: Option<U>,                 // latestUpdate
    flushScheduled: bool,
    acceptingUpdates: bool,
    tail: nat,                         // the promise held by updateFlush; promise 0 is resolved
    reactions: map<nat, seq<Job>>,     // unresolved promises of the chain and what waits on each
    queue: seq<Job>,                   // microtask queue
    inFlight: set<nat>,                // chained emissions the sink has not finished
    ready: set<nat>,                   // flushes that have finished and whose promise may resolve
    phase: Phase,
    accepted: seq<U>,                  // history: updates accepted from the tool
    emitted: seq<U>,                   // history: updates handed to the sink
    origin: seq<nat>)                  // history: position in `accepted` of each emitted update

  datatype Event<U> =
    | Update(value: U)    // the tool reports progress
    | RunJob              // the head of the microtask queue runs
    | EmitDone(k: nat)    // the sink finishes the emission of flush k
    | Resolve(k: nat)     // the promise of the finished flush k resolves
    | ToolDone            // the tool has returned or thrown and the executor continues
    | FinalEmitDone       // the sink finishes the last emission

  function Start<U>(): State<U> {
    State(None, false, true, 0, map[], [], {}, {}, Executing, [], [], [])
  }

  /** `promise.then(job)` or `await promise`: react now if it is resolved, else wait in order. */
  function React<U>(s: State<U>, promise: nat, job: Job): State<U> {
    if promise in s.reactions then s.(reactions := s.reactions[promise := s.reactions[promise] + [job]])
    else s.(queue := s.queue + [job])
  }

  /** flushUpdate up to its await: takes the latest update, if any, and hands it to the sink. */
  function Take<U>(s: State<U>): (r: State<U>)
  {
    if s.latest.None? then s.(flushScheduled := false)
    else s.(flushScheduled := false, latest := None, emitted := s.emitted + [s.latest.value],
            origin := s.origin + [if s.accepted == [] then 0 else |s.accepted| - 1])
  }

  function Run<U>(s: State<U>, job: Job): State<U> {
    match job
    case Hook =>
      var k := s.tail + 1;
      var t := React(s, s.tail, Flush(k));
      t.(reactions := t.reactions[k := []], tail := k)
    case Flush(k) =>
      var t := Take(s);
      if s.latest.None? then t.(ready := t.ready + {k}) else t.(inFlight := t.inFlight + {k})
    case Resume =>
      Take(s).(phase := if s.latest.None? then Returned else FinalEmit)
  }

  function Step<U>(s: State<U>, e: Event<U>): State<U> {
    match e
    case Update(value) =>
      if !s.acceptingUpdates then s
      else
        var t := s.(latest := Some(value), accepted := s.accepted + [value]);
        if s.flushScheduled then t else t.(flushScheduled := true, queue := s.queue + [Hook])
    case RunJob =>
      if s.queue == [] then s else Run(s.(queue := s.queue[1..]), s.queue[0])
    case EmitDone(k) =>
      if k in s.inFlight then s.(inFlight := s.inFlight - {k}, ready := s.ready + {k}) else s
    case Resolve(k) =>
      if k in s.ready && k in s.reactions then
        s.(ready := s.ready - {k}, reactions := s.reactions - {k}, queue := s.queue + s.reactions[k])
      else s
    case ToolDone =>
      if s.phase != Executing then s
      else React(s.(acceptingUpdates := false, phase := Awaiting), s.tail, Resume)
    case FinalEmitDone =>
      if s.phase == FinalEmit then s.(phase := Returned) else s
  }

  function RunAll<U>(s: State<U>, es: seq<Event<U>>): State<U>
    decreases |es|
  {
    if es == [] then s else RunAll(Step(s, es[0]), es[1..])
  }

  // ---------------------------------------------------------------- invariant

  /**
   * Where the coalescer stands. A flush is requested (Hooked), chained and waiting to run (Queued), under way
   * (Running), or chained behind one under way (Stacked). With W, the executor also awaits: Resume either waits for
   * the last chained flush, or (Ahead) precedes it in every queue.
   */
  datatype Spot = Quiet | Running | Hooked | Queued | RunningHooked | Stacked
                | WQuiet | WRunning | WHooked | WAhead | WQueued | WRunningHooked | WStackedAhead | WStacked

  predicate IsStacked(p: Spot) { p in {Stacked, WStackedAhead, WStacked} }

  function QueueAt(p: Spot, t: nat): seq<Job> {
    match p
    case Hooked => [Hook]
    case RunningHooked => [Hook]
    case WRunningHooked => [Hook]
    case Queued => [Flush(t)]
    case WQueued => [Flush(t)]
    case WQuiet => [Resume]
    case WHooked => [Hook, Resume]
    case WAhead => [Resume, Flush(t)]
    case _ => []
  }

  function ReactionsAt(p: Spot, t: nat): map<nat, seq<Job>>
    requires IsStacked(p) ==> t > 0
  {
    match p
    case Quiet => map[]
    case Hooked => map[]
    case WQuiet => map[]
    case WHooked => map[]
    case Running => map[t := []]
    case Queued => map[t := []]
    case RunningHooked => map[t := []]
    case WAhead => map[t := []]
    case WRunning => map[t := [Resume]]
    case WQueued => map[t := [Resume]]
    case WRunningHooked => map[t := [Resume]]
    case Stacked => map[t - 1 := [Flush(t)], t := []]
    case WStackedAhead => map[t - 1 := [Resume, Flush(t)], t := []]
    case WStacked => map[t - 1 := [Flush(t)], t := [Resume]]
  }

  function StartedAt(p: Spot, t: nat): set<int> {
    if IsStacked(p) then {t - 1}
    else if p in {Running, RunningHooked, WRunning, WRunningHooked} then {t}
    else {}
  }

  ghost predicate At<U>(s: State<U>, p: Spot) {
    && (IsStacked(p) ==> s.tail > 0)
    && s.queue == QueueAt(p, s.tail)
    && s.reactions == ReactionsAt(p, s.tail)
    && s.inFlight + s.ready == StartedAt(p, s.tail)
    && s.inFlight !! s.ready
  }

  ghost predicate Legal<U>(s: State<U>, p: Spot) {
    match s.phase
    case Executing =>
      && s.acceptingUpdates && (s.latest.Some? <==> s.flushScheduled)
      && p in (if s.latest.None? then {Quiet, Running} else {Hooked, Queued, RunningHooked, Stacked})
    case Awaiting =>
      && !s.acceptingUpdates
      && p in (if s.latest.None? then {WQuiet, WRunning}
               else {WHooked, WAhead, WQueued, WRunningHooked, WStackedAhead, WStacked})
    case _ =>
      !s.acceptingUpdates && s.latest.None? && s.inFlight == {} && p in {Quiet, Queued, Running}
  }

  lemma UpdateStep<U>(s: State<U>, p: Spot, value: U) returns (q: Spot)
    requires At(s, p) && Legal(s, p)
    ensures At(Step(s, Update(value)), q) && Legal(Step(s, Update(value)), q)
  {
    q := match p case Quiet => (if s.acceptingUpdates then Hooked else Quiet)
                 case Running => (if s.acceptingUpdates then RunningHooked else Running)
                 case _ => p;
  }

  lemma HookStep<U>(s: State<U>, p: Spot) returns (q: Spot)
    requires At(s, p) && Legal(s, p) && s.queue != [] && s.queue[0] == Hook
    ensures At(Step(s, RunJob), q) && Legal(Step(s, RunJob), q)
    ensures (p == WHooked ==> q == WAhead) && (p == WRunningHooked ==> q == WStackedAhead)
  {
    var r := Step(s, RunJob);
    match p {
      case Hooked =>
        assert r.reactions == map[r.tail := []];
        q := Queued;
      case RunningHooked =>
        assert s.reactions[s.tail] + [Flush(r.tail)] == [Flush(r.tail)];
        assert r.reactions == map[r.tail - 1 := [Flush(r.tail)], r.tail := []];
        q := Stacked;
      case WHooked =>
        assert r.reactions == map[r.tail := []];
        q := WAhead;
      case WRunningHooked =>
        assert s.reactions[s.tail] + [Flush(r.tail)] == [Resume, Flush(r.tail)];
        assert r.reactions == map[r.tail - 1 := [Resume, Flush(r.tail)], r.tail := []];
        q := WStackedAhead;
    }
  }

  lemma FlushStep<U>(s: State<U>, p: Spot) returns (q: Spot)
    requires At(s, p) && Legal(s, p) && s.queue != [] && s.queue[0].Flush?
    ensures At(Step(s, RunJob), q) && Legal(Step(s, RunJob), q)
    ensures p == WQueued ==> q == WRunning
  {
    q := if p == Queued then Running else WRunning;
  }

  lemma ResumeStep<U>(s: State<U>, p: Spot) returns (q: Spot)
    requires At(s, p) && Legal(s, p) && s.queue != [] && s.queue[0] == Resume
    ensures At(Step(s, RunJob), q) && Legal(Step(s, RunJob), q)
  {
    q := if p == WQuiet then Quiet else Queued;
  }

  lemma ResolveStep<U>(s: State<U>, p: Spot, k: nat) returns (q: Spot)
    requires At(s, p) && Legal(s, p) && k in s.ready && k in s.reactions
    ensures At(Step(s, Resolve(k)), q) && Legal(Step(s, Resolve(k)), q)
    ensures (p == WRunning ==> q == WQuiet) && (p == WStackedAhead ==> q == WAhead) && (p == WStacked ==> q == WQueued)
  {
    assert s.ready == {k} && s.inFlight == {};
    if IsStacked(p) {
      q := match p case Stacked => Queued case WStackedAhead => WAhead case _ => WQueued;
      UnstackReactions(p, q, s.tail);
      assert s.queue + s.reactions[k] == s.reactions[k];
    } else {
      q := match p case Running => Quiet case RunningHooked => Hooked case WRunning => WQuiet case _ => WHooked;
      assert s.reactions - {k} == map[];
      assert s.queue + s.reactions[k] == QueueAt(q, s.tail);
    }
  }

  lemma UnstackReactions(p: Spot, q: Spot, t: nat)
    requires t > 0 && (p, q) in {(Stacked, Queued), (WStackedAhead, WAhead), (WStacked, WQueued)}
    ensures ReactionsAt(p, t) - {t - 1} == ReactionsAt(q, t) && ReactionsAt(p, t)[t - 1] == QueueAt(q, t)
  {
  }

  lemma ToolDoneStep<U>(s: State<U>, p: Spot) returns (q: Spot)
    requires At(s, p) && Legal(s, p) && s.phase == Executing
    ensures At(Step(s, ToolDone), q) && Legal(Step(s, ToolDone), q)
  {
    var r := Step(s, ToolDone);
    match p {
      case Quiet => q := WQuiet;
      case Running => q := WRunning;
      case Hooked => q := WHooked;
      case Queued => q := WQueued;
      case RunningHooked => q := WRunningHooked;
      case Stacked => q := WStacked;
    }
    if s.tail in s.reactions { assert s.reactions[s.tail] + [Resume] == [Resume]; }
    assert r.queue == QueueAt(q, s.tail);
    assert r.reactions == ReactionsAt(q, s.tail);
  }

  lemma SpotStep<U>(s: State<U>, p: Spot, e: Event<U>) returns (q: Spot)
    requires At(s, p) && Legal(s, p)
    ensures At(Step(s, e), q) && Legal(Step(s, e), q)
  {
    q := p;
    match e {
      case Update(value) => q := UpdateStep(s, p, value);
      case RunJob =>
        if s.queue != [] {
          match s.queue[0] {
            case Hook => q := HookStep(s, p);
            case Flush(_) => q := FlushStep(s, p);
            case Resume => q := ResumeStep(s, p);
          }
        }
      case EmitDone(k) =>
      case Resolve(k) => if k in s.ready && k in s.reactions { q := ResolveStep(s, p, k); }
      case ToolDone => if s.phase == Executing { q := ToolDoneStep(s, p); }
      case FinalEmitDone =>
    }
  }

  /** Emitted updates are accepted ones in order, and only the newest can be missing, held in `latest`. */
  ghost predicate Faithful<U>(s: State<U>) {
    History(s.accepted, s.emitted, s.origin, s.latest)
  }

  ghost predicate History<U>(accepted: seq<U>, emitted: seq<U>, origin: seq<nat>, latest: Option<U>) {
    var n := |accepted|;
    && |emitted| == |origin|
    && (forall i :: 0 <= i < |origin| ==> origin[i] < n && emitted[i] == accepted[origin[i]])
    && (forall i, j :: 0 <= i < j < |origin| ==> origin[i] < origin[j])
    && (latest.Some? ==> n > 0 && latest.value == accepted[n - 1])
    && (latest.Some? ==> forall i :: 0 <= i < |origin| ==> origin[i] < n - 1)
    && (latest.None? && n > 0 ==> origin != [] && origin[|origin| - 1] == n - 1)
  }

  lemma FaithfulStep<U>(s: State<U>, e: Event<U>)
    requires Faithful(s)
    ensures Faithful(Step(s, e))
  {
    match e {
      case Update(value) =>
        if s.acceptingUpdates { HistoryAccept(s.accepted, s.emitted, s.origin, s.latest, value); }
      case RunJob =>
        if s.queue != [] { FaithfulRun(s.(queue := s.queue[1..]), s.queue[0]); }
      case _ =>
    }
  }

  lemma FaithfulRun<U>(s: State<U>, job: Job)
    requires Faithful(s)
    ensures Faithful(Run(s, job))
  {
    if job != Hook && s.latest.Some? { HistoryTake(s.accepted, s.emitted, s.origin, s.latest); }
  }

  lemma HistoryAccept<U>(accepted: seq<U>, emitted: seq<U>, origin: seq<nat>, latest: Option<U>, value: U)
    requires History(accepted, emitted, origin, latest)
    ensures History(accepted + [value], emitted, origin, Some(value))
  {
  }

  lemma HistoryTake<U>(accepted: seq<U>, emitted: seq<U>, origin: seq<nat>, latest: Option<U>)
    requires History(accepted, emitted, origin, latest) && latest.Some?
    ensures History(accepted, emitted + [latest.value], origin + [|accepted| - 1], None)
  {
  }

  lemma {:induction false} Reachable<U>(s: State<U>, p: Spot, es: seq<Event<U>>) returns (q: Spot)
    requires At(s, p) && Legal(s, p) && Faithful(s)
    ensures var r := RunAll(s, es); At(r, q) && Legal(r, q) && Faithful(r)
    decreases |es|
  {
    q := p;
    if es != [] {
      q := SpotStep(s, p, es[0]);
      FaithfulStep(s, es[0]);
      q := Reachable(Step(s, es[0]), q, es[1..]);
    }
  }

  /**
   * In every run: emitted updates are an order-preserving subsequence of the accepted ones, at most one emission is
   * under way at a time, and once the outcome is returned the last accepted update has been emitted and its
   * emission has finished.
   */
  lemma UpdatesCoalesceSafely<U>(es: seq<Event<U>>)
    ensures var s := RunAll(Start(), es);
            && |s.origin| == |s.emitted|
            && (forall i :: 0 <= i < |s.emitted| ==>
                  s.origin[i] < |s.accepted| && s.emitted[i] == s.accepted[s.origin[i]])
            && (forall i, j :: 0 <= i < j < |s.origin| ==> s.origin[i] < s.origin[j])
            && |s.inFlight| + (if s.phase == FinalEmit then 1 else 0) <= 1
            && (s.phase == Returned ==> s.inFlight == {} && s.latest.None?)
            && (s.phase == Returned && s.accepted != [] ==>
                  && s.emitted != [] && s.origin[|s.origin| - 1] == |s.accepted| - 1
                  && s.emitted[|s.emitted| - 1] == s.accepted[|s.accepted| - 1])
  {
    var p := Reachable(Start<U>(), Quiet, es);
    var s := RunAll(Start<U>(), es);
    AtMostOne(s.inFlight, s.ready, StartedAt(p, s.tail));
  }

  lemma AtMostOne(inFlight: set<nat>, ready: set<nat>, started: set<int>)
    requires inFlight + ready == started && |started| <= 1
    ensures |inFlight| <= 1
  {
    if inFlight != {} {
      var k :| k in inFlight;
      assert started == {k} by {
        assert |started - {k}| == |started| - 1;
        assert started - {k} == {};
      }
      assert inFlight == {k};
    }
  }

  lemma {:induction false} ReturnedStays<U>(s: State<U>, p: Spot, es: seq<Event<U>>)
    requires At(s, p) && Legal(s, p) && s.phase == Returned
    ensures var r := RunAll(s, es); r.phase == Returned && r.emitted == s.emitted && r.accepted == s.accepted
    decreases |es|
  {
    if es != [] {
      var q := SpotStep(s, p, es[0]);
      ReturnedStays(Step(s, es[0]), q, es[1..]);
    }
  }

  /** After the outcome is returned nothing more is accepted or emitted, whatever happens. */
  lemma ReturnedIsFinal<U>(es: seq<Event<U>>, more: seq<Event<U>>)
    requires RunAll(Start(), es).phase == Returned
    ensures var s, r := RunAll(Start(), es), RunAll(RunAll(Start(), es), more);
            r.phase == Returned && r.emitted == s.emitted && r.accepted == s.accepted
  {
    var p := Reachable(Start<U>(), Quiet, es);
    ReturnedStays(RunAll(Start<U>(), es), p, more);
  }

  /** The updates a tool reports until it returns or throws. */
  function Reported<U>(es: seq<Event<U>>): seq<U> {
    if es == [] || es[0].ToolDone? then []
    else (if es[0].Update? then [es[0].value] else []) + Reported(es[1..])
  }

  lemma {:induction false} LateUpdatesIgnored<U>(s: State<U>, es: seq<Event<U>>)
    requires !s.acceptingUpdates && s.phase != Executing
    ensures RunAll(s, es).accepted == s.accepted
    decreases |es|
  {
    if es != [] { LateUpdatesIgnored(Step(s, es[0]), es[1..]); }
  }

  lemma {:induction false} AcceptedFrom<U>(s: State<U>, p: Spot, es: seq<Event<U>>)
    requires At(s, p) && Legal(s, p) && s.phase == Executing
    ensures RunAll(s, es).accepted == s.accepted + Reported(es)
    decreases |es|
  {
    if es == [] {
      assert s.accepted + [] == s.accepted;
    } else if es[0].ToolDone? {
      LateUpdatesIgnored(Step(s, es[0]), es[1..]);
      assert s.accepted + [] == s.accepted;
    } else {
      var q := SpotStep(s, p, es[0]);
      ExecutingStays(s, p, es[0]);
      AcceptedFrom(Step(s, es[0]), q, es[1..]);
      ReportedAfter(s.accepted, if es[0].Update? then [es[0].value] else [], Reported(es[1..]));
    }
  }

  lemma ReportedAfter<U>(before: seq<U>, now: seq<U>, later: seq<U>)
    ensures before + now + later == before + (now + later)
  {
  }

  lemma ExecutingStays<U>(s: State<U>, p: Spot, e: Event<U>)
    requires At(s, p) && Legal(s, p) && s.phase == Executing && !e.ToolDone?
    ensures Step(s, e).phase == Executing
    ensures Step(s, e).accepted == s.accepted + if e.Update? then [e.value] else []
  {
    assert s.accepted + [] == s.accepted;
  }

  /** Exactly the updates reported before the tool returned or threw are accepted, each of them and in order. */
  lemma AcceptedAreReported<U>(es: seq<Event<U>>)
    ensures RunAll(Start(), es).accepted == Reported(es)
  {
    AcceptedFrom(Start<U>(), Quiet, es);
    assert [] + Reported(es) == Reported(es);
  }

  /** How far an awaiting executor is from its return. */
  function Distance(p: Spot, emitting: bool): nat {
    if p == WQuiet || p == WAhead then 0
    else if p == WHooked then 1
    else if p == WRunning || p == WStackedAhead then (if emitting then 2 else 1)
    else if p == WQueued || p == WRunningHooked then 3
    else if emitting then 5 else 4
  }

  /** A flush under way: its emission ends, then its promise resolves. */
  lemma FlushGoesOn<U>(s: State<U>, p: Spot) returns (e: Event<U>, q: Spot)
    requires At(s, p) && Legal(s, p) && s.phase == Awaiting && p in {WRunning, WStackedAhead, WStacked}
    ensures At(Step(s, e), q) && Legal(Step(s, e), q) && Step(s, e).phase == Awaiting
    ensures Distance(q, Step(s, e).inFlight != {}) < Distance(p, s.inFlight != {})
  {
    if s.inFlight != {} {
      e := EmissionEnds(s, p);
      q := p;
    } else {
      assert s.ready == StartedAt(p, s.tail) && s.ready != {};
      var k :| k in s.ready;
      e := Resolve(k);
      q := ResolveStep(s, p, k);
    }
  }

  lemma EmissionEnds<U>(s: State<U>, p: Spot) returns (e: Event<U>)
    requires At(s, p) && Legal(s, p) && s.phase == Awaiting && s.inFlight != {}
    ensures At(Step(s, e), p) && Legal(Step(s, e), p)
    ensures Step(s, e).phase == Awaiting && Step(s, e).inFlight == {}
  {
    var k :| k in s.inFlight;
    SingleIs(s.inFlight, s.ready, StartedAt(p, s.tail), k);
    e := EmitDone(k);
  }

  lemma SingleIs(inFlight: set<nat>, ready: set<nat>, started: set<int>, k: nat)
    requires inFlight + ready == started && |started| <= 1 && k in inFlight
    ensures inFlight - {k} == {}
  {
    AtMostOne(inFlight, ready, started);
    assert |inFlight - {k}| == |inFlight| - 1;
  }

  lemma AwaitGoesOn<U>(s: State<U>, p: Spot) returns (e: Event<U>, q: Spot)
    requires At(s, p) && Legal(s, p) && s.phase == Awaiting && p != WQuiet && p != WAhead
    ensures At(Step(s, e), q) && Legal(Step(s, e), q) && Step(s, e).phase == Awaiting
    ensures Distance(q, Step(s, e).inFlight != {}) < Distance(p, s.inFlight != {})
  {
    if p == WHooked || p == WRunningHooked {
      e := RunJob;
      q := HookStep(s, p);
    } else if p == WQueued {
      e := RunJob;
      q := FlushStep(s, p);
    } else {
      e, q := FlushGoesOn(s, p);
    }
  }

  lemma {:induction false} AwaitEnds<U>(s: State<U>, p: Spot) returns (more: seq<Event<U>>)
    requires At(s, p) && Legal(s, p) && s.phase == Awaiting
    ensures RunAll(s, more).phase == Returned
    decreases Distance(p, s.inFlight != {})
  {
    if p == WQuiet {
      more := [RunJob];
      assert RunAll(s, more) == RunAll(Step(s, RunJob), []);
    } else if p == WAhead {
      more := [RunJob, FinalEmitDone];
      assert more[1..] == [FinalEmitDone];
      assert RunAll(Step(s, RunJob), more[1..]) == RunAll(Step(Step(s, RunJob), FinalEmitDone), []);
    } else {
      var e, q := AwaitGoesOn(s, p);
      var rest := AwaitEnds(Step(s, e), q);
      more := [e] + rest;
      assert more[1..] == rest;
    }
  }

  /** An executor that awaits the flush of the updates returns at last: from every such state some run leads there. */
  lemma AwaitingReturns<U>(es: seq<Event<U>>) returns (more: seq<Event<U>>)
    requires RunAll(Start(), es).phase == Awaiting
    ensures RunAll(RunAll(Start(), es), more).phase == Returned
  {
    var p := Reachable(Start<U>(), Quiet, es);
    more := AwaitEnds(RunAll(Start<U>(), es), p);
  }

  /** While the executor awaits, something can always still happen: the wait is never on nothing. */
  lemma AwaitingIsNeverStuck<U>(es: seq<Event<U>>)
    ensures var s := RunAll(Start(), es);
            s.phase == Awaiting ==> s.queue != [] || s.inFlight != {} || (s.ready != {} && s.ready <= s.reactions.Keys)
  {
    var p := Reachable(Start<U>(), Quiet, es);
    var s := RunAll(Start<U>(), es);
    if s.phase == Awaiting && s.queue == [] && s.inFlight == {} {
      assert s.ready == StartedAt(p, s.tail);
    }
  }
}
