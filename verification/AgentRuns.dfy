/**
 * What every run of the loop of packages/agent/src/agent-loop.ts guarantees, for every script: what it writes, how its
 * context, transcript and trace agree, what its tools did, what became of queued messages, and when it ends.
 */
module AgentRuns {
  import opened Common
  import opened AgentEvents
  import opened ToolBatch
  import opened AgentLoop
  import opened AgentTurns

  datatype Inputs = Inputs(prompts: seq<Message>, base: seq<Message>, steering: Queue, followUp: Queue,
                           skipInitialPoll: bool, initial: Arrivals, script: seq<TurnScript>)

  function RunOf(i: Inputs): Run {
    AgentRun(i.prompts, i.base, i.steering, i.followUp, i.skipInitialPoll, i.initial, i.script)
  }

  /** Streams follow their contract: at most one start event each. */
  ghost predicate KeepsContract(script: seq<TurnScript>) {
    forall k :: 0 <= k < |script| ==> Starts(script[k].stream) <= 1
  }

  // ---------------------------------------------------------------- what is written

  /** Everything the turns wrote: injected messages, response, results, turn by turn. */
  function Written(turns: seq<TurnRecord>): seq<Message> {
    if turns == [] then [] else Written(turns[..|turns| - 1]) + Wrote(turns[|turns| - 1])
  }

  function AbortedBefore(turns: seq<TurnRecord>, k: nat): bool
    requires k <= |turns|
  {
    k > 0 && turns[k - 1].aborted
  }

  /** Turn k gave the response of script[k], and its tools did what they do for that response. */
  ghost predicate TurnOk(script: seq<TurnScript>, turns: seq<TurnRecord>, k: nat)
    requires k < |turns| <= |script|
  {
    && turns[k].message == script[k].final
    && Explained(script[k], AbortedBefore(turns, k) || script[k].aborted, turns[k])
  }

  ghost predicate WrittenOk(i: Inputs, l: Loop) {
    && |l.turns| <= |i.script| && l.newMessages == i.prompts + Written(l.turns)
    && (forall k :: 0 <= k < |l.turns| ==> TurnOk(i.script, l.turns, k))
    && l.aborted == AbortedBefore(l.turns, |l.turns|)
  }

  lemma WrittenOneMore(turns: seq<TurnRecord>, r: TurnRecord)
    ensures Written(turns + [r]) == Written(turns) + Wrote(r)
  {
    assert (turns + [r])[..|turns|] == turns;
  }

  lemma TurnWritten(i: Inputs, l: Loop, pending: seq<Message>, s: TurnScript, m: Loop, r: TurnRecord)
    requires WrittenOk(i, l) && |l.turns| < |i.script| && s == i.script[|l.turns|]
    requires Turned(l, pending, s, m, r) && Explained(s, l.aborted || s.aborted, r)
    ensures WrittenOk(i, m)
  {
    WrittenOneMore(l.turns, r);
    assert i.prompts + Written(l.turns) + Wrote(r) == i.prompts + (Written(l.turns) + Wrote(r));
    forall k | 0 <= k < |m.turns| ensures TurnOk(i.script, m.turns, k) {
      if k < |l.turns| { assert TurnOk(i.script, l.turns, k); }
    }
  }

  // ---------------------------------------------------------------- context, transcript and trace

  function AnyReplaced(script: seq<TurnScript>, k: nat): bool
    requires k <= |script|
  {
    k > 0 && (AnyReplaced(script, k - 1) || script[k - 1].replacement.Some?)
  }

  /**
   * At the k-th turn_end the prompts and all written so far, the new messages, and the message_end payloads coincide;
   * with the initial messages they are the context, unless prepareNextTurn has replaced it before.
   */
  ghost predicate SnapshotOk(i: Inputs, l: Loop, k: nat)
    requires k < |l.snapshots| == |l.turns| <= |i.script|
  {
    var s := l.snapshots[k];
    && 0 < s.length <= |l.events| && l.events[s.length - 1] == TurnEnd(Assistant(i.script[k].final), l.turns[k].results)
    && s.newMessages == i.prompts + Written(l.turns[..k + 1]) == Ended(l.events[..s.length])
    && s.replaced == AnyReplaced(i.script, k)
    && (!s.replaced ==> s.context == i.base + s.newMessages)
  }

  ghost predicate SnapshotsOk(i: Inputs, l: Loop) {
    && |l.snapshots| == |l.turns| <= |i.script|
    && (forall k :: 0 <= k < |l.snapshots| ==> SnapshotOk(i, l, k))
    && (!l.replaced ==> l.context == i.base + l.newMessages)
  }

  lemma SnapshotStays(i: Inputs, l: Loop, m: Loop, k: nat)
    requires k < |l.snapshots| == |l.turns| <= |m.turns| == |m.snapshots| <= |i.script|
    requires SnapshotOk(i, l, k) && l.turns <= m.turns && l.snapshots <= m.snapshots && l.events <= m.events
    ensures SnapshotOk(i, m, k)
  {
    var s := l.snapshots[k];
    assert m.snapshots[k] == s && m.turns[k] == l.turns[k];
    assert m.events[..s.length] == l.events[..s.length];
    assert m.turns[..k + 1] == l.turns[..k + 1];
  }

  lemma ContextGrows(base: seq<Message>, before: seq<Message>, wrote: seq<Message>)
    ensures base + (before + wrote) == base + before + wrote
  {
  }

  lemma EndedAre(l: Loop)
    requires Ready(l)
    ensures Ended(l.events) == l.newMessages
  {
    ScanCollectsEnded(l.events);
  }

  /** The snapshot a turn adds. */
  lemma NewSnapshot(i: Inputs, l: Loop, pending: seq<Message>, s: TurnScript, m: Loop, r: TurnRecord)
    requires |l.snapshots| == |l.turns| < |i.script| && s == i.script[|l.turns|]
    requires m.newMessages == i.prompts + Written(m.turns) && l.replaced == AnyReplaced(i.script, |l.turns|)
    requires !l.replaced ==> l.context == i.base + l.newMessages
    requires Turned(l, pending, s, m, r) && Starts(s.stream) <= 1 && Ready(m)
    ensures SnapshotOk(i, m, |l.turns|) && (!m.replaced ==> m.context == i.base + m.newMessages)
  {
    ContextGrows(i.base, l.newMessages, Wrote(r));
    EndedAre(m);
    assert m.events[..|m.events|] == m.events && m.turns[..|l.turns| + 1] == m.turns;
  }

  lemma TurnSnapshots(i: Inputs, l: Loop, pending: seq<Message>, s: TurnScript, m: Loop, r: TurnRecord)
    requires WrittenOk(i, m) && SnapshotsOk(i, l) && |l.turns| < |i.script| && s == i.script[|l.turns|]
    requires Turned(l, pending, s, m, r) && Starts(s.stream) <= 1 && l.replaced == AnyReplaced(i.script, |l.turns|)
    requires Ready(m)
    ensures SnapshotsOk(i, m)
  {
    NewSnapshot(i, l, pending, s, m, r);
    forall k | 0 <= k < |m.snapshots| ensures SnapshotOk(i, m, k) {
      if k < |l.turns| { SnapshotStays(i, l, m, k); }
    }
  }

  /** The loop between turns. */
  ghost predicate Agrees(i: Inputs, l: Loop) {
    SnapshotsOk(i, l) && Ready(l) && l.replaced == AnyReplaced(i.script, |l.turns|)
  }

  /** The loop once it has ended. */
  ghost predicate AgreedToTheEnd(i: Inputs, l: Loop) {
    SnapshotsOk(i, l) && l.turns != [] && ScanAll(Fresh, l.events) == Done(l.newMessages)
  }

  lemma OverAgrees(i: Inputs, r: Run, l: Loop)
    requires SnapshotsOk(i, l) && Ready(l) && l.turns != []
    ensures AgreedToTheEnd(i, Over(r, l).l)
  {
    ScanOne(Fresh, l.events, AgentEnd(l.newMessages));
    var m := Over(r, l).l;
    forall k | 0 <= k < |m.snapshots| ensures SnapshotOk(i, m, k) {
      SnapshotStays(i, l, m, k);
    }
  }

  lemma NextContext(i: Inputs, l: Loop, s: TurnScript)
    requires SnapshotsOk(i, l) && Ready(l) && l.turns != [] && s == i.script[|l.turns| - 1]
    requires l.replaced == AnyReplaced(i.script, |l.turns| - 1)
    ensures Agrees(i, PrepareNext(l, s.replacement))
  {
    var m := PrepareNext(l, s.replacement);
    forall k | 0 <= k < |m.snapshots| ensures SnapshotOk(i, m, k) {
      SnapshotStays(i, l, m, k);
    }
  }

  lemma PolledAgrees(i: Inputs, l: Loop, polls: seq<Poll>)
    requires Agrees(i, l)
    ensures Agrees(i, l.(polls := polls))
  {
    var m := l.(polls := polls);
    forall k | 0 <= k < |m.snapshots| ensures SnapshotOk(i, m, k) {
      SnapshotStays(i, l, m, k);
    }
  }

  // ---------------------------------------------------------------- polls and queues

  function FindsOf(p: Poll): seq<Message> { if p.Poll? then p.found else [] }

  /** A poll hands out all, or one at a time; it finds nothing only in an empty queue. */
  predicate PollOk(p: Poll) {
    p.Poll? ==> && (p.mode.All? ==> p.left == []) && (p.mode.OneAtATime? ==> |p.found| <= 1)
                && (p.found == [] ==> p.left == [])
  }

  predicate EmptySteering(p: Poll) { p.Poll? && p.origin.Steering? && p.found == [] && p.left == [] }

  /** Follow-ups are polled for only right after a steering poll that found that queue empty. */
  predicate PollsOk(polls: seq<Poll>) {
    && (forall j :: 0 <= j < |polls| ==> PollOk(polls[j]))
    && (forall j :: 0 <= j < |polls| && polls[j].Poll? && polls[j].origin.FollowUp? ==>
          j > 0 && EmptySteering(polls[j - 1]))
  }

  /** The poll before turn k, in the mode set by then. */
  predicate ModeOk(i: Inputs, k: nat, p: Poll)
    requires k <= |i.script|
  {
    p.Poll? ==>
      if k == 0 then p.origin.Steering? && p.mode == i.initial.steerMode
      else if p.origin.Steering? then p.mode == i.script[k - 1].beforeSteeringPoll.steerMode
      else p.mode == i.script[k - 1].beforeFollowUpPoll.followUpMode
  }

  /** Turn k injects exactly what the last poll before it found, and every turn has a poll of its own. */
  predicate TurnPollOk(i: Inputs, l: Loop, k: nat)
    requires k < |l.turns| <= |i.script|
  {
    var r := l.turns[k];
    && 0 < r.polls <= |l.polls| && l.polls[r.polls - 1] == r.poll && r.injected == FindsOf(r.poll)
    && ModeOk(i, k, r.poll) && (if k == 0 then r.polls == 1 else l.turns[k - 1].polls < r.polls)
  }

  /** What the turns injected from one queue. */
  function Injected(turns: seq<TurnRecord>, o: Origin): seq<Message> {
    if turns == [] then []
    else
      var last := turns[|turns| - 1];
      Injected(turns[..|turns| - 1], o) + if last.poll.Poll? && last.poll.origin == o then last.injected else []
  }

  lemma InjectedOneMore(turns: seq<TurnRecord>, r: TurnRecord, o: Origin)
    ensures Injected(turns + [r], o) ==
            Injected(turns, o) + if r.poll.Poll? && r.poll.origin == o then r.injected else []
  {
    assert (turns + [r])[..|turns|] == turns;
  }

  ghost predicate TurnPollsOk(i: Inputs, l: Loop) {
    && |l.turns| <= |i.script| && PollsOk(l.polls)
    && (l.polls != [] ==> (l.polls[0].NoPoll? <==> i.skipInitialPoll))
    && (forall k :: 0 <= k < |l.turns| ==> TurnPollOk(i, l, k))
  }

  /** While the loop goes on, the messages in flight are what the last poll found, and no turn has used that poll. */
  ghost predicate InFlight(i: Inputs, r: Run) {
    && |r.l.turns| <= |i.script| && r.l.polls != [] && r.pending == FindsOf(LastPoll(r.l))
    && ModeOk(i, |r.l.turns|, LastPoll(r.l))
    && (if r.l.turns == [] then |r.l.polls| == 1 else r.l.turns[|r.l.turns| - 1].polls < |r.l.polls|)
    && (!Wants(r) ==> EmptySteering(LastPoll(r.l)))
    && (forall o: Origin :: Handed(r.l.polls, o) == Injected(r.l.turns, o) + InFlightOf(r, o))
  }

  function InFlightOf(r: Run, o: Origin): seq<Message> {
    var p := LastPoll(r.l);
    if p.Poll? && p.origin == o then p.found else []
  }

  lemma TurnPolls(i: Inputs, r: Run, s: TurnScript, m: Loop, t: TurnRecord)
    requires TurnPollsOk(i, r.l) && InFlight(i, r) && |r.l.turns| < |i.script|
    requires Turned(r.l, r.pending, s, m, t)
    ensures TurnPollsOk(i, m) && forall o: Origin :: Handed(m.polls, o) == Injected(m.turns, o)
  {
    forall k | 0 <= k < |m.turns| ensures TurnPollOk(i, m, k) {
      if k < |r.l.turns| { assert TurnPollOk(i, r.l, k); }
    }
    forall o: Origin ensures Handed(m.polls, o) == Injected(m.turns, o) {
      InjectedOneMore(r.l.turns, t, o);
    }
  }

  lemma FoundOk(o: Origin, q: Queue)
    ensures PollOk(PollOf(o, q))
  {
  }

  lemma PollAppended(polls: seq<Poll>, p: Poll)
    requires PollsOk(polls) && PollOk(p)
    requires p.Poll? && p.origin.FollowUp? ==> polls != [] && EmptySteering(polls[|polls| - 1])
    ensures PollsOk(polls + [p])
  {
    var all := polls + [p];
    forall j | 0 <= j < |all| && all[j].Poll? && all[j].origin.FollowUp? ensures j > 0 && EmptySteering(all[j - 1]) {
      if j < |polls| { assert polls[j] == all[j]; }
    }
  }

  lemma TurnPollsStay(i: Inputs, l: Loop, p: Poll)
    requires TurnPollsOk(i, l) && PollsOk(l.polls + [p]) && (l.polls == [] ==> (p.NoPoll? <==> i.skipInitialPoll))
    ensures TurnPollsOk(i, l.(polls := l.polls + [p]))
  {
    var m := l.(polls := l.polls + [p]);
    forall k | 0 <= k < |l.turns| ensures TurnPollOk(i, m, k) {
      assert TurnPollOk(i, l, k);
    }
  }

  /** A poll with nothing in flight. */
  lemma Polled(i: Inputs, l: Loop, p: Poll, r: Run)
    requires TurnPollsOk(i, l) && (forall o: Origin :: Handed(l.polls, o) == Injected(l.turns, o))
    requires PollOk(p) && ModeOk(i, |l.turns|, p) && r.l == l.(polls := l.polls + [p]) && r.pending == FindsOf(p)
    requires p.Poll? && p.origin.FollowUp? ==> l.polls != [] && EmptySteering(LastPoll(l)) && r.hasMoreToolCalls
    requires p.NoPoll? ==> r.hasMoreToolCalls
    requires l.polls == [] ==> (p.NoPoll? <==> i.skipInitialPoll)
    requires l.turns == [] <==> l.polls == []
    ensures TurnPollsOk(i, r.l) && InFlight(i, r)
  {
    PollAppended(l.polls, p);
    TurnPollsStay(i, l, p);
    if l.turns != [] { assert TurnPollOk(i, l, |l.turns| - 1); }
    forall o: Origin ensures Handed(r.l.polls, o) == Injected(r.l.turns, o) + InFlightOf(r, o) {
      HandedOneMore(l.polls, p, o);
    }
  }

  // ---------------------------------------------------------------- how long a run lasts

  /** Turns among the first k whose response calls tools. */
  function Calling(script: seq<TurnScript>, k: nat): nat
    requires k <= |script|
  {
    if k == 0 then 0 else Calling(script, k - 1) + if CallsTools(script[k - 1].final) then 1 else 0
  }

  function Arriving(a: Arrivals): nat { |a.steer| + |a.followUp| }

  /** Messages queued at the start and arriving around the first k turns. */
  function Supplied(i: Inputs, k: nat): nat
    requires k <= |i.script|
  {
    if k == 0 then |i.steering.messages| + |i.followUp.messages| + Arriving(i.initial)
    else
      Supplied(i, k - 1) + Arriving(i.script[k - 1].beforeSteeringPoll) + Arriving(i.script[k - 1].beforeFollowUpPoll)
  }

  function HandedCount(polls: seq<Poll>): nat { |Handed(polls, Steering)| + |Handed(polls, FollowUp)| }

  function Queued(r: Run): nat { |r.steering.messages| + |r.followUp.messages| }

  /** Arrivals around the last turn that are still to come. */
  function StillToArrive(i: Inputs, r: Run): nat
    requires |r.l.turns| <= |i.script|
  {
    var k, p := |r.l.turns|, LastPoll(r.l);
    if k > 0 && p.Poll? && p.origin.Steering? then Arriving(i.script[k - 1].beforeFollowUpPoll) else 0
  }

  /** Nothing is handed out that was not queued; and each turn after the first has a tool call or a message to serve. */
  ghost predicate CountsOk(i: Inputs, r: Run) {
    && |r.l.turns| <= |i.script|
    && HandedCount(r.l.polls) + Queued(r) + StillToArrive(i, r) <= Supplied(i, |r.l.turns|)
    && |r.l.turns| + (if Wants(r) then 1 else 0) <= 1 + Calling(i.script, |r.l.turns|) + HandedCount(r.l.polls)
  }

  lemma SteeringCounts(i: Inputs, r: Run, s: TurnScript, m: Loop, more: bool)
    requires CountsOk(i, r) && Wants(r) && |r.l.turns| < |i.script| && s == i.script[|r.l.turns|]
    requires |m.turns| == |r.l.turns| + 1 && m.polls == r.l.polls && (more ==> CallsTools(s.final))
    ensures CountsOk(i, PollSteering(Arrived(r.(l := m, hasMoreToolCalls := more), s.beforeSteeringPoll)))
  {
    var q := Arrived(r, s.beforeSteeringPoll).steering;
    HandedOneMore(m.polls, PollOf(Steering, q), Steering);
    HandedOneMore(m.polls, PollOf(Steering, q), FollowUp);
  }

  lemma FollowUpCounts(i: Inputs, r: Run)
    requires CountsOk(i, r) && !Wants(r) && |r.l.turns| > 0 && EmptySteering(LastPoll(r.l))
    ensures var next := PollFollowUp(Arrived(r, i.script[|r.l.turns| - 1].beforeFollowUpPoll));
            next.pending != [] ==> CountsOk(i, next)
  {
    var q := Arrived(r, i.script[|r.l.turns| - 1].beforeFollowUpPoll).followUp;
    HandedOneMore(r.l.polls, PollOf(FollowUp, q), Steering);
    HandedOneMore(r.l.polls, PollOf(FollowUp, q), FollowUp);
  }

  // ---------------------------------------------------------------- all of it, over every run

  predicate Stops(s: TurnScript) { Failed(s.final) || s.shouldStop }

  ghost predicate NoStop(script: seq<TurnScript>, k: nat)
    requires k <= |script|
  {
    forall j :: 0 <= j < k ==> !Stops(script[j])
  }

  ghost predicate GoingOk(i: Inputs, r: Run) {
    && InFlight(i, r) && CountsOk(i, r) && NoStop(i.script, |r.l.turns|)
    && (r.l.turns == [] ==> r.hasMoreToolCalls)
    && (KeepsContract(i.script) ==> Agrees(i, r.l))
  }

  /** A run ends with a turn that failed or was told to stop, or when both queues are found empty. */
  ghost predicate CompleteOk(i: Inputs, r: Run) {
    && 0 < |r.l.turns| <= |i.script| && NoStop(i.script, |r.l.turns| - 1) && r.pending == []
    && (forall o: Origin :: Handed(r.l.polls, o) == Injected(r.l.turns, o))
    && (Stops(i.script[|r.l.turns| - 1]) ||
        (&& LastPoll(r.l).Poll? && LastPoll(r.l).origin.FollowUp? && LastPoll(r.l).found == []
         && r.followUp.messages == []))
    && (KeepsContract(i.script) ==> AgreedToTheEnd(i, r.l))
  }

  /** A run is lost when the script has no turn left for it, or its tools never end. */
  ghost predicate LostOk(i: Inputs, r: Run) {
    var k := |r.l.turns|;
    && k <= |i.script| && (forall o: Origin :: Handed(r.l.polls, o) == Injected(r.l.turns, o) + InFlightOf(r, o))
    && (if k == |i.script|
        then NoStop(i.script, k) && |i.script| <= Calling(i.script, k) + Supplied(i, k)
        else CallsTools(i.script[k].final) &&
             Tools(i.script[k].final, i.script[k], r.l.aborted || i.script[k].aborted).outcomes.None?)
  }

  ghost predicate Inv(i: Inputs, r: Run) {
    && WrittenOk(i, r.l) && TurnPollsOk(i, r.l)
    && match r.stage
       case Going => GoingOk(i, r)
       case Complete => CompleteOk(i, r)
       case Lost => LostOk(i, r)
  }

  /** With nothing in flight the queues have handed out exactly what the turns injected. */
  ghost predicate Balanced(i: Inputs, l: Loop) {
    WrittenOk(i, l) && TurnPollsOk(i, l) && forall o: Origin :: Handed(l.polls, o) == Injected(l.turns, o)
  }

  lemma OverInv(i: Inputs, r: Run, l: Loop)
    requires Balanced(i, l)
    requires l.turns != [] && NoStop(i.script, |l.turns| - 1)
    requires Stops(i.script[|l.turns| - 1]) ||
             (LastPoll(l).Poll? && LastPoll(l).origin.FollowUp? && LastPoll(l).found == [] && r.followUp.messages == [])
    requires KeepsContract(i.script) ==> SnapshotsOk(i, l) && Ready(l)
    ensures Inv(i, Over(r, l))
  {
    if KeepsContract(i.script) { OverAgrees(i, r, l); }
    OverBalanced(i, r, l);
  }

  lemma OverBalanced(i: Inputs, r: Run, l: Loop)
    requires Balanced(i, l)
    ensures Balanced(i, Over(r, l).l) && LastPoll(Over(r, l).l) == LastPoll(l)
  {
    var m := Over(r, l).l;
    forall k | 0 <= k < |m.turns| ensures TurnPollOk(i, m, k) {
      assert TurnPollOk(i, l, k);
    }
  }

  lemma PreparedInv(i: Inputs, l: Loop, replacement: Option<seq<Message>>)
    requires Balanced(i, l)
    ensures Balanced(i, PrepareNext(l, replacement))
  {
    var p := PrepareNext(l, replacement);
    forall k | 0 <= k < |p.turns| ensures TurnPollOk(i, p, k) {
      assert TurnPollOk(i, l, k);
    }
  }

  /** The hooks and the steering poll after a turn that goes on. */
  lemma PollInv(i: Inputs, r: Run, s: TurnScript, m: Loop, p: Loop, more: bool)
    requires CountsOk(i, r) && NoStop(i.script, |r.l.turns|) && r.l.polls != []
    requires Wants(r) && |r.l.turns| < |i.script| && s == i.script[|r.l.turns|] && !Stops(s)
    requires |m.turns| == |r.l.turns| + 1 && m.polls == r.l.polls && (more ==> CallsTools(s.final))
    requires p == PrepareNext(m, s.replacement)
    requires Balanced(i, p)
    requires KeepsContract(i.script) ==> Agrees(i, p)
    ensures var next := PollSteering(Arrived(r.(l := p, hasMoreToolCalls := more), s.beforeSteeringPoll));
            WrittenOk(i, next.l) && TurnPollsOk(i, next.l) && GoingOk(i, next)
  {
    var a := Arrived(r.(l := p, hasMoreToolCalls := more), s.beforeSteeringPoll);
    var next := PollSteering(a);
    FoundOk(Steering, a.steering);
    Polled(i, p, PollOf(Steering, a.steering), next);
    SteeringCounts(i, r, s, p, more);
    if KeepsContract(i.script) { PolledAgrees(i, p, next.l.polls); }
  }

  /** What follows the k-th turn_end. */
  lemma AfterTurnInv(i: Inputs, r: Run, s: TurnScript, m: Loop, more: bool)
    requires r.stage.Going? && GoingOk(i, r) && Wants(r) && |r.l.turns| < |i.script| && s == i.script[|r.l.turns|]
    requires |m.turns| == |r.l.turns| + 1 && m.polls == r.l.polls && (more ==> CallsTools(s.final))
    requires m.replaced == r.l.replaced
    requires Balanced(i, m)
    requires KeepsContract(i.script) ==> SnapshotsOk(i, m) && Ready(m)
    ensures Inv(i, AfterTurn(r, m, more, s))
  {
    if Failed(s.final) {
      OverInv(i, r, m);
    } else {
      var p := PrepareNext(m, s.replacement);
      PreparedInv(i, m, s.replacement);
      if KeepsContract(i.script) { NextContext(i, m, s); }
      if s.shouldStop {
        OverInv(i, r, p);
      } else {
        PollInv(i, r, s, m, p, more);
      }
    }
  }

  /** The loop right after a turn_end. */
  lemma TurnInv(i: Inputs, r: Run) returns (m: Loop, more: bool)
    requires r.stage.Going? && Inv(i, r) && |r.l.turns| < |i.script|
    requires TurnOf(r.l, r.pending, i.script[|r.l.turns|]).Some?
    ensures var s := i.script[|r.l.turns|];
            && TurnOf(r.l, r.pending, s) == Some((m, more)) && (more ==> CallsTools(s.final))
            && |m.turns| == |r.l.turns| + 1 && m.polls == r.l.polls && m.replaced == r.l.replaced && Balanced(i, m)
            && (KeepsContract(i.script) ==> SnapshotsOk(i, m) && Ready(m))
  {
    var s := i.script[|r.l.turns|];
    var t: TurnRecord;
    m, more, t := TurnIs(r.l, r.pending, s);
    TurnWritten(i, r.l, r.pending, s, m, t);
    TurnPolls(i, r, s, m, t);
    if KeepsContract(i.script) {
      TurnTrace(r.l, r.pending, s);
      TurnSnapshots(i, r.l, r.pending, s, m, t);
    }
  }

  lemma PassInv(i: Inputs, r: Run)
    requires r.stage.Going? && Inv(i, r) && Wants(r) && |r.l.turns| < |i.script|
    ensures Inv(i, Pass(r, i.script[|r.l.turns|]))
  {
    var s := i.script[|r.l.turns|];
    if TurnOf(r.l, r.pending, s).Some? {
      var m, more := TurnInv(i, r);
      AfterTurnInv(i, r, s, m, more);
    } else {
      StuckInv(i, r, s);
    }
  }

  lemma StuckInv(i: Inputs, r: Run, s: TurnScript)
    requires WrittenOk(i, r.l) && TurnPollsOk(i, r.l) && |r.l.turns| < |i.script| && s == i.script[|r.l.turns|]
    requires TurnOf(r.l, r.pending, s).None? && InFlight(i, r)
    ensures Inv(i, r.(stage := Lost))
  {
    assert Begun(r.l, r.pending, s).aborted == (r.l.aborted || s.aborted);
    StaysInFlight(i, r);
  }

  lemma StaysInFlight(i: Inputs, r: Run)
    requires InFlight(i, r)
    ensures forall o: Origin ::
              Handed(r.l.polls, o) == Injected(r.l.turns, o) + InFlightOf(r.(stage := Lost), o)
  {
    forall o: Origin ensures InFlightOf(r.(stage := Lost), o) == InFlightOf(r, o) {
    }
  }

  lemma LostInv(i: Inputs, r: Run)
    requires r.stage.Going? && Inv(i, r) && Wants(r) && |r.l.turns| == |i.script|
    ensures Inv(i, r.(stage := Lost))
  {
    StaysInFlight(i, r);
  }

  lemma OuterInv(i: Inputs, r: Run)
    requires r.stage.Going? && Inv(i, r) && !Wants(r)
    ensures r.l.turns != [] && Inv(i, Outer(r, i.script[|r.l.turns| - 1].beforeFollowUpPoll))
  {
    var a := Arrived(r, i.script[|r.l.turns| - 1].beforeFollowUpPoll);
    var next := PollFollowUp(a);
    FoundOk(FollowUp, a.followUp);
    forall o: Origin ensures Handed(r.l.polls, o) == Injected(r.l.turns, o) {
      assert InFlightOf(r, o) == [];
    }
    Polled(i, r.l, PollOf(FollowUp, a.followUp), next);
    FollowUpCounts(i, r);
    if KeepsContract(i.script) { PolledAgrees(i, r.l, next.l.polls); }
    if next.pending == [] {
      forall o: Origin ensures Handed(next.l.polls, o) == Injected(next.l.turns, o) {
        HandedOneMore(r.l.polls, PollOf(FollowUp, a.followUp), o);
      }
      OverInv(i, next, next.l);
    }
  }

  lemma {:induction false} RunInv(i: Inputs, r: Run)
    requires Inv(i, r)
    ensures Inv(i, RunFrom(r, i.script))
    decreases |i.script| - |r.l.turns|, if !r.stage.Going? then 0 else if Wants(r) then 1 else 2
  {
    if r.stage.Going? && !Wants(r) {
      OuterInv(i, r);
      RunInv(i, Outer(r, i.script[|r.l.turns| - 1].beforeFollowUpPoll));
    } else if r.stage.Going? && |r.l.turns| < |i.script| {
      PassInv(i, r);
      RunInv(i, Pass(r, i.script[|r.l.turns|]));
    } else if r.stage.Going? {
      LostInv(i, r);
    }
  }

  lemma PromptedReady(i: Inputs)
    ensures Ready(Prompted(i.prompts, i.base))
  {
    var es := [AgentStart, TurnStart];
    ScanSingle(Fresh, AgentStart);
    ScanOne(Fresh, [AgentStart], TurnStart);
    assert [AgentStart] + [TurnStart] == es;
    ScanAppend(Fresh, es, BracketAll(i.prompts));
    ScanBrackets(Turn(0, [], 0, false, multiset{}), i.prompts);
    assert [] + i.prompts == i.prompts;
  }

  lemma StartInv(i: Inputs)
    ensures Inv(i, StartRun(Prompted(i.prompts, i.base), i.steering, i.followUp, i.skipInitialPoll, i.initial))
  {
    var l := Prompted(i.prompts, i.base);
    var a := Arrived(Run(l, i.steering, i.followUp, [], true, Going, []), i.initial);
    var r := StartRun(l, i.steering, i.followUp, i.skipInitialPoll, i.initial);
    var p := if i.skipInitialPoll then NoPoll else PollOf(Steering, a.steering);
    assert i.prompts + [] == i.prompts;
    PromptedReady(i);
    FoundOk(Steering, a.steering);
    Polled(i, l, p, r);
    HandedOneMore([], p, Steering);
    HandedOneMore([], p, FollowUp);
    if KeepsContract(i.script) { PolledAgrees(i, l, r.l.polls); }
  }

  lemma EveryRun(i: Inputs)
    ensures Inv(i, RunOf(i)) && !RunOf(i).stage.Going?
  {
    var start := StartRun(Prompted(i.prompts, i.base), i.steering, i.followUp, i.skipInitialPoll, i.initial);
    StartInv(i);
    RunInv(i, start);
  }

  // ---------------------------------------------------------------- why there is another turn

  function FirstOf(i: Inputs): Run {
    StartRun(Prompted(i.prompts, i.base), i.steering, i.followUp, i.skipInitialPoll, i.initial)
  }

  /** Turn k called tools and the model is to see what became of the calls. */
  ghost predicate Reports(i: Inputs, l: Loop, k: nat)
    requires k < |l.turns| <= |i.script|
  {
    NeedsReport(i.script[k], AbortedBefore(l.turns, k) || i.script[k].aborted)
  }

  /** Turn k has a reason: the calls of the turn before it, or messages to serve. The first turn needs none. */
  ghost predicate HasReason(i: Inputs, l: Loop, k: nat)
    requires k < |l.turns| <= |i.script|
  {
    k == 0 || Reports(i, l, k - 1) || l.turns[k].injected != []
  }

  ghost predicate ReasonsOk(i: Inputs, r: Run) {
    var n := |r.l.turns|;
    && n <= |i.script| && (forall k :: 0 <= k < n ==> HasReason(i, r.l, k))
    && (n > 0 && r.stage.Going? ==> (r.hasMoreToolCalls <==> Reports(i, r.l, n - 1)) || r.pending != [])
    && (n > 0 && r.stage.Complete? && !Stops(i.script[n - 1]) ==> !Reports(i, r.l, n - 1))
  }

  /** Reasons depend on the turns alone. */
  lemma SameReasons(i: Inputs, l: Loop, m: Loop, k: nat)
    requires k < |l.turns| && l.turns <= m.turns && |m.turns| <= |i.script|
    ensures (Reports(i, m, k) <==> Reports(i, l, k)) && (HasReason(i, m, k) <==> HasReason(i, l, k))
  {
    assert m.turns[k] == l.turns[k] && (k > 0 ==> m.turns[k - 1] == l.turns[k - 1]);
  }

  lemma TurnReasons(i: Inputs, r: Run, m: Loop, t: TurnRecord)
    requires ReasonsOk(i, r) && r.stage.Going? && Wants(r) && |r.l.turns| < |i.script|
    requires m.turns == r.l.turns + [t] && t.injected == r.pending
    ensures forall k :: 0 <= k < |m.turns| ==> HasReason(i, m, k)
  {
    forall k | 0 <= k < |m.turns| ensures HasReason(i, m, k) {
      if k < |r.l.turns| {
        SameReasons(i, r.l, m, k);
      } else if k > 0 {
        SameReasons(i, r.l, m, k - 1);
      }
    }
  }

  lemma AfterTurnReasons(i: Inputs, r: Run, m: Loop, more: bool)
    requires r.stage.Going? && |r.l.turns| < |i.script| && |m.turns| == |r.l.turns| + 1
    requires forall k :: 0 <= k < |m.turns| ==> HasReason(i, m, k)
    requires more <==> Reports(i, m, |m.turns| - 1)
    ensures ReasonsOk(i, AfterTurn(r, m, more, i.script[|r.l.turns|]))
  {
    var a := AfterTurn(r, m, more, i.script[|r.l.turns|]);
    forall k | 0 <= k < |m.turns| ensures HasReason(i, a.l, k) && (Reports(i, a.l, k) <==> Reports(i, m, k)) {
      SameReasons(i, m, a.l, k);
    }
  }

  lemma PassReasons(i: Inputs, r: Run)
    requires ReasonsOk(i, r) && r.stage.Going? && Wants(r) && |r.l.turns| < |i.script|
    requires r.l.aborted == AbortedBefore(r.l.turns, |r.l.turns|)
    ensures ReasonsOk(i, Pass(r, i.script[|r.l.turns|]))
  {
    var s := i.script[|r.l.turns|];
    if TurnOf(r.l, r.pending, s).Some? {
      var m, more, t := TurnIs(r.l, r.pending, s);
      TurnReasons(i, r, m, t);
      assert AbortedBefore(m.turns, |r.l.turns|) == r.l.aborted;
      AfterTurnReasons(i, r, m, more);
    }
  }

  lemma OuterReasons(i: Inputs, r: Run, a: Arrivals)
    requires ReasonsOk(i, r) && r.stage.Going? && !Wants(r) && r.l.turns != []
    ensures ReasonsOk(i, Outer(r, a))
  {
    var p := Outer(r, a);
    forall k | 0 <= k < |r.l.turns| ensures HasReason(i, p.l, k) && (Reports(i, p.l, k) <==> Reports(i, r.l, k)) {
      SameReasons(i, r.l, p.l, k);
    }
  }

  lemma {:induction false} RunReasons(i: Inputs, r: Run)
    requires Inv(i, r) && ReasonsOk(i, r)
    ensures ReasonsOk(i, RunFrom(r, i.script))
    decreases |i.script| - |r.l.turns|, if !r.stage.Going? then 0 else if Wants(r) then 1 else 2
  {
    if r.stage.Going? && !Wants(r) {
      var next := Outer(r, i.script[|r.l.turns| - 1].beforeFollowUpPoll);
      OuterInv(i, r);
      OuterReasons(i, r, i.script[|r.l.turns| - 1].beforeFollowUpPoll);
      RunReasons(i, next);
    } else if r.stage.Going? && |r.l.turns| < |i.script| {
      PassInv(i, r);
      PassReasons(i, r);
      RunReasons(i, Pass(r, i.script[|r.l.turns|]));
    }
  }

  lemma FirstReasons(i: Inputs)
    ensures Inv(i, FirstOf(i)) && ReasonsOk(i, FirstOf(i))
  {
    StartInv(i);
    assert FirstOf(i).l.turns == [];
  }

  lemma EveryReason(i: Inputs)
    ensures ReasonsOk(i, RunOf(i))
  {
    FirstReasons(i);
    RunReasons(i, FirstOf(i));
  }

  /**
   * What became of tool calls gets back to the model: in a complete run a turn that calls tools is followed by another
   * one, unless the run is stopped there or every answered call executed and asks to end the run.
   */
  lemma ToolsGetATurn(i: Inputs, k: nat)
    requires RunOf(i).stage.Complete? && k < |RunOf(i).l.turns|
    ensures var l := RunOf(i).l;
            && |l.turns| <= |i.script|
            && (NeedsReport(i.script[k], AbortedBefore(l.turns, k) || i.script[k].aborted) && !Stops(i.script[k]) ==>
                  k + 1 < |l.turns|)
  {
    EveryRun(i);
    EveryReason(i);
    var l := RunOf(i).l;
    if k + 1 < |l.turns| { assert HasReason(i, l, k); }
  }

  /** And there is no turn without a reason: calls to report, or messages injected. */
  lemma TurnHasReason(i: Inputs, k: nat)
    requires 0 < k < |RunOf(i).l.turns|
    ensures var l := RunOf(i).l;
            && |l.turns| <= |i.script|
            && (l.turns[k].injected != [] ||
                NeedsReport(i.script[k - 1], AbortedBefore(l.turns, k - 1) || i.script[k - 1].aborted))
  {
    EveryReason(i);
    assert HasReason(i, RunOf(i).l, k);
  }

  // ---------------------------------------------------------------- conservation of queued messages

  function QueueOf(i: Inputs, o: Origin): seq<Message> {
    if o.Steering? then i.steering.messages else i.followUp.messages
  }

  function QueueIn(r: Run, o: Origin): seq<Message> {
    if o.Steering? then r.steering.messages else r.followUp.messages
  }

  /** What a queue held at first and what arrived is what its polls handed out and what it still holds, in order. */
  ghost predicate Conserved(i: Inputs, r: Run, o: Origin) {
    QueueOf(i, o) + AllOf(r.arrived, o) == Handed(r.l.polls, o) + QueueIn(r, o)
  }

  lemma ArrivedConserves(i: Inputs, r: Run, a: Arrivals, o: Origin)
    requires Conserved(i, r, o)
    ensures Conserved(i, Arrived(r, a), o)
  {
    AllOfOneMore(r.arrived, a, o);
    BothGrow(QueueOf(i, o), AllOf(r.arrived, o), Handed(r.l.polls, o), QueueIn(r, o),
             if o.Steering? then a.steer else a.followUp);
  }

  lemma BothGrow(a: seq<Message>, b: seq<Message>, c: seq<Message>, d: seq<Message>, more: seq<Message>)
    requires a + b == c + d
    ensures a + (b + more) == c + (d + more)
  {
    assert a + (b + more) == a + b + more;
    assert c + (d + more) == c + d + more;
  }

  lemma DrainSplits(q: Queue, handed: seq<Message>)
    ensures handed + q.messages == handed + Found(q) + Left(q).messages
  {
    assert q.messages == Found(q) + Left(q).messages;
  }

  lemma PollConserves(i: Inputs, r: Run, o: Origin)
    requires Conserved(i, r, o)
    ensures Conserved(i, PollSteering(r), o) && Conserved(i, PollFollowUp(r), o)
  {
    HandedOneMore(r.l.polls, PollOf(Steering, r.steering), o);
    HandedOneMore(r.l.polls, PollOf(FollowUp, r.followUp), o);
    DrainSplits(if o.Steering? then r.steering else r.followUp, Handed(r.l.polls, o));
    assert Handed(r.l.polls, o) + [] == Handed(r.l.polls, o);
  }

  lemma AfterTurnConserves(i: Inputs, r: Run, l: Loop, more: bool, s: TurnScript, o: Origin)
    requires Conserved(i, r, o) && l.polls == r.l.polls
    ensures Conserved(i, AfterTurn(r, l, more, s), o)
  {
    var p := r.(l := PrepareNext(l, s.replacement), hasMoreToolCalls := more);
    if !Stops(s) {
      assert Conserved(i, p, o);
      ArrivedConserves(i, p, s.beforeSteeringPoll, o);
      PollConserves(i, Arrived(p, s.beforeSteeringPoll), o);
    }
  }

  lemma PassConserves(i: Inputs, r: Run, s: TurnScript, o: Origin)
    requires Conserved(i, r, o)
    ensures Conserved(i, Pass(r, s), o)
  {
    if TurnOf(r.l, r.pending, s).Some? {
      var m, more, t := TurnIs(r.l, r.pending, s);
      AfterTurnConserves(i, r, m, more, s, o);
    }
  }

  lemma OuterConserves(i: Inputs, r: Run, a: Arrivals, o: Origin)
    requires Conserved(i, r, o)
    ensures Conserved(i, Outer(r, a), o)
  {
    ArrivedConserves(i, r, a, o);
    PollConserves(i, Arrived(r, a), o);
  }

  /** Induction along a run. */
  lemma {:induction false} RunKeeps(p: Run -> bool, r: Run, script: seq<TurnScript>)
    requires |r.l.turns| <= |script| && p(r)
    requires forall x: Run, s: TurnScript :: p(x) ==> p(Pass(x, s))
    requires forall x: Run, a: Arrivals :: p(x) ==> p(Outer(x, a))
    requires forall x: Run :: p(x) ==> p(x.(stage := Lost))
    ensures p(RunFrom(r, script))
    decreases |script| - |r.l.turns|, if !r.stage.Going? then 0 else if Wants(r) then 1 else 2
  {
    var k := |r.l.turns|;
    if r.stage.Going? && Wants(r) && k < |script| {
      RunKeeps(p, Pass(r, script[k]), script);
    } else if r.stage.Going? && !Wants(r) && k > 0 {
      RunKeeps(p, Outer(r, script[k - 1].beforeFollowUpPoll), script);
    }
  }

  lemma RunConserves(i: Inputs, r: Run, o: Origin)
    requires |r.l.turns| <= |i.script| && Conserved(i, r, o)
    ensures Conserved(i, RunFrom(r, i.script), o)
  {
    var p := (x: Run) => Conserved(i, x, o);
    forall x: Run, s: TurnScript | p(x) ensures p(Pass(x, s)) {
      PassConserves(i, x, s, o);
    }
    forall x: Run, a: Arrivals | p(x) ensures p(Outer(x, a)) {
      OuterConserves(i, x, a, o);
    }
    RunKeeps(p, r, i.script);
  }

  lemma PassArrivals(r: Run, s: TurnScript)
    requires r.stage.Going?
    ensures Pass(r, s).arrived == r.arrived + if Pass(r, s).stage.Going? then [s.beforeSteeringPoll] else []
  {
    assert r.arrived + [] == r.arrived;
  }

  lemma SentAfter(before: seq<Arrivals>, now: seq<Arrivals>, later: seq<Arrivals>)
    ensures before + now + later == before + (now + later)
  {
  }

  lemma PassSends(r: Run, script: seq<TurnScript>, next: Run)
    requires r.stage.Going? && Wants(r) && |r.l.turns| < |script| && next == Pass(r, script[|r.l.turns|])
    requires RunFrom(next, script).arrived == next.arrived + Sent(next, script)
    ensures RunFrom(r, script).arrived == r.arrived + Sent(r, script)
  {
    var s := script[|r.l.turns|];
    PassArrivals(r, s);
    SentAfter(r.arrived, if next.stage.Going? then [s.beforeSteeringPoll] else [], Sent(next, script));
  }

  lemma OuterSends(r: Run, script: seq<TurnScript>, next: Run)
    requires r.stage.Going? && !Wants(r) && 0 < |r.l.turns| <= |script|
    requires next == Outer(r, script[|r.l.turns| - 1].beforeFollowUpPoll)
    requires RunFrom(next, script).arrived == next.arrived + Sent(next, script)
    ensures RunFrom(r, script).arrived == r.arrived + Sent(r, script)
  {
    SentAfter(r.arrived, [script[|r.l.turns| - 1].beforeFollowUpPoll], Sent(next, script));
  }

  /** What arrives is what the script sends before the polls that are made, and nothing else. */
  lemma {:induction false} ArrivesAsSent(r: Run, script: seq<TurnScript>)
    requires |r.l.turns| <= |script|
    ensures RunFrom(r, script).arrived == r.arrived + Sent(r, script)
    decreases |script| - |r.l.turns|, if !r.stage.Going? then 0 else if Wants(r) then 1 else 2
  {
    var k := |r.l.turns|;
    if r.stage.Going? && Wants(r) && k < |script| {
      var next := Pass(r, script[k]);
      ArrivesAsSent(next, script);
      PassSends(r, script, next);
    } else if r.stage.Going? && !Wants(r) && k > 0 {
      var next := Outer(r, script[k - 1].beforeFollowUpPoll);
      ArrivesAsSent(next, script);
      OuterSends(r, script, next);
    } else {
      assert r.arrived + [] == r.arrived;
    }
  }

  lemma StartConserves(i: Inputs, o: Origin)
    ensures Conserved(i, FirstOf(i), o) && FirstOf(i).arrived == [i.initial]
  {
    var r := Run(Prompted(i.prompts, i.base), i.steering, i.followUp, [], true, Going, []);
    assert Conserved(i, r, o) by {
      assert QueueOf(i, o) + [] == QueueOf(i, o) == [] + QueueOf(i, o);
    }
    ArrivedConserves(i, r, i.initial, o);
    var a := Arrived(r, i.initial);
    PollConserves(i, a, o);
    HandedOneMore(a.l.polls, NoPoll, o);
    assert Handed(a.l.polls, o) + [] == Handed(a.l.polls, o);
    assert [] + [i.initial] == [i.initial];
  }

  /**
   * Conservation, for every run and either queue, in order: what was queued at first and what the script sent is what
   * the turns injected, then what is in flight, then what is still queued. In flight is nothing when the run has ended;
   * a run cut short by the end of its script shows any moment before that.
   */
  lemma QueueConserved(i: Inputs, o: Origin)
    ensures var r := RunOf(i);
            && r.arrived == [i.initial] + Sent(FirstOf(i), i.script)
            && QueueOf(i, o) + AllOf(r.arrived, o) ==
               Injected(r.l.turns, o) + (if r.stage.Complete? then [] else InFlightOf(r, o)) + QueueIn(r, o)
  {
    EveryRun(i);
    StartConserves(i, o);
    RunConserves(i, FirstOf(i), o);
    ArrivesAsSent(FirstOf(i), i.script);
    var r := RunOf(i);
    if r.stage.Complete? { assert Injected(r.l.turns, o) + [] == Injected(r.l.turns, o); }
  }

  // ---------------------------------------------------------------- the guarantees

  /** The new messages are the prompts, then turn by turn what was injected, the scripted response and its results. */
  lemma RunWrites(i: Inputs)
    ensures var l := RunOf(i).l;
            && l.newMessages == i.prompts + Written(l.turns) && |l.turns| <= |i.script|
            && forall k :: 0 <= k < |l.turns| ==> l.turns[k].message == i.script[k].final
  {
    EveryRun(i);
    var l := RunOf(i).l;
    forall k | 0 <= k < |l.turns| ensures l.turns[k].message == i.script[k].final {
      assert TurnOk(i.script, l.turns, k);
    }
  }

  /** A run that ends emits a trace of the grammar that closes with its new messages. */
  lemma RunIsWellFormed(i: Inputs)
    requires KeepsContract(i.script) && RunOf(i).stage.Complete?
    ensures var l := RunOf(i).l;
            && IsCompleteRun(l.events) && ScanAll(Fresh, l.events) == Done(l.newMessages)
            && Ended(l.events) == l.newMessages
            && l.events != [] && l.events[|l.events| - 1].AgentEnd?
  {
    EveryRun(i);
    var l := RunOf(i).l;
    ScanCollectsEnded(l.events);
    AgentEndIsLast(l.events, |l.events| - 1);
  }

  /** At every turn_end of a run that ends, context, new messages and message_end payloads agree. */
  lemma RunAgrees(i: Inputs, k: nat)
    requires KeepsContract(i.script) && RunOf(i).stage.Complete? && k < |RunOf(i).l.turns|
    ensures var l := RunOf(i).l; k < |l.snapshots| == |l.turns| <= |i.script| && SnapshotOk(i, l, k)
  {
    EveryRun(i);
  }

  lemma {:induction false} NeverReplaced(script: seq<TurnScript>, k: nat)
    requires k <= |script| && forall j :: 0 <= j < k ==> script[j].replacement.None?
    ensures !AnyReplaced(script, k)
  {
    if k > 0 { NeverReplaced(script, k - 1); }
  }

  /**
   * When no turn before the k-th had its context replaced, the context at that turn_end is the initial messages, the
   * prompts and everything written so far.
   */
  lemma ContextIsTranscript(i: Inputs, k: nat)
    requires KeepsContract(i.script) && RunOf(i).stage.Complete? && k < |RunOf(i).l.turns|
    requires forall j :: 0 <= j < k && j < |i.script| ==> i.script[j].replacement.None?
    ensures var l := RunOf(i).l;
            && k < |l.snapshots| && 0 < l.snapshots[k].length <= |l.events|
            && l.snapshots[k].context == i.base + l.snapshots[k].newMessages
            && l.snapshots[k].newMessages == i.prompts + Written(l.turns[..k + 1]) ==
               Ended(l.events[..l.snapshots[k].length])
  {
    RunAgrees(i, k);
    NeverReplaced(i.script, k);
  }

  /**
   * The results of turn k answer a source-order prefix of its calls, all of them unless the turn failed or the signal
   * was aborted; exactly the answered calls that were prepared have executed, and none of a truncated message.
   */
  lemma TurnAnswers(i: Inputs, k: nat)
    requires k < |RunOf(i).l.turns|
    ensures var l := RunOf(i).l; var r := l.turns[k];
            && |l.turns| <= |i.script| && Answers(r.message, r.results)
            && (|r.results| < |r.message.toolCalls| ==> r.aborted || Failed(r.message))
            && r.executed == (if !CallsTools(r.message) || r.message.stopReason.Length? then []
                              else ExecutedUpTo(r.message.toolCalls, i.script[k].plans,
                                                AbortedBefore(l.turns, k) || i.script[k].aborted, |r.results|))
  {
    EveryRun(i);
    var l := RunOf(i).l;
    var s, a := i.script[k], AbortedBefore(l.turns, k) || i.script[k].aborted;
    assert TurnOk(i.script, l.turns, k);
    if CallsTools(s.final) {
      ToolsAnswer(s, a);
      ToolsOutcome(s, a);
    }
  }

  /**
   * The j-th result of turn k says what the plan of its call makes of it: the tool's output as the after hook leaves
   * it, or why the call was refused or failed; each call of a truncated message gets the notice.
   */
  lemma TurnResultsSay(i: Inputs, k: nat, j: nat)
    requires k < |RunOf(i).l.turns| && j < |RunOf(i).l.turns[k].results|
    ensures var l := RunOf(i).l; var r := l.turns[k];
            && |l.turns| <= |i.script| && |r.results| <= |r.message.toolCalls|
            && var s, call := i.script[k], r.message.toolCalls[j];
            && if s.final.stopReason.Length? then SaysTruncated(call, r.results[j])
               else Says(call, s.plans(j), AbortedFor(s.plans, AbortedBefore(l.turns, k) || s.aborted, j), r.results[j])
  {
    EveryRun(i);
    TurnAnswers(i, k);
    var l := RunOf(i).l;
    var s, a := i.script[k], AbortedBefore(l.turns, k) || i.script[k].aborted;
    assert TurnOk(i.script, l.turns, k);
    ToolsSay(s, a, j);
  }

  /** Without an abort in the script up to turn k the signal is not aborted there, so every call is answered. */
  lemma {:induction false} CalmTurns(i: Inputs, k: nat)
    requires k < |RunOf(i).l.turns| && forall j :: 0 <= j <= k && j < |i.script| ==> Calm(i.script[j])
    ensures var r := RunOf(i).l.turns[k];
            !r.aborted && (!Failed(r.message) ==> |r.results| == |r.message.toolCalls|)
  {
    if k > 0 { CalmTurns(i, k - 1); }
    EveryRun(i);
    var l := RunOf(i).l;
    assert TurnOk(i.script, l.turns, k);
    ToolsOutcome(i.script[k], false);
    TurnAnswers(i, k);
  }

  /**
   * Turn k injects what the last poll before it found: all that queue held, or at most one message in one-at-a-time
   * mode, the mode being the one set before the poll. Follow-ups are found only after the steering queue was empty.
   */
  lemma TurnInjects(i: Inputs, k: nat)
    requires k < |RunOf(i).l.turns|
    ensures var l := RunOf(i).l; var r := l.turns[k];
            && |l.turns| <= |i.script| && TurnPollOk(i, l, k) && PollOk(r.poll)
            && (r.poll.Poll? && r.poll.origin.FollowUp? ==> r.polls > 1 && EmptySteering(l.polls[r.polls - 2]))
  {
    EveryRun(i);
    var l := RunOf(i).l;
    assert TurnPollOk(i, l, k);
  }

  /** When a run ends, each queue has handed out exactly what the turns injected, in order; nothing is in flight. */
  lemma NothingInFlight(i: Inputs, o: Origin)
    requires RunOf(i).stage.Complete?
    ensures Handed(RunOf(i).l.polls, o) == Injected(RunOf(i).l.turns, o) && RunOf(i).pending == []
  {
    EveryRun(i);
  }

  /** Whatever the abort signal, the schedule of a turn lets its tools end. */
  ghost predicate Finishing(s: TurnScript) {
    forall aborted: bool :: CallsTools(s.final) ==> Tools(s.final, s, aborted).outcomes.Some?
  }

  /** A run ends no later than the first turn that fails or is told to stop. */
  lemma StopEndsRun(i: Inputs, k: nat)
    requires forall j :: 0 <= j < |i.script| ==> Finishing(i.script[j])
    requires k < |i.script| && Stops(i.script[k])
    ensures RunOf(i).stage.Complete? && |RunOf(i).l.turns| <= k + 1
  {
    EveryRun(i);
    var r := RunOf(i);
    if |r.l.turns| < |i.script| { assert Finishing(i.script[|r.l.turns|]); }
  }

  /**
   * A run ends when its turns run dry: it takes at most one turn, one for every response with tool calls and one for
   * every message queued. So it ends within any script longer than that.
   */
  lemma DryEndsRun(i: Inputs)
    requires forall j :: 0 <= j < |i.script| ==> Finishing(i.script[j])
    requires |i.script| > Calling(i.script, |i.script|) + Supplied(i, |i.script|)
    ensures RunOf(i).stage.Complete?
  {
    EveryRun(i);
    var r := RunOf(i);
    if |r.l.turns| < |i.script| { assert Finishing(i.script[|r.l.turns|]); }
  }

  /** A run that is not complete was given too few turns, none of them the last, or a tool that never ends. */
  lemma LostOnlyByScript(i: Inputs)
    ensures RunOf(i).stage.Complete? || (RunOf(i).stage.Lost? && LostOk(i, RunOf(i)))
  {
    EveryRun(i);
  }

  /**
   * A complete run ended with a turn that failed or was told to stop, or with one after which there were no calls to
   * report and both queues were found empty.
   */
  lemma WhyItEnded(i: Inputs)
    requires RunOf(i).stage.Complete?
    ensures var r := RunOf(i);
            && 0 < |r.l.turns| <= |i.script| && NoStop(i.script, |r.l.turns| - 1)
            && (Stops(i.script[|r.l.turns| - 1]) ||
                (&& r.followUp.messages == [] && |r.l.polls| > 1 && EmptySteering(r.l.polls[|r.l.polls| - 2])
                 && !Reports(i, r.l, |r.l.turns| - 1)))
  {
    EveryRun(i);
    EveryReason(i);
  }

  /** After a skipped poll the first turn injects nothing. */
  lemma SkippedPoll(i: Inputs)
    requires i.skipInitialPoll && RunOf(i).stage.Complete?
    ensures RunOf(i).l.turns != [] && RunOf(i).l.turns[0].injected == []
  {
    EveryRun(i);
    var l := RunOf(i).l;
    assert TurnPollOk(i, l, 0);
  }
}
