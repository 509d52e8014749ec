/** Whole runs of the agent loop: what each turn's context is made of when prepareNextTurn replaces it in between. */
module AgentContexts {
  import opened Common
  import opened AgentEvents
  import opened ToolBatch
  import opened AgentLoop
  import opened AgentTurns
  import opened AgentRuns

  /** The context turn k starts from: the last replacement before it, or the initial one, and all written since. */
  function ContextBefore(i: Inputs, turns: seq<TurnRecord>, k: nat): seq<Message>
    requires k <= |turns| && k <= |i.script|
  {
    if k == 0 then i.base + i.prompts
    else if i.script[k - 1].replacement.Some? then i.script[k - 1].replacement.value
    else ContextBefore(i, turns, k - 1) + Wrote(turns[k - 1])
  }

  predicate SeesOk(i: Inputs, l: Loop, k: nat)
    requires k < |l.snapshots| == |l.turns| <= |i.script|
  {
    l.snapshots[k].context == ContextBefore(i, l.turns, k) + Wrote(l.turns[k])
  }

  ghost predicate AllSeen(i: Inputs, l: Loop) {
    |l.snapshots| == |l.turns| <= |i.script| && forall k :: 0 <= k < |l.turns| ==> SeesOk(i, l, k)
  }

  ghost predicate ContextsOk(i: Inputs, r: Run) {
    && AllSeen(i, r.l)
    && (r.stage.Going? ==> r.l.context == ContextBefore(i, r.l.turns, |r.l.turns|))
  }

  lemma {:induction false} ContextStays(i: Inputs, a: seq<TurnRecord>, b: seq<TurnRecord>, k: nat)
    requires k <= |a| && a <= b && k <= |i.script|
    ensures ContextBefore(i, b, k) == ContextBefore(i, a, k)
  {
    if k > 0 {
      ContextStays(i, a, b, k - 1);
      assert b[k - 1] == a[k - 1];
    }
  }

  lemma TurnSeen(i: Inputs, l: Loop, m: Loop, t: TurnRecord)
    requires AllSeen(i, l) && l.context == ContextBefore(i, l.turns, |l.turns|) && |l.turns| < |i.script|
    requires m.turns == l.turns + [t] && m.context == l.context + Wrote(t)
    requires |m.snapshots| == |l.snapshots| + 1 && l.snapshots <= m.snapshots
    requires m.snapshots[|l.snapshots|].context == m.context
    ensures AllSeen(i, m)
  {
    forall k | 0 <= k < |m.turns| ensures SeesOk(i, m, k) {
      ContextStays(i, l.turns, m.turns, k);
      if k < |l.turns| {
        assert SeesOk(i, l, k) && m.turns[k] == l.turns[k] && m.snapshots[k] == l.snapshots[k];
      }
    }
  }

  lemma SeenAlike(i: Inputs, l: Loop, m: Loop)
    requires AllSeen(i, l) && m.turns == l.turns && m.snapshots == l.snapshots
    ensures AllSeen(i, m)
  {
    forall k | 0 <= k < |m.turns| ensures SeesOk(i, m, k) { assert SeesOk(i, l, k); }
  }

  lemma AfterTurnContexts(i: Inputs, r: Run, m: Loop, more: bool, s: TurnScript)
    requires AllSeen(i, m) && m.turns != [] && s == i.script[|m.turns| - 1]
    requires m.context == ContextBefore(i, m.turns, |m.turns| - 1) + Wrote(m.turns[|m.turns| - 1])
    ensures ContextsOk(i, AfterTurn(r, m, more, s))
  {
    SeenAlike(i, m, AfterTurn(r, m, more, s).l);
  }

  lemma PassContexts(i: Inputs, r: Run)
    requires KeepsContract(i.script) && ContextsOk(i, r) && r.stage.Going? && |r.l.turns| < |i.script|
    ensures ContextsOk(i, Pass(r, i.script[|r.l.turns|]))
  {
    var s := i.script[|r.l.turns|];
    if TurnOf(r.l, r.pending, s).Some? {
      var m, more, t := TurnIs(r.l, r.pending, s);
      TurnSeen(i, r.l, m, t);
      ContextStays(i, r.l.turns, m.turns, |r.l.turns|);
      AfterTurnContexts(i, r, m, more, s);
    }
  }

  lemma OuterContexts(i: Inputs, r: Run, a: Arrivals)
    requires ContextsOk(i, r) && r.stage.Going?
    ensures ContextsOk(i, Outer(r, a))
  {
    SeenAlike(i, r.l, Outer(r, a).l);
  }

  lemma {:induction false} RunContexts(i: Inputs, r: Run)
    requires KeepsContract(i.script) && Inv(i, r) && ContextsOk(i, r)
    ensures ContextsOk(i, RunFrom(r, i.script))
    decreases |i.script| - |r.l.turns|, if !r.stage.Going? then 0 else if Wants(r) then 1 else 2
  {
    if r.stage.Going? && !Wants(r) {
      var next := Outer(r, i.script[|r.l.turns| - 1].beforeFollowUpPoll);
      OuterInv(i, r);
      OuterContexts(i, r, i.script[|r.l.turns| - 1].beforeFollowUpPoll);
      RunContexts(i, next);
    } else if r.stage.Going? && |r.l.turns| < |i.script| {
      PassInv(i, r);
      PassContexts(i, r);
      RunContexts(i, Pass(r, i.script[|r.l.turns|]));
    }
  }

  lemma FirstContexts(i: Inputs)
    ensures Inv(i, FirstOf(i)) && ContextsOk(i, FirstOf(i))
  {
    StartInv(i);
    assert FirstOf(i).l.turns == [] && FirstOf(i).l.snapshots == [];
  }

  lemma EveryContext(i: Inputs)
    requires KeepsContract(i.script)
    ensures ContextsOk(i, RunOf(i))
  {
    FirstContexts(i);
    RunContexts(i, FirstOf(i));
  }

  /** The context at the k-th turn_end: what the context before turn j was, and all written since. */
  lemma SeenSince(i: Inputs, l: Loop, j: nat, k: nat)
    requires AllSeen(i, l) && j <= k < |l.turns|
    requires forall m :: j <= m < k ==> i.script[m].replacement.None?
    ensures l.snapshots[k].context == ContextBefore(i, l.turns, j) + Written(l.turns[j..k + 1])
  {
    assert SeesOk(i, l, k);
    WrittenSince(i, l.turns, j, k);
    SinceOneMore(ContextBefore(i, l.turns, j), l.turns, j, k);
  }

  /**
   * In every run, ended or cut short, the context at the k-th turn_end is what prepareNextTurn last put in its place,
   * or else the initial messages and the prompts, followed by everything the turns since then have written.
   */
  lemma ContextSinceReplacement(i: Inputs, j: nat, k: nat)
    requires KeepsContract(i.script) && j <= k < |RunOf(i).l.turns|
    requires forall m :: j <= m < k && m < |i.script| ==> i.script[m].replacement.None?
    ensures var l := RunOf(i).l;
            && |l.snapshots| == |l.turns| <= |i.script|
            && (j == 0 ==> l.snapshots[k].context == (i.base + i.prompts) + Written(l.turns[j..k + 1]))
            && (j > 0 && i.script[j - 1].replacement.Some? ==>
                  l.snapshots[k].context == i.script[j - 1].replacement.value + Written(l.turns[j..k + 1]))
  {
    EveryContext(i);
    SeenSince(i, RunOf(i).l, j, k);
  }

  lemma WrittenLast(turns: seq<TurnRecord>, j: nat, k: nat)
    requires j <= k < |turns|
    ensures Written(turns[j..k + 1]) == Written(turns[j..k]) + Wrote(turns[k])
  {
    WrittenOneMore(turns[j..k], turns[k]);
    assert turns[j..k] + [turns[k]] == turns[j..k + 1];
  }

  lemma {:induction false} WrittenSince(i: Inputs, turns: seq<TurnRecord>, j: nat, k: nat)
    requires j <= k <= |turns| && k <= |i.script|
    requires forall m :: j <= m < k ==> i.script[m].replacement.None?
    ensures ContextBefore(i, turns, k) == ContextBefore(i, turns, j) + Written(turns[j..k])
    decreases k - j
  {
    if j < k {
      WrittenSince(i, turns, j, k - 1);
      SinceOneMore(ContextBefore(i, turns, j), turns, j, k - 1);
    } else {
      SinceNone(ContextBefore(i, turns, j), turns, j);
    }
  }

  lemma SinceOneMore(start: seq<Message>, turns: seq<TurnRecord>, j: nat, k: nat)
    requires j <= k < |turns|
    ensures start + Written(turns[j..k + 1]) == start + Written(turns[j..k]) + Wrote(turns[k])
  {
    WrittenLast(turns, j, k);
    ContextGrows(start, Written(turns[j..k]), Wrote(turns[k]));
  }

  lemma SinceNone(start: seq<Message>, turns: seq<TurnRecord>, j: nat)
    requires j <= |turns|
    ensures start + Written(turns[j..j]) == start
  {
    assert turns[j..j] == [];
  }
}
