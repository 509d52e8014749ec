/**
 * Which connections a session serves and which sessions a connection lists: the two records of
 * packages/server/src/sessions.ts agree as long as each attach finds the session it acquired still in service.
 */
module SessionMembership {
  import opened Sessions

  /** The connection lists the id exactly when the id's live session lists the connection. */
  predicate Agree(s: State, conn: nat, id: Id)
    requires conn in s.connections && (id in s.liveSessions ==> s.liveSessions[id] < |s.sessions|)
  {
    id in s.connections[conn].sessionIds <==>
    id in s.liveSessions && conn in s.sessions[s.liveSessions[id]].connections
  }

  /** Only a registered session that is not being disposed of serves connections, and they are known. */
  predicate ServesProperly(s: State, n: nat)
    requires n < |s.sessions|
  {
    var x := s.sessions[n];
    x.connections != {} ==> Listed(s.liveSessions, x.id, n) && !x.disposing && x.connections <= s.connections.Keys
  }

  ghost predicate Membership(s: State)
    requires Refs(s)
  {
    && (forall conn, id :: conn in s.connections ==> Agree(s, conn, id))
    && (forall n :: 0 <= n < |s.sessions| ==> ServesProperly(s, n))
  }

  /** The session an attach step adds a connection to is still in service. */
  predicate InService(s: State, n: nat)
    requires n < |s.sessions|
  {
    Listed(s.liveSessions, s.sessions[n].id, n) && !s.sessions[n].disposing
  }

  /** Nothing the two records mention changes; sessions may be added, and unused ones disposed of. */
  ghost predicate SameService(s: State, t: State) {
    && t.liveSessions == s.liveSessions && |s.sessions| <= |t.sessions| && t.connections.Keys == s.connections.Keys
    && (forall conn :: conn in s.connections ==> t.connections[conn].sessionIds == s.connections[conn].sessionIds)
    && (forall n :: 0 <= n < |s.sessions| ==> SameUse(s.sessions[n], t.sessions[n]))
    && (forall n :: |s.sessions| <= n < |t.sessions| ==> t.sessions[n].connections == {})
  }

  predicate SameUse(x: Session, y: Session) {
    y.id == x.id && y.connections == x.connections && (y.disposing ==> x.disposing || x.connections == {})
  }

  lemma SameServiceKeeps(s: State, t: State)
    requires Refs(s) && Refs(t) && Membership(s) && SameService(s, t)
    ensures Membership(t)
  {
    forall conn, id | conn in t.connections ensures Agree(t, conn, id) {
      assert Agree(s, conn, id);
      if id in s.liveSessions {
        assert SameUse(s.sessions[s.liveSessions[id]], t.sessions[s.liveSessions[id]]);
      }
    }
    forall n | 0 <= n < |t.sessions| ensures ServesProperly(t, n) {
      if n < |s.sessions| {
        assert ServesProperly(s, n) && SameUse(s.sessions[n], t.sessions[n]);
      }
    }
  }

  lemma SetSessionSame(s: State, n: nat, y: Session)
    requires n < |s.sessions| && SameUse(s.sessions[n], y)
    ensures SameService(s, SetSession(s, n, y))
  {
  }

  lemma AcquireHeadSame(s: State, id: Id)
    requires Refs(s)
    ensures SameService(s, AcquireHead(s, id).0)
  {
    var t := AcquireHead(s, id).0;
    forall n | 0 <= n < |s.sessions| ensures SameUse(s.sessions[n], t.sessions[n]) {
      assert t.sessions[n] == s.sessions[n];
    }
  }

  lemma AcquirerStepSame(s: State, e: Event)
    requires Refs(s) && (e.Acquire? || e.DisposalSeen? || e.OpeningSeen?)
    ensures SameService(s, AcquirerStep(s, e))
  {
    if e.Acquire? {
      AcquireHeadSame(s, e.id);
    } else if e.DisposalSeen? && e.a < |s.acquirers| {
      AcquireHeadSame(s, s.acquirers[e.a].id);
    }
  }

  lemma AcquirerStepKeeps(s: State, e: Event)
    requires Inv(s) && Membership(s) && (e.Acquire? || e.DisposalSeen? || e.OpeningSeen?)
    ensures Refs(AcquirerStep(s, e)) && Membership(AcquirerStep(s, e))
  {
    AcquirerStepKeepsInv(s, e);
    AcquirerStepSame(s, e);
    SameServiceKeeps(s, AcquirerStep(s, e));
  }

  /** A session under creation serves nobody yet, and its id has no live session. */
  lemma OpenKeeps(s: State, n: nat)
    requires Inv(s) && Membership(s) && n < |s.sessions| && s.sessions[n].stage.AwaitSnapshot?
    ensures Refs(CreationStep(s, SnapshotAnswer(n, true))) && Membership(CreationStep(s, SnapshotAnswer(n, true)))
  {
    var t := CreationStep(s, SnapshotAnswer(n, true));
    OpenKeepsInv(s, n);
    assert ServesProperly(s, n) && s.sessions[n].connections == {};
    assert s.sessions[n].id !in s.liveSessions by {
      assert SessionOk(s.liveSessions, s.openingSessions, s.closing, s.sessions[n], n);
    }
    forall conn, id | conn in t.connections ensures Agree(t, conn, id) {
      assert Agree(s, conn, id);
    }
    forall k | 0 <= k < |t.sessions| ensures ServesProperly(t, k) {
      assert ServesProperly(s, k);
    }
  }

  lemma CreationStepKeeps(s: State, e: Event)
    requires Inv(s) && Membership(s) && (e.RuntimeAnswer? || e.SnapshotAnswer? || e.CreateDisposed?)
    ensures Refs(CreationStep(s, e)) && Membership(CreationStep(s, e))
  {
    CreationStepKeepsInv(s, e);
    if e.SnapshotAnswer? && e.ok && e.n < |s.sessions| && s.sessions[e.n].stage.AwaitSnapshot? {
      OpenKeeps(s, e.n);
    } else if e.n < |s.sessions| {
      SetSessionSame(s, e.n, CreationNext(s.sessions[e.n], e, s.closing));
      SameServiceKeeps(s, CreationStep(s, e));
    }
  }

  /** A session that is taken off the list serves nobody. */
  lemma DisposeDoneKeeps(s: State, n: nat)
    requires Inv(s) && Membership(s)
    ensures Refs(LiveStep(s, DisposeDone(n))) && Membership(LiveStep(s, DisposeDone(n)))
  {
    var t := LiveStep(s, DisposeDone(n));
    DisposeDoneKeepsInv(s, n);
    if t != s {
      assert ServesProperly(s, n) && s.sessions[n].connections == {};
      forall conn, id | conn in t.connections ensures Agree(t, conn, id) {
        assert Agree(s, conn, id);
      }
      forall k | 0 <= k < |t.sessions| ensures ServesProperly(t, k) {
        assert ServesProperly(s, k);
      }
    }
  }

  lemma LiveStepKeeps(s: State, e: Event)
    requires Inv(s) && Membership(s)
    requires e.MaybeDispose? || e.DisposeDone? || e.EndOperation? || e.Terminate? || e.CloseDisposed?
    ensures Refs(LiveStep(s, e)) && Membership(LiveStep(s, e))
  {
    LiveStepKeepsInv(s, e);
    if e.DisposeDone? {
      DisposeDoneKeeps(s, e.n);
    } else if e.n < |s.sessions| {
      SetSessionSame(s, e.n, LiveNext(s.sessions[e.n], e, s.closing));
      SameServiceKeeps(s, LiveStep(s, e));
    }
  }

  lemma DetachAgrees(s: State, conn: nat, id: Id, k: nat, i: Id)
    requires Refs(s) && Refs(ConnectionStep(s, Detach(conn, id))) && k in s.connections && Agree(s, k, i)
    ensures Agree(ConnectionStep(s, Detach(conn, id)), k, i)
  {
  }

  lemma DetachKeeps(s: State, conn: nat, id: Id)
    requires Inv(s) && Membership(s)
    ensures Refs(ConnectionStep(s, Detach(conn, id))) && Membership(ConnectionStep(s, Detach(conn, id)))
  {
    var t := ConnectionStep(s, Detach(conn, id));
    ConnectionStepKeepsInv(s, Detach(conn, id));
    forall k, i | k in t.connections ensures Agree(t, k, i) {
      DetachAgrees(s, conn, id, k, i);
    }
    forall n | 0 <= n < |t.sessions| ensures ServesProperly(t, n) {
      assert ServesProperly(s, n);
    }
  }

  lemma DisconnectKeeps(s: State, conn: nat)
    requires Inv(s) && Membership(s)
    ensures Refs(ConnectionStep(s, Disconnect(conn))) && Membership(ConnectionStep(s, Disconnect(conn)))
  {
    var t := ConnectionStep(s, Disconnect(conn));
    DisconnectKeepsInv(s, conn);
    if t != s {
      forall k, i | k in t.connections ensures Agree(t, k, i) {
        assert Agree(s, k, i);
      }
      forall n | 0 <= n < |t.sessions| ensures ServesProperly(t, n) {
        assert ServesProperly(s, n);
      }
    }
  }

  /** A new connection lists nothing, and no session knows it. */
  lemma ConnectKeeps(s: State, conn: nat)
    requires Inv(s) && Membership(s)
    ensures Refs(ConnectionStep(s, Connect(conn))) && Membership(ConnectionStep(s, Connect(conn)))
  {
    var t := ConnectionStep(s, Connect(conn));
    AnyConnections(s, t.connections);
    if t != s {
      forall k, id | k in t.connections ensures Agree(t, k, id) {
        if k != conn {
          assert Agree(s, k, id);
        } else if id in s.liveSessions {
          assert ServesProperly(s, s.liveSessions[id]);
        }
      }
      forall n | 0 <= n < |t.sessions| ensures ServesProperly(t, n) {
        assert ServesProperly(s, n);
      }
    }
  }

  lemma ConnectionStepKeeps(s: State, e: Event)
    requires Inv(s) && Membership(s)
    requires e.Connect? || e.Detach? || e.CloseConnection? || e.Disconnect? || e.StartOperation?
    ensures Refs(ConnectionStep(s, e)) && Membership(ConnectionStep(s, e))
  {
    if e.Detach? {
      DetachKeeps(s, e.conn, e.id);
    } else if e.Disconnect? {
      DisconnectKeeps(s, e.conn);
    } else if e.Connect? {
      ConnectKeeps(s, e.conn);
    } else {
      ConnectionStepKeepsInv(s, e);
      if e.StartOperation? && MayOperate(s, e.conn, e.id) {
        var n := s.liveSessions[e.id];
        SetSessionSame(s, n, ConnectionStep(s, e).sessions[n]);
      }
      SameServiceKeeps(s, ConnectionStep(s, e));
    }
  }

  /** An attach that takes effect keeps the membership invariant exactly when the session is still in service. */
  lemma AttachKeepsExactlyInService(s: State, conn: nat, n: nat)
    requires Inv(s) && Membership(s)
    requires conn in s.connections && s.connections[conn].usable && n < |s.sessions| && s.sessions[n].stage.Opened?
    ensures Refs(Step(s, Attach(conn, n)))
    ensures Membership(Step(s, Attach(conn, n))) <==> InService(s, n)
  {
    ConnectionStepKeepsInv(s, Attach(conn, n));
    var t := Step(s, Attach(conn, n));
    assert ServesProperly(s, n);
    assert ServesProperly(t, n) <==> InService(s, n);
    if InService(s, n) {
      forall k, id | k in t.connections ensures Agree(t, k, id) {
        assert Agree(s, k, id);
      }
      forall m | 0 <= m < |t.sessions| ensures ServesProperly(t, m) {
        assert ServesProperly(s, m);
      }
    }
  }

  lemma NobodyServed(s: State, n: nat)
    requires Refs(s) && Membership(s) && n < |s.sessions|
    requires forall conn :: conn in s.connections ==> s.connections[conn].sessionIds == {}
    ensures s.sessions[n].connections == {}
  {
    assert ServesProperly(s, n);
    if s.sessions[n].connections != {} {
      var conn :| conn in s.sessions[n].connections;
      NotServed(s, conn, n);
    }
  }

  lemma NotServed(s: State, conn: nat, n: nat)
    requires Refs(s) && Membership(s) && n < |s.sessions| && conn in s.connections
    requires Listed(s.liveSessions, s.sessions[n].id, n) && s.connections[conn].sessionIds == {}
    ensures conn !in s.sessions[n].connections
  {
    assert Agree(s, conn, s.sessions[n].id);
  }

  /**
   * close() drops the live sessions whatever the connections list; the invariant holds on exactly if they list none.
   */
  lemma CloseKeepsExactlyUnattached(s: State)
    requires Inv(s) && Membership(s) && s.closing
    ensures Refs(Step(s, CloseAll))
    ensures Membership(Step(s, CloseAll)) <==> forall conn :: conn in s.connections ==>
            s.connections[conn].sessionIds == {}
  {
    CloseKeepsInv(s, CloseAll);
    var t := Step(s, CloseAll);
    if Membership(t) {
      forall conn, id | conn in s.connections ensures id !in s.connections[conn].sessionIds {
        assert Agree(t, conn, id);
      }
    }
    if forall conn :: conn in s.connections ==> s.connections[conn].sessionIds == {} {
      forall n | 0 <= n < |t.sessions| ensures ServesProperly(t, n) {
        NobodyServed(s, n);
      }
    }
  }

  /** The steps that keep the invariant: close() drops its sessions, an attach needs its session in service. */
  predicate Prompt(s: State, e: Event) {
    && !e.CloseAll?
    && (e.Attach? && e.n < |s.sessions| ==> InService(s, e.n))
  }

  ghost predicate AllPrompt(s: State, es: seq<Event>)
    requires Inv(s)
    decreases |es|
  {
    es == [] || (Prompt(s, es[0]) && (StepKeepsInv(s, es[0]); AllPrompt(Step(s, es[0]), es[1..])))
  }

  lemma PromptStepKeeps(s: State, e: Event)
    requires Inv(s) && Membership(s) && Prompt(s, e)
    ensures Refs(Step(s, e)) && Membership(Step(s, e))
  {
    if e.BeginClose? {
      SameServiceKeeps(s, Step(s, e));
    } else if e.Acquire? || e.DisposalSeen? || e.OpeningSeen? {
      AcquirerStepKeeps(s, e);
    } else if e.RuntimeAnswer? || e.SnapshotAnswer? || e.CreateDisposed? {
      CreationStepKeeps(s, e);
    } else if e.MaybeDispose? || e.DisposeDone? || e.EndOperation? || e.Terminate? || e.CloseDisposed? {
      LiveStepKeeps(s, e);
    } else if e.Attach? {
      if Step(s, e) != s {
        AttachKeepsExactlyInService(s, e.conn, e.n);
      }
    } else {
      ConnectionStepKeeps(s, e);
    }
  }

  /** Every state of every run whose attaches find their session in service keeps the two records in agreement. */
  lemma {:induction false} MembershipOverRuns(s: State, es: seq<Event>)
    requires Inv(s) && Membership(s) && AllPrompt(s, es)
    ensures Membership(Run(s, es))
    decreases |es|
  {
    if es != [] {
      StepKeepsInv(s, es[0]);
      PromptStepKeeps(s, es[0]);
      MembershipOverRuns(Step(s, es[0]), es[1..]);
    }
  }

  /** Every attach of a run of the server finds its session in service, and the run does not reach close(). */
  ghost predicate PromptRun(es: seq<Event>) {
    AllPrompt(INITIAL, es)
  }

  lemma ReachedMembership(es: seq<Event>)
    requires PromptRun(es)
    ensures Membership(Reached(es))
  {
    MembershipOverRuns(INITIAL, es);
  }

  /** What acquire returns without waiting is in service, so attaching in the same step is prompt. */
  lemma AcquiredIsInService(s: State, id: Id)
    requires Inv(s) && AcquireHead(s, id).1.Got?
    ensures InService(s, AcquireHead(s, id).1.n) && s.sessions[AcquireHead(s, id).1.n].id == id
  {
  }

  /** What an opening delivers is in service, unless it has been disposed of in between or the server has closed. */
  lemma OpenedIsInService(s: State, n: nat)
    requires Inv(s) && n < |s.sessions| && s.sessions[n].stage.Opened? && !s.closing
    ensures InService(s, n) <==> !s.sessions[n].disposing
  {
    assert SessionOk(s.liveSessions, s.openingSessions, s.closing, s.sessions[n], n);
  }

  /** A disposal may begin between acquire and attach; once it ends the connection lists a session that is not live. */
  lemma LateAttachBreaksMembership(s: State, conn: nat, n: nat) returns (s1: State, s2: State, s3: State)
    requires Inv(s) && n < |s.sessions| && InService(s, n) && s.sessions[n].connections == {}
    requires s.sessions[n].operations == 0 && !s.closing && conn in s.connections && s.connections[conn].usable
    ensures s1 == LiveStep(s, MaybeDispose(n, true)) && Refs(s1)
    ensures s2 == ConnectionStep(s1, Attach(conn, n))
    ensures s3 == LiveStep(s2, DisposeDone(n))
    ensures s.sessions[n].id !in s3.liveSessions && conn in s3.connections && !Agree(s3, conn, s.sessions[n].id)
  {
    var x := s.sessions[n];
    s1 := LiveStep(s, MaybeDispose(n, true));
    LiveStepKeepsInv(s, MaybeDispose(n, true));
    assert s1 == SetSession(s, n, CallDispose(x).(disposing := true));
    s2 := ConnectionStep(s1, Attach(conn, n));
    s3 := LiveStep(s2, DisposeDone(n));
  }

  /** A run of the server that does: an acquirer has got its session before the disposal begins. */
  lemma LateAttachReached(id: Id, conn: nat) returns (s: State)
    ensures IsReached(s) && conn in s.connections && id !in s.liveSessions && !Agree(s, conn, id)
  {
    JustOpenedIsReached(id, conn);
    var s0 := JustOpened(id, conn);
    ReachedHasRefs(s0);
    assert Inv(s0) by { StepIsReached(s0, BeginClose); }
    var s1, s2, s3 := LateAttachBreaksMembership(s0, conn, 0);
    LiveStepIsReached(s0, MaybeDispose(0, true), s1);
    AttachIsReached(s1, conn, s2);
    LiveStepIsReached(s2, DisposeDone(0), s3);
    s := s3;
  }

  lemma LiveStepIsReached(s: State, e: Event, t: State)
    requires IsReached(s) && Refs(s) && (e.MaybeDispose? || e.DisposeDone?) && t == LiveStep(s, e)
    ensures IsReached(t) && Refs(t)
  {
    LiveStepIsStep(s, e);
    ReachedAfter(s, e, t);
  }

  lemma LiveStepIsStep(s: State, e: Event)
    requires Refs(s) && (e.MaybeDispose? || e.DisposeDone?)
    ensures Step(s, e) == LiveStep(s, e)
  {
  }

  lemma ReachedAfter(s: State, e: Event, t: State)
    requires IsReached(s) && Refs(s) && t == Step(s, e)
    ensures IsReached(t) && Refs(t)
  {
    StepIsReached(s, e);
    ReachedHasRefs(t);
  }

  lemma AttachIsReached(s: State, conn: nat, t: State)
    requires IsReached(s) && Refs(s) && t == ConnectionStep(s, Attach(conn, 0))
    ensures IsReached(t) && Refs(t)
  {
    ReachedAfter(s, Attach(conn, 0), t);
  }

  lemma ReachedHasRefs(s: State)
    requires IsReached(s)
    ensures Refs(s)
  {
    StepIsReached(s, BeginClose);
  }
}
