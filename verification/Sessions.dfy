/**
 * LiveSessionManager of packages/server/src/sessions.ts as a state machine. Each step is one synchronous stretch
 * between awaits; any step may follow any other, so a run is an arbitrary interleaving of the server's tasks.
 */
module Sessions {

  type Id = string

  /** Where a call of `create` stands: the await it is suspended at, or its result. */
  datatype Stage = AwaitRuntime | AwaitSnapshot | AwaitDispose | Opened | Rejected

  /** What has become of the one runtime a creation may acquire. */
  datatype Runtime = None | Held | Disposing | Disposed

  /**
   * One call of `create`, the runtime it acquires and the LiveSession it makes of it: the three are one to one.
   * `disposeCalls` is history.
   */
  datatype Session = Session(
    id: Id,
    stage: Stage,
    runtime: Runtime,
    disposeCalls: nat,
    connections: set<nat>,
    operations: nat,
    terminal: bool,
    disposing: bool)

  /** A call of `acquire`. The owner of an opening is the acquirer that started it. */
  datatype Acquirer = Acquirer(id: Id, progress: Progress)
  datatype Progress =
    | WaitsForOpening(n: nat, owns: bool)
    | WaitsForDisposal(n: nat)
    | Got(n: nat)
    | Refused

  /** `usable` is false once a connection is disconnected, leaves the ready stage or closes its transport. */
  datatype Connection = Connection(sessionIds: set<Id>, usable: bool)

  datatype State = State(
    liveSessions: map<Id, nat>,
    openingSessions: map<Id, nat>,
    sessions: seq<Session>,
    acquirers: seq<Acquirer>,
    connections: map<nat, Connection>,
    closing: bool)

  datatype Event =
    | Acquire(id: Id)
    | DisposalSeen(a: nat, failed: bool)      // `await existing.disposing` settles
    | OpeningSeen(a: nat)                     // the awaited opening settles
    | RuntimeAnswer(n: nat, ok: bool)         // the backend hands out a runtime or fails
    | SnapshotAnswer(n: nat, ok: bool)        // the first snapshot; ok: it has the right id and subscribing works
    | CreateDisposed(n: nat)                  // a failed creation has disposed of its runtime
    | MaybeDispose(n: nat, idle: bool)        // any call of maybeDispose; idle: the runtime's phase
    | DisposeDone(n: nat)
    | Connect(conn: nat)
    | Attach(conn: nat, n: nat)
    | Detach(conn: nat, id: Id)
    | CloseConnection(conn: nat)              // its transport closes, or it leaves the ready stage
    | Disconnect(conn: nat)
    | StartOperation(conn: nat, id: Id)
    | EndOperation(n: nat)
    | Terminate(n: nat)
    | BeginClose
    | CloseAll
    | CloseDisposed(n: nat)

  const INITIAL := State(map[], map[], [], [], map[], false)

  /** References point at something, and what a map or an acquirer points at carries its id. */
  ghost predicate Refs(s: State) {
    && (forall id :: id in s.liveSessions ==>
          s.liveSessions[id] < |s.sessions| && s.sessions[s.liveSessions[id]].id == id
          && s.sessions[s.liveSessions[id]].stage.Opened?)
    && (forall id :: id in s.openingSessions ==>
          s.openingSessions[id] < |s.sessions| && s.sessions[s.openingSessions[id]].id == id)
    && (forall a :: 0 <= a < |s.acquirers| ==> AcquirerOk(s, s.acquirers[a]))
  }

  /** An acquirer waits for, or has, a session of its own id; a session it waits out is being disposed of. */
  ghost predicate AcquirerOk(s: State, a: Acquirer) {
    !a.progress.Refused? ==>
      && a.progress.n < |s.sessions| && s.sessions[a.progress.n].id == a.id
      && (a.progress.WaitsForDisposal? ==> s.sessions[a.progress.n].disposing)
      && (a.progress.Got? ==> s.sessions[a.progress.n].stage.Opened?)
  }

  predicate Listed(m: map<Id, nat>, id: Id, n: nat) {
    id in m && m[id] == n
  }

  // ---------------------------------------------------------------- steps

  function CallDispose(x: Session): Session {
    x.(runtime := Disposing, disposeCalls := x.disposeCalls + 1)
  }

  function SetSession(s: State, n: nat, x: Session): State
    requires n < |s.sessions|
  {
    s.(sessions := s.sessions[n := x])
  }

  /** The synchronous head of the acquire loop. */
  function AcquireHead(s: State, id: Id): (State, Progress)
    requires id in s.liveSessions ==> s.liveSessions[id] < |s.sessions|
  {
    if id in s.liveSessions then
      var n := s.liveSessions[id];
      if s.sessions[n].terminal then (s, Refused)
      else if s.sessions[n].disposing then (s, WaitsForDisposal(n))
      else (s, Got(n))
    else if id in s.openingSessions then (s, WaitsForOpening(s.openingSessions[id], false))
    else
      var n := |s.sessions|;
      (s.(sessions := s.sessions + [Session(id, AwaitRuntime, None, 0, {}, 0, false, false)],
          openingSessions := s.openingSessions[id := n]),
       WaitsForOpening(n, true))
  }

  predicate Settled(x: Session) { x.stage.Opened? || x.stage.Rejected? }

  predicate MayDispose(x: Session, idle: bool, closing: bool) {
    && x.stage.Opened? && !closing && !x.disposing
    && x.connections == {} && x.operations == 0 && (x.terminal || idle)
  }

  predicate MayOperate(s: State, conn: nat, id: Id)
    requires id in s.liveSessions ==> s.liveSessions[id] < |s.sessions|
  {
    && conn in s.connections && id in s.connections[conn].sessionIds && id in s.liveSessions
    && !s.sessions[s.liveSessions[id]].terminal && !s.sessions[s.liveSessions[id]].disposing
  }

  /** disconnect removes the connection from the live sessions registered under the ids it lists. */
  function WithoutConnection(s: State, conn: nat): (r: seq<Session>)
    requires conn in s.connections
    ensures |r| == |s.sessions|
    ensures forall n :: 0 <= n < |r| ==> r[n] == LeftBy(s, conn, s.sessions[n], n)
  {
    seq(|s.sessions|, n requires 0 <= n < |s.sessions| => LeftBy(s, conn, s.sessions[n], n))
  }

  function LeftBy(s: State, conn: nat, x: Session, n: nat): Session
    requires conn in s.connections
  {
    if x.id in s.connections[conn].sessionIds && Listed(s.liveSessions, x.id, n)
    then x.(connections := x.connections - {conn}) else x
  }

  /** close() disposes of the registered sessions that are not already being disposed of. */
  function AfterClose(live: map<Id, nat>, sessions: seq<Session>): (r: seq<Session>)
    ensures |r| == |sessions|
    ensures forall n :: 0 <= n < |r| ==>
      r[n] == if Listed(live, sessions[n].id, n) && !sessions[n].disposing then CallDispose(sessions[n])
          else sessions[n]
  {
    seq(|sessions|, n requires 0 <= n < |sessions| =>
      if Listed(live, sessions[n].id, n) && !sessions[n].disposing then CallDispose(sessions[n]) else sessions[n])
  }

  function AcquirerStep(s: State, e: Event): State
    requires Refs(s) && (e.Acquire? || e.DisposalSeen? || e.OpeningSeen?)
  {
    match e
    case Acquire(id) =>
      var (t, p) := AcquireHead(s, id);
      t.(acquirers := t.acquirers + [Acquirer(id, p)])
    case DisposalSeen(a, failed) =>
      if a < |s.acquirers| && s.acquirers[a].progress.WaitsForDisposal?
         && s.sessions[s.acquirers[a].progress.n].runtime.Disposed? then
        var id := s.acquirers[a].id;
        var (t, p) := if failed then (s, Refused) else AcquireHead(s, id);
        t.(acquirers := t.acquirers[a := Acquirer(id, p)])
      else s
    case OpeningSeen(a) =>
      if a < |s.acquirers| && s.acquirers[a].progress.WaitsForOpening? &&
          Settled(s.sessions[s.acquirers[a].progress.n]) then
        var id, n := s.acquirers[a].id, s.acquirers[a].progress.n;
        var p := if s.sessions[n].stage.Opened? then Got(n) else Refused;
        var drop := s.acquirers[a].progress.owns && Listed(s.openingSessions, id, n);
        s.(acquirers := s.acquirers[a := Acquirer(id, p)],
           openingSessions := if drop then s.openingSessions - {id} else s.openingSessions)
      else s
  }

  /** `create` after each of its awaits. */
  function CreationNext(x: Session, e: Event, closing: bool): Session
    requires e.RuntimeAnswer? || e.SnapshotAnswer? || e.CreateDisposed?
  {
    match e
    case RuntimeAnswer(_, ok) =>
      if !x.stage.AwaitRuntime? then x
      else if !ok then x.(stage := Rejected)
      else if closing then CallDispose(x).(stage := AwaitDispose)
      else x.(runtime := Held, stage := AwaitSnapshot)
    case SnapshotAnswer(_, ok) =>
      if !x.stage.AwaitSnapshot? then x
      else if ok then x.(stage := Opened)
      else CallDispose(x).(stage := AwaitDispose)
    case CreateDisposed(_) =>
      if x.stage.AwaitDispose? then x.(runtime := Disposed, stage := Rejected) else x
  }

  /** A session that opens is registered. */
  function CreationStep(s: State, e: Event): State
    requires e.RuntimeAnswer? || e.SnapshotAnswer? || e.CreateDisposed?
  {
    if e.n >= |s.sessions| then s
    else
      var x := s.sessions[e.n];
      var y := CreationNext(x, e, s.closing);
      var t := SetSession(s, e.n, y);
      if y.stage.Opened? && !x.stage.Opened? then t.(liveSessions := s.liveSessions[x.id := e.n]) else t
  }

  /**
   * A live session at the start and the end of its disposal, at the end of an operation, and when its runtime fails.
   */
  function LiveNext(x: Session, e: Event, closing: bool): Session
    requires e.MaybeDispose? || e.DisposeDone? || e.EndOperation? || e.Terminate? || e.CloseDisposed?
  {
    match e
    case MaybeDispose(_, idle) => if MayDispose(x, idle, closing) then CallDispose(x).(disposing := true) else x
    case DisposeDone(_) => if x.disposing && x.runtime.Disposing? then x.(runtime := Disposed) else x
    case EndOperation(_) => if x.operations > 0 then x.(operations := x.operations - 1) else x
    case Terminate(_) => if x.stage.Opened? then x.(terminal := true) else x
    case CloseDisposed(_) =>
      if closing && x.stage.Opened? && !x.disposing && x.runtime.Disposing? then x.(runtime := Disposed) else x
  }

  /** A session whose disposal ends is taken off the list, if it is still the one listed. */
  function LiveStep(s: State, e: Event): State
    requires e.MaybeDispose? || e.DisposeDone? || e.EndOperation? || e.Terminate? || e.CloseDisposed?
  {
    if e.n >= |s.sessions| then s
    else
      var x := s.sessions[e.n];
      var y := LiveNext(x, e, s.closing);
      var t := SetSession(s, e.n, y);
      if e.DisposeDone? && y != x && Listed(s.liveSessions, x.id, e.n)
      then t.(liveSessions := s.liveSessions - {x.id}) else t
  }

  function ConnectionStep(s: State, e: Event): State
    requires Refs(s)
    requires e.Connect? || e.Attach? || e.Detach? || e.CloseConnection? || e.Disconnect? || e.StartOperation?
  {
    match e
    case Connect(conn) =>
      if conn in s.connections then s else s.(connections := s.connections[conn := Connection({}, true)])
    case Attach(conn, n) =>
      if conn in s.connections && s.connections[conn].usable && n < |s.sessions| && s.sessions[n].stage.Opened? then
        var x, k := s.sessions[n], s.connections[conn];
        SetSession(s, n, x.(connections := x.connections + {conn})).(
          connections := s.connections[conn := k.(sessionIds := k.sessionIds + {x.id})])
      else s
    case Detach(conn, id) =>
      if conn in s.connections && id in s.connections[conn].sessionIds then
        var k := s.connections[conn];
        var t := s.(connections := s.connections[conn := k.(sessionIds := k.sessionIds - {id})]);
        if id !in s.liveSessions then t
        else
          var n := s.liveSessions[id];
          SetSession(t, n, s.sessions[n].(connections := s.sessions[n].connections - {conn}))
      else s
    case CloseConnection(conn) =>
      if conn !in s.connections then s
      else s.(connections := s.connections[conn := s.connections[conn].(usable := false)])
    case Disconnect(conn) =>
      if conn !in s.connections then s
      else s.(connections := s.connections[conn := Connection({}, false)],
              sessions := WithoutConnection(s, conn))
    case StartOperation(conn, id) =>
      if MayOperate(s, conn, id) then
        var n := s.liveSessions[id];
        SetSession(s, n, s.sessions[n].(operations := s.sessions[n].operations + 1))
      else s
  }

  function Step(s: State, e: Event): State
    requires Refs(s)
  {
    if e.BeginClose? then s.(closing := true)
    else if e.CloseAll? then
      if s.closing then s.(liveSessions := map[], sessions := AfterClose(s.liveSessions, s.sessions)) else s
    else if e.Acquire? || e.DisposalSeen? || e.OpeningSeen? then AcquirerStep(s, e)
    else if e.RuntimeAnswer? || e.SnapshotAnswer? || e.CreateDisposed? then CreationStep(s, e)
    else if e.MaybeDispose? || e.DisposeDone? || e.EndOperation? || e.Terminate? || e.CloseDisposed? then LiveStep(s, e)
    else ConnectionStep(s, e)
  }

  // ---------------------------------------------------------------- the invariant

  /** What one session's own fields say. */
  predicate FieldsOk(x: Session) {
    && (x.stage.AwaitRuntime? ==> x.runtime.None?)
    && (x.stage.AwaitSnapshot? ==> x.runtime.Held?)
    && (x.stage.AwaitDispose? ==> x.runtime.Disposing?)
    && (x.stage.Opened? ==> !x.runtime.None?)
    && (x.stage.Rejected? ==> x.runtime.None? || x.runtime.Disposed?)
    && x.disposeCalls == (if x.runtime.Disposing? || x.runtime.Disposed? then 1 else 0)
    && (x.disposing ==> x.stage.Opened? && !x.runtime.Held? && x.operations == 0)
    && (!x.stage.Opened? ==> x.operations == 0)
  }

  /**
   * An unsettled creation is its id's opening; while the server is open an undisposed session is its id's live
   * session.
   */
  predicate SessionOk(live: map<Id, nat>, opening: map<Id, nat>, closing: bool, x: Session, n: nat) {
    && FieldsOk(x)
    && (x.stage.Opened? && !x.disposing && (!closing || Listed(live, x.id, n)) ==> x.runtime.Held?)
    && (!Settled(x) ==> Listed(opening, x.id, n) && x.id !in live)
    && (!closing && x.stage.Opened? && !x.runtime.Disposed? ==> Listed(live, x.id, n))
    && (Listed(live, x.id, n) ==> !x.runtime.Disposed?)
  }

  ghost predicate Inv(s: State) {
    && Refs(s)
    && (forall n :: 0 <= n < |s.sessions| ==> SessionOk(s.liveSessions, s.openingSessions, s.closing, s.sessions[n], n))
  }

  /** Replacing one session by one that is still ok in the same maps. */
  lemma SetSessionKeepsInv(s: State, n: nat, x: Session)
    requires Inv(s) && n < |s.sessions|
    requires var y := s.sessions[n];
             x.id == y.id && (y.stage.Opened? ==> x.stage.Opened?) && (y.disposing ==> x.disposing)
    requires SessionOk(s.liveSessions, s.openingSessions, s.closing, x, n)
    ensures Inv(SetSession(s, n, x))
  {
  }

  /** A session leaves the awaits of its creation and becomes its id's live session. */
  lemma OpenKeepsInv(s: State, n: nat)
    requires Inv(s) && n < |s.sessions| && s.sessions[n].stage.AwaitSnapshot?
    ensures Inv(CreationStep(s, SnapshotAnswer(n, true)))
  {
    var x, t := s.sessions[n], CreationStep(s, SnapshotAnswer(n, true));
    assert SessionOk(s.liveSessions, s.openingSessions, s.closing, x, n);
    forall k | 0 <= k < |s.sessions|
      ensures SessionOk(t.liveSessions, t.openingSessions, t.closing, t.sessions[k], k)
    {
      OpenKeepsSession(s, n, k);
    }
    OpenKeepsRefs(s, n);
  }

  lemma OpenKeepsSession(s: State, n: nat, k: nat)
    requires Inv(s) && n < |s.sessions| && s.sessions[n].stage.AwaitSnapshot? && k < |s.sessions|
    ensures var t := CreationStep(s, SnapshotAnswer(n, true));
      SessionOk(t.liveSessions, t.openingSessions, t.closing, t.sessions[k], k)
  {
    assert SessionOk(s.liveSessions, s.openingSessions, s.closing, s.sessions[n], n);
    assert SessionOk(s.liveSessions, s.openingSessions, s.closing, s.sessions[k], k);
  }

  lemma OpenKeepsRefs(s: State, n: nat)
    requires Inv(s) && n < |s.sessions| && s.sessions[n].stage.AwaitSnapshot?
    ensures Refs(CreationStep(s, SnapshotAnswer(n, true)))
  {
    forall a | 0 <= a < |s.acquirers| ensures AcquirerOk(CreationStep(s, SnapshotAnswer(n, true)), s.acquirers[a]) {
      assert AcquirerOk(s, s.acquirers[a]);
    }
  }

  /** The state in which the disposal of session n has ended: it is taken off the list in the same step. */
  predicate DisposalEnded(s: State, n: nat, t: State) {
    && n < |s.sessions| && s.sessions[n].disposing && s.sessions[n].runtime.Disposing?
    && t == s.(sessions := s.sessions[n := s.sessions[n].(runtime := Disposed)],
               liveSessions := if Listed(s.liveSessions, s.sessions[n].id, n) then s.liveSessions - {s.sessions[n].id}
                               else s.liveSessions)
  }

  lemma EndedRefs(s: State, n: nat, t: State)
    requires Refs(s) && DisposalEnded(s, n, t)
    ensures Refs(t)
  {
    forall a | 0 <= a < |t.acquirers| ensures AcquirerOk(t, t.acquirers[a]) {
      assert AcquirerOk(s, s.acquirers[a]);
    }
  }

  lemma EndedSession(s: State, n: nat, t: State, k: nat)
    requires Inv(s) && DisposalEnded(s, n, t) && k < |s.sessions|
    ensures SessionOk(t.liveSessions, t.openingSessions, t.closing, t.sessions[k], k)
  {
    assert SessionOk(s.liveSessions, s.openingSessions, s.closing, s.sessions[k], k);
    assert SessionOk(s.liveSessions, s.openingSessions, s.closing, s.sessions[n], n);
  }

  lemma DisposeDoneKeepsInv(s: State, n: nat)
    requires Inv(s)
    ensures Inv(LiveStep(s, DisposeDone(n)))
  {
    var t := LiveStep(s, DisposeDone(n));
    if n < |s.sessions| && s.sessions[n].disposing && s.sessions[n].runtime.Disposing? {
      assert DisposalEnded(s, n, t);
      EndedRefs(s, n, t);
      forall k | 0 <= k < |t.sessions|
        ensures SessionOk(t.liveSessions, t.openingSessions, t.closing, t.sessions[k], k)
      {
        EndedSession(s, n, t, k);
      }
    } else {
      assert t == s;
    }
  }

  lemma CreationStepKeepsInv(s: State, e: Event)
    requires Inv(s) && (e.RuntimeAnswer? || e.SnapshotAnswer? || e.CreateDisposed?)
    ensures Inv(CreationStep(s, e))
  {
    if e.n < |s.sessions| {
      if e.SnapshotAnswer? && e.ok && s.sessions[e.n].stage.AwaitSnapshot? {
        OpenKeepsInv(s, e.n);
      } else {
        SetSessionKeepsInv(s, e.n, CreationNext(s.sessions[e.n], e, s.closing));
      }
    }
  }

  lemma LiveStepKeepsInv(s: State, e: Event)
    requires Inv(s)
    requires e.MaybeDispose? || e.DisposeDone? || e.EndOperation? || e.Terminate? || e.CloseDisposed?
    ensures Inv(LiveStep(s, e))
  {
    if e.DisposeDone? {
      DisposeDoneKeepsInv(s, e.n);
    } else if e.n < |s.sessions| {
      SetSessionKeepsInv(s, e.n, LiveNext(s.sessions[e.n], e, s.closing));
    }
  }

  /** The connections do not matter to Inv. */
  lemma AnyConnections(s: State, connections: map<nat, Connection>)
    requires Inv(s)
    ensures Inv(s.(connections := connections))
  {
  }

  lemma DisconnectKeepsInv(s: State, conn: nat)
    requires Inv(s)
    ensures Inv(ConnectionStep(s, Disconnect(conn)))
  {
  }

  lemma ConnectionStepKeepsInv(s: State, e: Event)
    requires Inv(s)
    requires e.Connect? || e.Attach? || e.Detach? || e.CloseConnection? || e.Disconnect? || e.StartOperation?
    ensures Inv(ConnectionStep(s, e))
  {
    var t := ConnectionStep(s, e);
    if e.Disconnect? {
      DisconnectKeepsInv(s, e.conn);
    } else {
      AnyConnections(s, t.connections);
      if e.Attach? && t != s {
        SetSessionKeepsInv(s.(connections := t.connections), e.n, t.sessions[e.n]);
      } else if (e.Detach? || e.StartOperation?) && t != s && e.id in s.liveSessions {
        var n := s.liveSessions[e.id];
        SetSessionKeepsInv(s.(connections := t.connections), n, t.sessions[n]);
      }
    }
  }

  /** A creation begins under an id that has neither a live session nor an opening. */
  lemma BeginCreationKeepsInv(s: State, id: Id, t: State)
    requires Inv(s) && id !in s.liveSessions && id !in s.openingSessions
    requires t == s.(sessions := s.sessions + [Session(id, AwaitRuntime, None, 0, {}, 0, false, false)],
                     openingSessions := s.openingSessions[id := |s.sessions|])
    ensures Inv(t)
  {
    forall n | 0 <= n < |t.sessions|
      ensures SessionOk(t.liveSessions, t.openingSessions, t.closing, t.sessions[n], n)
    {
      if n < |s.sessions| {
        assert SessionOk(s.liveSessions, s.openingSessions, s.closing, s.sessions[n], n);
      }
    }
    forall a | 0 <= a < |t.acquirers| ensures AcquirerOk(t, t.acquirers[a]) {
      assert AcquirerOk(s, s.acquirers[a]);
    }
  }

  lemma AcquireHeadKeepsInv(s: State, id: Id)
    requires Inv(s)
    ensures var (t, p) := AcquireHead(s, id); Inv(t) && t.acquirers == s.acquirers && AcquirerOk(t, Acquirer(id, p))
  {
    if id !in s.liveSessions && id !in s.openingSessions {
      BeginCreationKeepsInv(s, id, AcquireHead(s, id).0);
    }
  }

  lemma SetAcquirersKeepsInv(s: State, acquirers: seq<Acquirer>)
    requires Inv(s)
    requires forall a :: 0 <= a < |acquirers| ==> AcquirerOk(s, acquirers[a])
    ensures Inv(s.(acquirers := acquirers))
  {
    var t := s.(acquirers := acquirers);
    forall a | 0 <= a < |acquirers| ensures AcquirerOk(t, acquirers[a]) {
      assert AcquirerOk(s, acquirers[a]);
    }
  }

  /** The owner of a settled opening takes it off the list. */
  lemma DropOpeningKeepsInv(s: State, id: Id)
    requires Inv(s) && id in s.openingSessions && Settled(s.sessions[s.openingSessions[id]])
    ensures Inv(s.(openingSessions := s.openingSessions - {id}))
  {
    var t := s.(openingSessions := s.openingSessions - {id});
    forall a | 0 <= a < |t.acquirers| ensures AcquirerOk(t, t.acquirers[a]) {
      assert AcquirerOk(s, t.acquirers[a]);
    }
  }

  lemma OpeningSeenKeepsInv(s: State, a: nat)
    requires Inv(s)
    ensures Inv(AcquirerStep(s, OpeningSeen(a)))
  {
    var t := AcquirerStep(s, OpeningSeen(a));
    if t != s {
      var id := s.acquirers[a].id;
      assert AcquirerOk(s, t.acquirers[a]);
      SetAcquirersKeepsInv(s, t.acquirers);
      if t.openingSessions != s.openingSessions {
        DropOpeningKeepsInv(s.(acquirers := t.acquirers), id);
      }
    }
  }

  lemma AcquirerStepKeepsInv(s: State, e: Event)
    requires Inv(s) && (e.Acquire? || e.DisposalSeen? || e.OpeningSeen?)
    ensures Inv(AcquirerStep(s, e))
  {
    if e.OpeningSeen? {
      OpeningSeenKeepsInv(s, e.a);
    } else if e.Acquire? || (e.a < |s.acquirers| && !e.failed) {
      var id := if e.Acquire? then e.id else s.acquirers[e.a].id;
      AcquireHeadKeepsInv(s, id);
      SetAcquirersKeepsInv(if AcquirerStep(s, e) == s then s else AcquireHead(s, id).0, AcquirerStep(s, e).acquirers);
    } else {
      SetAcquirersKeepsInv(s, AcquirerStep(s, e).acquirers);
    }
  }

  lemma CloseKeepsInv(s: State, e: Event)
    requires Inv(s) && (e.BeginClose? || e.CloseAll?)
    ensures Inv(Step(s, e))
  {
  }

  lemma StepKeepsInv(s: State, e: Event)
    requires Inv(s)
    ensures Inv(Step(s, e))
  {
    if e.BeginClose? || e.CloseAll? {
      CloseKeepsInv(s, e);
    } else if e.Acquire? || e.DisposalSeen? || e.OpeningSeen? {
      AcquirerStepKeepsInv(s, e);
    } else if e.RuntimeAnswer? || e.SnapshotAnswer? || e.CreateDisposed? {
      CreationStepKeepsInv(s, e);
    } else if e.MaybeDispose? || e.DisposeDone? || e.EndOperation? || e.Terminate? || e.CloseDisposed? {
      LiveStepKeepsInv(s, e);
    } else {
      ConnectionStepKeepsInv(s, e);
    }
  }

  /** The state after a run; every state it passes through satisfies the invariant. */
  ghost function Run(s: State, es: seq<Event>): (t: State)
    requires Inv(s)
    ensures Inv(t)
    decreases |es|
  {
    if es == [] then s
    else
      StepKeepsInv(s, es[0]);
      Run(Step(s, es[0]), es[1..])
  }

  /** The state a run of the server ends in. */
  ghost function Reached(es: seq<Event>): (t: State)
    ensures Inv(t)
  {
    Run(INITIAL, es)
  }

  // ---------------------------------------------------------------- ownership

  /** An opening in progress, or an acquired runtime whose disposal has not finished. */
  predicate Active(x: Session) { !Settled(x) || x.runtime.Held? || x.runtime.Disposing? }

  /**
   * While the server is open each id has at most one active session: one unfinished opening, shared by all its
   * acquirers, or one runtime not yet disposed of, never both.
   */
  lemma OneRuntimePerId(es: seq<Event>, i: nat, j: nat)
    requires var s := Reached(es);
      && !s.closing && i < |s.sessions| && j < |s.sessions| && s.sessions[i].id == s.sessions[j].id
      && Active(s.sessions[i]) && Active(s.sessions[j])
    ensures i == j
  {
    var s := Reached(es);
    assert SessionOk(s.liveSessions, s.openingSessions, s.closing, s.sessions[i], i);
    assert SessionOk(s.liveSessions, s.openingSessions, s.closing, s.sessions[j], j);
  }

  /** Two acquirers of one id that await unfinished openings await the same one, closing or not. */
  lemma AcquirersShareTheOpening(es: seq<Event>, a: nat, b: nat)
    requires var s := Reached(es);
      && a < |s.acquirers| && b < |s.acquirers| && s.acquirers[a].id == s.acquirers[b].id
      && s.acquirers[a].progress.WaitsForOpening? && s.acquirers[b].progress.WaitsForOpening?
      && !Settled(s.sessions[s.acquirers[a].progress.n]) && !Settled(s.sessions[s.acquirers[b].progress.n])
    ensures var s := Reached(es); s.acquirers[a].progress.n == s.acquirers[b].progress.n
  {
    var s := Reached(es);
    var i, j := s.acquirers[a].progress.n, s.acquirers[b].progress.n;
    assert AcquirerOk(s, s.acquirers[a]) && AcquirerOk(s, s.acquirers[b]);
    assert SessionOk(s.liveSessions, s.openingSessions, s.closing, s.sessions[i], i);
    assert SessionOk(s.liveSessions, s.openingSessions, s.closing, s.sessions[j], j);
  }

  /** What later steps can make of a session. */
  predicate Later(x: Session, y: Session) {
    && y.id == x.id
    && (Settled(x) ==> y.stage == x.stage)
    && (x.runtime.Disposed? ==> y.runtime.Disposed?)
    && (x.disposing ==> y.disposing)
    && (x.disposeCalls > 0 ==> y.disposeCalls > 0)
    && (x.terminal ==> y.terminal)
  }

  /**
   * What one step does to session n: it only moves forward; operations start on a held runtime; while the server is
   * open, dispose is called on a live session only when it is registered and unused, and idle or terminal.
   */
  predicate StepAllowed(s: State, e: Event, n: nat, y: Session)
    requires n < |s.sessions|
  {
    var x := s.sessions[n];
    && Later(x, y)
    && (y.operations > x.operations ==> e.StartOperation? && x.runtime.Held? && x.disposeCalls == 0)
    && (x.stage.Opened? && y.disposeCalls != x.disposeCalls && !s.closing ==>
          && Listed(s.liveSessions, x.id, n) && x.connections == {} && x.operations == 0
          && e.MaybeDispose? && e.n == n && (x.terminal || e.idle))
  }

  lemma AcquirerStepAllowed(s: State, e: Event, n: nat)
    requires Inv(s) && n < |s.sessions| && (e.Acquire? || e.DisposalSeen? || e.OpeningSeen?)
    ensures n < |AcquirerStep(s, e).sessions| && StepAllowed(s, e, n, AcquirerStep(s, e).sessions[n])
  {
    assert AcquirerStep(s, e).sessions[n] == s.sessions[n];
  }

  lemma CreationStepAllowed(s: State, e: Event, n: nat)
    requires e.RuntimeAnswer? || e.SnapshotAnswer? || e.CreateDisposed?
    requires n < |s.sessions| && FieldsOk(s.sessions[n])
    ensures n < |CreationStep(s, e).sessions| && StepAllowed(s, e, n, CreationStep(s, e).sessions[n])
  {
    CreationMovesForward(s.sessions[n], e, s.closing);
    var y := CreationStep(s, e).sessions[n];
    assert y == s.sessions[n] || y == CreationNext(s.sessions[n], e, s.closing);
  }

  lemma CreationMovesForward(x: Session, e: Event, closing: bool)
    requires (e.RuntimeAnswer? || e.SnapshotAnswer? || e.CreateDisposed?) && FieldsOk(x)
    ensures var y := CreationNext(x, e, closing);
      Later(x, y) && y.operations == x.operations && (x.stage.Opened? ==> y == x)
  {
  }

  lemma LiveStepAllowed(s: State, e: Event, n: nat)
    requires e.MaybeDispose? || e.DisposeDone? || e.EndOperation? || e.Terminate? || e.CloseDisposed?
    requires n < |s.sessions| && SessionOk(s.liveSessions, s.openingSessions, s.closing, s.sessions[n], n)
    ensures n < |LiveStep(s, e).sessions| && StepAllowed(s, e, n, LiveStep(s, e).sessions[n])
  {
    var y := LiveStep(s, e).sessions[n];
    assert y == s.sessions[n] || (e.n == n && y == LiveNext(s.sessions[n], e, s.closing));
  }

  lemma ConnectionStepAllowed(s: State, e: Event, n: nat)
    requires Inv(s) && n < |s.sessions|
    requires e.Connect? || e.Attach? || e.Detach? || e.CloseConnection? || e.Disconnect? || e.StartOperation?
    ensures n < |ConnectionStep(s, e).sessions| && StepAllowed(s, e, n, ConnectionStep(s, e).sessions[n])
  {
    assert SessionOk(s.liveSessions, s.openingSessions, s.closing, s.sessions[n], n);
  }

  lemma EveryStepAllowed(s: State, e: Event, n: nat)
    requires Inv(s) && n < |s.sessions|
    ensures n < |Step(s, e).sessions| && StepAllowed(s, e, n, Step(s, e).sessions[n])
  {
    if e.BeginClose? || e.CloseAll? {
    } else if e.Acquire? || e.DisposalSeen? || e.OpeningSeen? {
      AcquirerStepAllowed(s, e, n);
    } else if e.RuntimeAnswer? || e.SnapshotAnswer? || e.CreateDisposed? {
      assert SessionOk(s.liveSessions, s.openingSessions, s.closing, s.sessions[n], n);
      CreationStepAllowed(s, e, n);
    } else if e.MaybeDispose? || e.DisposeDone? || e.EndOperation? || e.Terminate? || e.CloseDisposed? {
      assert SessionOk(s.liveSessions, s.openingSessions, s.closing, s.sessions[n], n);
      LiveStepAllowed(s, e, n);
    } else {
      ConnectionStepAllowed(s, e, n);
    }
  }

  /**
   * What later steps can make of an acquirer: who waits for an opening gets that opening's session once it is open
   * or is refused once it has failed; who waits for a disposal goes on only when it has finished.
   */
  ghost predicate AcquirerLater(t: State, a: Acquirer, b: Acquirer) {
    && AcquirerOk(t, a) && b.id == a.id
    && (b == a ||
        match a.progress
        case WaitsForOpening(n, _) =>
          if t.sessions[n].stage.Opened? then b.progress == Got(n)
          else t.sessions[n].stage.Rejected? && b.progress == Refused
        case WaitsForDisposal(n) => t.sessions[n].runtime.Disposed?
        case _ => false)
  }

  ghost predicate Evolves(s: State, t: State) {
    && |s.sessions| <= |t.sessions| && |s.acquirers| <= |t.acquirers|
    && (forall n :: 0 <= n < |s.sessions| ==> Later(s.sessions[n], t.sessions[n]))
    && (forall a :: 0 <= a < |s.acquirers| ==> AcquirerLater(t, s.acquirers[a], t.acquirers[a]))
  }

  lemma SessionsEvolve(s: State, e: Event)
    requires Inv(s)
    ensures |s.sessions| <= |Step(s, e).sessions|
    ensures forall n :: 0 <= n < |s.sessions| ==> Later(s.sessions[n], Step(s, e).sessions[n])
  {
    if |s.sessions| > 0 {
      EveryStepAllowed(s, e, |s.sessions| - 1);
    }
    forall n | 0 <= n < |s.sessions| ensures Later(s.sessions[n], Step(s, e).sessions[n]) {
      EveryStepAllowed(s, e, n);
    }
  }

  /** A step either leaves an acquirer alone or finds what it waits for settled. */
  lemma AcquirerMoves(s: State, e: Event, a: nat)
    requires Inv(s) && a < |s.acquirers|
    ensures a < |Step(s, e).acquirers|
    ensures Step(s, e).acquirers[a] == s.acquirers[a] || AcquirerLater(s, s.acquirers[a], Step(s, e).acquirers[a])
  {
    assert AcquirerOk(s, s.acquirers[a]);
    if e.DisposalSeen? || e.OpeningSeen? {
      AcquirerAnswered(s, e, a);
    } else if e.Acquire? {
      AcquireAppends(s, e.id);
    } else {
      OthersKeepAcquirers(s, e);
    }
  }

  lemma AcquireAppends(s: State, id: Id)
    requires Refs(s)
    ensures exists p :: AcquirerStep(s, Acquire(id)).acquirers == s.acquirers + [Acquirer(id, p)]
  {
    assert AcquirerStep(s, Acquire(id)).acquirers == s.acquirers + [Acquirer(id, AcquireHead(s, id).1)];
  }

  lemma OthersKeepAcquirers(s: State, e: Event)
    requires Refs(s) && !e.Acquire? && !e.DisposalSeen? && !e.OpeningSeen?
    ensures Step(s, e).acquirers == s.acquirers
  {
    if e.Connect? || e.Attach? || e.Detach? || e.CloseConnection? || e.Disconnect? || e.StartOperation? {
      ConnectionKeepsAcquirers(s, e);
    }
  }

  lemma ConnectionKeepsAcquirers(s: State, e: Event)
    requires Refs(s)
    requires e.Connect? || e.Attach? || e.Detach? || e.CloseConnection? || e.Disconnect? || e.StartOperation?
    ensures ConnectionStep(s, e).acquirers == s.acquirers
  {
  }

  lemma AcquirerAnswered(s: State, e: Event, a: nat)
    requires Inv(s) && a < |s.acquirers| && (e.DisposalSeen? || e.OpeningSeen?)
    ensures a < |AcquirerStep(s, e).acquirers|
    ensures AcquirerLater(s, s.acquirers[a], AcquirerStep(s, e).acquirers[a])
  {
    assert AcquirerOk(s, s.acquirers[a]);
  }

  lemma AcquirerLaterHolds(s: State, t: State, a: Acquirer, b: Acquirer)
    requires |s.sessions| <= |t.sessions| && forall n :: 0 <= n < |s.sessions| ==> Later(s.sessions[n], t.sessions[n])
    requires AcquirerLater(s, a, b)
    ensures AcquirerLater(t, a, b)
  {
  }

  lemma StepEvolves(s: State, e: Event, t: State)
    requires Inv(s) && t == Step(s, e)
    ensures Evolves(s, t)
  {
    SessionsEvolve(s, e);
    if |s.acquirers| > 0 {
      AcquirerMoves(s, e, |s.acquirers| - 1);
    }
    forall a | 0 <= a < |s.acquirers| ensures AcquirerLater(t, s.acquirers[a], t.acquirers[a]) {
      AcquirerMoves(s, e, a);
      AcquirerLaterHolds(s, t, s.acquirers[a], t.acquirers[a]);
    }
  }

  lemma EvolvesTransitive(s: State, t: State, u: State)
    requires Evolves(s, t) && Evolves(t, u)
    ensures Evolves(s, u)
  {
  }

  /** Over every run, from every reachable state, sessions and acquirers only move forward. */
  lemma {:induction false} RunEvolves(s: State, es: seq<Event>)
    requires Inv(s)
    ensures Evolves(s, Run(s, es))
    decreases |es|
  {
    if es != [] {
      StepKeepsInv(s, es[0]);
      StepEvolves(s, es[0], Step(s, es[0]));
      RunEvolves(Step(s, es[0]), es[1..]);
      EvolvesTransitive(s, Step(s, es[0]), Run(s, es));
    }
  }

  // ---------------------------------------------------------------- disposal and operations

  /** Every runtime is disposed of at most once, closing or not. */
  lemma DisposedAtMostOnce(es: seq<Event>, n: nat)
    requires n < |Reached(es).sessions|
    ensures Reached(es).sessions[n].disposeCalls <= 1
  {
    var s := Reached(es);
    assert SessionOk(s.liveSessions, s.openingSessions, s.closing, s.sessions[n], n);
  }

  /** While the server is open a session with a running operation is registered and nothing has disposed of it. */
  lemma NoOperationDuringDisposal(es: seq<Event>, n: nat)
    requires var s := Reached(es); n < |s.sessions| && !s.closing && s.sessions[n].operations > 0
    ensures var s := Reached(es);
      s.sessions[n].runtime.Held? && !s.sessions[n].disposing && Listed(s.liveSessions, s.sessions[n].id, n)
  {
    var s := Reached(es);
    assert SessionOk(s.liveSessions, s.openingSessions, s.closing, s.sessions[n], n);
  }

  /**
   * close() does not wait for running operations, so the previous bound needs the server to be open: of the sessions
   * not yet disposed of, it disposes of exactly the registered ones, and of one with an operation running exactly then.
   */
  lemma CloseOvertakesExactly(s: State, n: nat)
    requires Inv(s) && s.closing && n < |s.sessions| && s.sessions[n].disposeCalls == 0
    ensures var y := Step(s, CloseAll).sessions[n];
            && y.operations == s.sessions[n].operations
            && (y.disposeCalls > 0 <==> Listed(s.liveSessions, s.sessions[n].id, n))
            && (y.disposeCalls > 0 && y.operations > 0 <==>
                Listed(s.liveSessions, s.sessions[n].id, n) && s.sessions[n].operations > 0)
  {
    assert SessionOk(s.liveSessions, s.openingSessions, s.closing, s.sessions[n], n);
  }

  // ---------------------------------------------------------------- states that are reached

  ghost predicate IsReached(t: State) { exists es :: Reached(es) == t }

  lemma {:induction false} RunAppend(s: State, es: seq<Event>, e: Event)
    requires Inv(s)
    ensures Run(s, es + [e]) == Step(Run(s, es), e)
    decreases |es|
  {
    if es == [] {
      StepKeepsInv(s, e);
      assert ([] + [e])[1..] == [];
      assert Run(s, [e]) == Run(Step(s, e), [e][1..]);
    } else {
      StepKeepsInv(s, es[0]);
      assert (es + [e])[1..] == es[1..] + [e];
      RunAppend(Step(s, es[0]), es[1..], e);
    }
  }

  lemma StartIsReached()
    ensures IsReached(INITIAL) && Inv(INITIAL)
  {
    assert Reached([]) == INITIAL;
  }

  lemma StepIsReached(s: State, e: Event)
    requires IsReached(s)
    ensures Inv(s) && IsReached(Step(s, e))
  {
    var es :| Reached(es) == s;
    RunAppend(INITIAL, es, e);
    assert Reached(es + [e]) == Step(s, e);
  }

  /** A session of its own just opened for a connection, acquired and not attached yet. */
  function JustOpened(id: Id, conn: nat): State {
    State(map[id := 0], map[], [Session(id, Opened, Held, 0, {}, 0, false, false)], [Acquirer(id, Got(0))],
          map[conn := Connection({}, true)], false)
  }

  lemma JustOpenedIsReached(id: Id, conn: nat)
    ensures IsReached(JustOpened(id, conn))
  {
    StartIsReached();
    var s1 := State(map[], map[], [], [], map[conn := Connection({}, true)], false);
    StepIsReached(INITIAL, Connect(conn));
    assert Step(INITIAL, Connect(conn)) == s1;
    OpeningIsReached(s1, id, conn);
  }

  lemma OpeningIsReached(s1: State, id: Id, conn: nat)
    requires IsReached(s1) && s1 == State(map[], map[], [], [], map[conn := Connection({}, true)], false)
    ensures IsReached(JustOpened(id, conn))
  {
    var x := Session(id, AwaitRuntime, None, 0, {}, 0, false, false);
    var s2 := s1.(openingSessions := map[id := 0], sessions := [x],
                  acquirers := [Acquirer(id, WaitsForOpening(0, true))]);
    StepIsReached(s1, Acquire(id));
    assert Step(s1, Acquire(id)) == s2;
    SnapshotIsReached(s2, id, conn);
  }

  lemma SnapshotIsReached(s2: State, id: Id, conn: nat)
    requires IsReached(s2)
    requires s2 == State(map[], map[id := 0], [Session(id, AwaitRuntime, None, 0, {}, 0, false, false)],
                         [Acquirer(id, WaitsForOpening(0, true))], map[conn := Connection({}, true)], false)
    ensures IsReached(JustOpened(id, conn))
  {
    var s3 := s2.(sessions := [Session(id, AwaitSnapshot, Held, 0, {}, 0, false, false)]);
    StepIsReached(s2, RuntimeAnswer(0, true));
    assert CreationStep(s2, RuntimeAnswer(0, true)) == s3;
    var s4 := s3.(sessions := [Session(id, Opened, Held, 0, {}, 0, false, false)], liveSessions := map[id := 0]);
    StepIsReached(s3, SnapshotAnswer(0, true));
    assert CreationStep(s3, SnapshotAnswer(0, true)) == s4;
    OpenedIsReached(s4, id, conn);
  }

  lemma OpenedIsReached(s4: State, id: Id, conn: nat)
    requires IsReached(s4)
    requires s4 == State(map[id := 0], map[id := 0], [Session(id, Opened, Held, 0, {}, 0, false, false)],
                         [Acquirer(id, WaitsForOpening(0, true))], map[conn := Connection({}, true)], false)
    ensures IsReached(JustOpened(id, conn))
  {
    StepIsReached(s4, OpeningSeen(0));
    assert AcquirerStep(s4, OpeningSeen(0)).openingSessions == map[];
    assert AcquirerStep(s4, OpeningSeen(0)) == JustOpened(id, conn);
  }

  /** A run in which close() disposes of a session with an operation running. */
  lemma CloseOvertakesReached(id: Id, conn: nat) returns (s: State)
    ensures IsReached(s) && |s.sessions| == 1
    ensures s.sessions[0].operations == 1 && s.sessions[0].runtime.Disposing? && s.sessions[0].disposeCalls == 1
  {
    JustOpenedIsReached(id, conn);
    s := JustOpened(id, conn);
    StepIsReached(s, Attach(conn, 0));
    s := Step(s, Attach(conn, 0));
    assert s.sessions[0].connections == {conn};
    assert s.sessions == [Session(id, Opened, Held, 0, {conn}, 0, false, false)];
    assert s.liveSessions == map[id := 0] && id in s.connections[conn].sessionIds;
    StepIsReached(s, StartOperation(conn, id));
    s := Step(s, StartOperation(conn, id));
    assert s.sessions == [Session(id, Opened, Held, 0, {conn}, 1, false, false)] && s.liveSessions == map[id := 0];
    StepIsReached(s, BeginClose);
    s := Step(s, BeginClose);
    StepIsReached(s, CloseAll);
    s := Step(s, CloseAll);
  }

  // ---------------------------------------------------------------- operations over a run

  /** The event starts an operation on session n. */
  predicate Starts(s: State, e: Event, n: nat)
    requires Refs(s)
  {
    e.StartOperation? && MayOperate(s, e.conn, e.id) && s.liveSessions[e.id] == n
  }

  /** Operations of session n that a run has started and not ended. */
  ghost function RunningOf(es: seq<Event>, n: nat): nat {
    if es == [] then 0
    else
      var before, e := es[..|es| - 1], es[|es| - 1];
      var k := RunningOf(before, n);
      if Starts(Reached(before), e, n) then k + 1 else if e == EndOperation(n) && k > 0 then k - 1 else k
  }

  /** What a step does to the operations of a session, new sessions having none. */
  function OperationsOf(s: State, n: nat): nat { if n < |s.sessions| then s.sessions[n].operations else 0 }

  lemma StepCounts(s: State, e: Event, n: nat)
    requires Inv(s)
    ensures OperationsOf(Step(s, e), n) ==
            if Starts(s, e, n) then OperationsOf(s, n) + 1
            else if e == EndOperation(n) && OperationsOf(s, n) > 0 then OperationsOf(s, n) - 1
            else OperationsOf(s, n)
  {
    if e.BeginClose? || e.CloseAll? {
    } else if e.Acquire? || e.DisposalSeen? || e.OpeningSeen? {
      AcquirerStepCounts(s, e, n);
    } else if e.RuntimeAnswer? || e.SnapshotAnswer? || e.CreateDisposed? {
      CreationStepCounts(s, e, n);
    } else if e.MaybeDispose? || e.DisposeDone? || e.EndOperation? || e.Terminate? || e.CloseDisposed? {
      LiveStepCounts(s, e, n);
    } else {
      ConnectionStepCounts(s, e, n);
    }
  }

  lemma AcquirerStepCounts(s: State, e: Event, n: nat)
    requires Refs(s) && (e.Acquire? || e.DisposalSeen? || e.OpeningSeen?)
    ensures OperationsOf(AcquirerStep(s, e), n) == OperationsOf(s, n)
  {
    var t := AcquirerStep(s, e);
    if n < |s.sessions| {
      assert t.sessions[n] == s.sessions[n];
    } else if n < |t.sessions| {
      assert t.sessions[n].operations == 0;
    }
  }

  lemma CreationStepCounts(s: State, e: Event, n: nat)
    requires e.RuntimeAnswer? || e.SnapshotAnswer? || e.CreateDisposed?
    ensures OperationsOf(CreationStep(s, e), n) == OperationsOf(s, n)
  {
    if e.n < |s.sessions| {
      assert CreationNext(s.sessions[e.n], e, s.closing).operations == s.sessions[e.n].operations;
    }
  }

  lemma LiveStepCounts(s: State, e: Event, n: nat)
    requires e.MaybeDispose? || e.DisposeDone? || e.EndOperation? || e.Terminate? || e.CloseDisposed?
    ensures OperationsOf(LiveStep(s, e), n) ==
            if e == EndOperation(n) && OperationsOf(s, n) > 0 then OperationsOf(s, n) - 1 else OperationsOf(s, n)
  {
    if e.n < |s.sessions| {
      var x := s.sessions[e.n];
      assert !e.EndOperation? ==> LiveNext(x, e, s.closing).operations == x.operations;
    }
  }

  lemma ConnectionStepCounts(s: State, e: Event, n: nat)
    requires Refs(s)
    requires e.Connect? || e.Attach? || e.Detach? || e.CloseConnection? || e.Disconnect? || e.StartOperation?
    ensures OperationsOf(ConnectionStep(s, e), n) ==
            if Starts(s, e, n) then OperationsOf(s, n) + 1 else OperationsOf(s, n)
  {
  }

  /** Over every run the operations of a session are those started on it and not ended since. */
  lemma {:induction false} OperationsAreRunning(es: seq<Event>, n: nat)
    ensures OperationsOf(Reached(es), n) == RunningOf(es, n)
  {
    if es != [] {
      var before, e := es[..|es| - 1], es[|es| - 1];
      OperationsAreRunning(before, n);
      assert es == before + [e];
      RunAppend(INITIAL, before, e);
      StepCounts(Reached(before), e, n);
    }
  }

  // ---------------------------------------------------------------- what is bound to happen

  /**
   * A session that has opened and that nobody uses any more is disposed of: with no connection and no operation left
   * running, open server, and its runtime idle or failed, one call of maybeDispose and the end of the disposal leave it
   * disposed of and unlisted.
   */
  lemma UnusedIsDisposedOf(es: seq<Event>, n: nat, idle: bool)
    requires var s := Reached(es);
             n < |s.sessions| && s.sessions[n].stage.Opened? && !s.closing && s.sessions[n].connections == {}
    requires RunningOf(es, n) == 0 && (idle || Reached(es).sessions[n].terminal)
    ensures var t := LiveStep(LiveStep(Reached(es), MaybeDispose(n, idle)), DisposeDone(n));
            && |t.sessions| == |Reached(es).sessions| && t.sessions[n].runtime.Disposed?
            && !Listed(t.liveSessions, t.sessions[n].id, n)
  {
    var s := Reached(es);
    OperationsAreRunning(es, n);
    assert SessionOk(s.liveSessions, s.openingSessions, s.closing, s.sessions[n], n);
  }

  /** The last connection leaves an idle session: detaching, then the same two steps, disposes of it. */
  lemma LastDetachDisposes(es: seq<Event>, conn: nat, id: Id)
    requires var s := Reached(es);
             && !s.closing && id in s.liveSessions && conn in s.connections && id in s.connections[conn].sessionIds
             && s.sessions[s.liveSessions[id]].connections <= {conn} && RunningOf(es, s.liveSessions[id]) == 0
    ensures var s := Reached(es); var n := s.liveSessions[id];
            var t := LiveStep(LiveStep(ConnectionStep(s, Detach(conn, id)), MaybeDispose(n, true)), DisposeDone(n));
            && |t.sessions| == |s.sessions| && t.sessions[n].runtime.Disposed? && id !in t.liveSessions
            && conn in t.connections && id !in t.connections[conn].sessionIds
  {
    var s := Reached(es);
    var n := s.liveSessions[id];
    OperationsAreRunning(es, n);
    assert SessionOk(s.liveSessions, s.openingSessions, s.closing, s.sessions[n], n);
    var d := ConnectionStep(s, Detach(conn, id));
    assert d.sessions[n].connections == {} && d.liveSessions == s.liveSessions;
  }

  /**
   * An acquirer that saw a disposal finish looks again: it is refused exactly if the id's live session has failed, has
   * that session if it is in service, and else awaits its disposal or an opening of the id, its own if there is none.
   * Only an opening that nobody has taken off the list yet can still be that of the session disposed of.
   */
  lemma AcquirerLooksAgain(s: State, a: nat)
    requires Inv(s) && a < |s.acquirers| && s.acquirers[a].progress.WaitsForDisposal?
    requires s.sessions[s.acquirers[a].progress.n].runtime.Disposed?
    ensures var t := AcquirerStep(s, DisposalSeen(a, false)); var id, n := s.acquirers[a].id, s.acquirers[a].progress.n;
            && |t.acquirers| == |s.acquirers| && t.acquirers[a].id == id
            && var p := t.acquirers[a].progress;
            && (p.Refused? <==> id in s.liveSessions && s.sessions[s.liveSessions[id]].terminal)
            && (!p.Refused? ==> p.n < |t.sessions| && t.sessions[p.n].id == id)
            && (!p.Refused? && !Listed(s.openingSessions, id, n) ==> p.n != n)
            && (p.Got? ==> Listed(s.liveSessions, id, p.n) && !t.sessions[p.n].disposing)
            && (p.WaitsForDisposal? ==> Listed(s.liveSessions, id, p.n) && t.sessions[p.n].disposing)
            && (p.WaitsForOpening? ==> id !in s.liveSessions && Listed(t.openingSessions, id, p.n))
            && (p.WaitsForOpening? && p.owns ==> t.sessions[p.n].stage.AwaitRuntime? && p.n == |s.sessions|)
  {
    var id, n := s.acquirers[a].id, s.acquirers[a].progress.n;
    assert AcquirerOk(s, s.acquirers[a]);
    assert SessionOk(s.liveSessions, s.openingSessions, s.closing, s.sessions[n], n);
    assert !Listed(s.liveSessions, id, n);
  }

  /** A failed runtime is known as such: its session is refused to acquirers and to operations. */
  lemma FailedIsRefused(s: State, n: nat, conn: nat)
    requires Inv(s) && n < |s.sessions| && Listed(s.liveSessions, s.sessions[n].id, n)
    ensures var t, id := LiveStep(s, Terminate(n)), s.sessions[n].id;
            && t.liveSessions == s.liveSessions && |t.sessions| == |s.sessions| && t.sessions[n].terminal
            && AcquireHead(t, id).1.Refused? && !MayOperate(t, conn, id)
  {
  }

  /** The last answer a creation gets that has a runtime and comes to nothing. */
  function FailingAnswer(x: Session, n: nat): Event {
    if x.stage.AwaitSnapshot? then SnapshotAnswer(n, false) else RuntimeAnswer(n, true)
  }

  /**
   * A creation that gets a runtime and then fails, for its snapshot or because the server closes, disposes of the
   * runtime once and is never listed...
   */
  lemma FailedCreationDisposes(s: State, n: nat)
    requires Inv(s) && n < |s.sessions|
    requires s.sessions[n].stage.AwaitSnapshot? || (s.sessions[n].stage.AwaitRuntime? && s.closing)
    ensures var x := s.sessions[n];
            var y := x.(stage := Rejected, runtime := Disposed, disposeCalls := 1);
            CreationStep(CreationStep(s, FailingAnswer(x, n)), CreateDisposed(n)) == SetSession(s, n, y)
  {
    assert SessionOk(s.liveSessions, s.openingSessions, s.closing, s.sessions[n], n);
  }

  /** ... and the acquirer that began it is refused and takes the opening off the list. */
  lemma FailedCreationRefuses(s: State, a: nat)
    requires Inv(s) && a < |s.acquirers| && s.acquirers[a].progress.WaitsForOpening? && s.acquirers[a].progress.owns
    requires s.sessions[s.acquirers[a].progress.n].stage.Rejected?
    ensures var id, n, t := s.acquirers[a].id, s.acquirers[a].progress.n, AcquirerStep(s, OpeningSeen(a));
            && t.acquirers == s.acquirers[a := Acquirer(id, Refused)] && t.sessions == s.sessions
            && !Listed(t.openingSessions, id, n)
  {
    assert AcquirerOk(s, s.acquirers[a]);
  }
}
