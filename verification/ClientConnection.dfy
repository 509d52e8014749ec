/**
 * The client's connection lifecycle (packages/client/src/connection.ts) with its request correlation
 * (packages/client/src/client.ts), as a state machine. Calls to listeners and transports split a call into steps: what
 * a listener does in between is any other step.
 */
module ClientConnection {
  import opened Common

  /** `transport`: it has been produced and the hello is being sent. `handshake`: the connect promise is still held. */
  datatype Lifecycle = Disconnected | Connecting(id: nat, transport: bool) | Connected(id: nat, handshake: bool)

  /**
   * One call of connect that got past its check, numbered by the connection id. The factory produces at most one
   * transport for it. `settled` and `closes` count settlements of the promise and close calls; a condemned transport
   * is about to be closed by the call in progress.
   */
  datatype Attempt = Attempt(settled: nat, opening: bool, produced: bool, condemned: bool, closes: nat)

  /** How often a request's promise has been resolved and how often rejected. */
  datatype Promise = Promise(resolved: nat, rejected: nat)

  const WAITS := Promise(0, 0)
  const RESOLVED := Promise(1, 0)
  const REJECTED := Promise(0, 1)

  datatype Reply = Success | Failure | WrongCommand
  datatype Message = Hello | HelloError | Response(request: nat, reply: Reply) | Event

  /** The loop of one handleData call: messages of a chunk not handled yet, and the connection they came from. */
  datatype Loop = Loop(origin: nat, rest: seq<Message>)

  /**
   * `requests` holds the promise of every request made; `applied` counts events applied to the client's state, removals
   * of sessions with their leases among them; `reported` is history of the transports.
   */
  datatype State = State(
    lifecycle: Lifecycle,
    attempts: seq<Attempt>,
    requests: seq<Promise>,
    pending: set<nat>,
    loops: seq<Loop>,
    applied: nat,
    disposed: bool,
    reported: set<nat>)

  datatype Event =
    | Connect
    | TransportReady(id: nat)
    | OpenFails(id: nat)
    | SendFails(id: nat)                                // of the hello or of a request
    | Data(id: nat, decoded: Option<seq<Message>>)      // None: the decoder failed
    | NextMessage(loop: nat)
    | HandshakeFinishes(ok: bool)                       // the listeners told of the hello return
    | TransportClosed(id: nat)
    | TransportError(id: nat)
    | CloseCondemned(id: nat)
    | Request(encodes: bool)
    | Disconnect
    | Dispose

  const INITIAL := State(Disconnected, [], [], {}, [], 0, false, {})

  predicate IsCurrent(s: State, id: nat) { !s.lifecycle.Disconnected? && s.lifecycle.id == id }

  /** The lifecycle holds the promise of attempt i. */
  predicate HoldsPromise(l: Lifecycle, i: nat) {
    !l.Disconnected? && l.id == i && (l.Connecting? || l.handshake)
  }

  /** The lifecycle holds the transport of attempt i. */
  predicate HoldsTransport(l: Lifecycle, i: nat) {
    !l.Disconnected? && l.id == i && (l.Connected? || l.transport)
  }

  // ---------------------------------------------------------------- steps

  function Reject(p: Promise): Promise { p.(rejected := p.rejected + 1) }

  function Resolve(p: Promise): Promise { p.(resolved := p.resolved + 1) }

  function RejectAll(requests: seq<Promise>, pending: set<nat>): (r: seq<Promise>)
    ensures |r| == |requests|
    ensures forall i :: 0 <= i < |r| ==> r[i] == if i in pending then Reject(requests[i]) else requests[i]
  {
    seq(|requests|, i requires 0 <= i < |requests| => if i in pending then Reject(requests[i]) else requests[i])
  }

  function RejectPending(s: State): State {
    s.(requests := RejectAll(s.requests, s.pending), pending := {})
  }

  /** #fail, and #failAndClose when `close`: the promise held is rejected, requests pending are rejected. */
  function Fail(s: State, close: bool): State {
    if s.lifecycle.Disconnected? || s.lifecycle.id >= |s.attempts| then s
    else
      var l, a := s.lifecycle, s.attempts[s.lifecycle.id];
      RejectPending(s.(lifecycle := Disconnected,
                       attempts := s.attempts[l.id := a.(settled := if HoldsPromise(l, l.id) then a.settled + 1
                                                         else a.settled,
                                                         condemned := close && HoldsTransport(l, l.id))]))
  }

  function HandleMessage(s: State, m: Message): State {
    match s.lifecycle
    case Disconnected => s
    case Connecting(id, transport) =>
      if m.Hello? && transport then s.(lifecycle := Connected(id, true)) else Fail(s, true)
    case Connected(_, _) =>
      match m
      case Event => s.(applied := s.applied + 1)
      case Response(r, reply) =>
        if r !in s.pending || r >= |s.requests| then Fail(s, true)
        else
          var p := s.requests[r];
          var t := s.(pending := s.pending - {r},
                      requests := s.requests[r := if reply.Success? then Resolve(p) else Reject(p)]);
          if reply.WrongCommand? then Fail(t, true) else t
      case _ => Fail(s, true)
  }

  function TransportStep(s: State, e: Event): State
    requires e.TransportReady? || e.OpenFails? || e.SendFails? || e.TransportClosed? || e.TransportError? ||
             e.CloseCondemned?
  {
    if e.id >= |s.attempts| then s
    else
      var a := s.attempts[e.id];
      match e
      case TransportReady(id) =>
        if !a.opening then s
        else if s.lifecycle == Connecting(id, false) then
          s.(lifecycle := Connecting(id, true), attempts := s.attempts[id := a.(opening := false, produced := true)])
        else s.(attempts := s.attempts[id := a.(opening := false, produced := true, closes := a.closes + 1)])
      case OpenFails(id) =>
        if !a.opening then s
        else
          var t := s.(attempts := s.attempts[id := a.(opening := false)]);
          if IsCurrent(s, id) then Fail(t, false) else t
      case SendFails(id) => if IsCurrent(s, id) && a.produced then Fail(s, true) else s
      case TransportClosed(id) =>
        var t := s.(reported := s.reported + {id});
        if IsCurrent(s, id) then Fail(t, false) else t
      case TransportError(id) => if IsCurrent(s, id) then Fail(s, true) else s
      case CloseCondemned(id) =>
        if a.condemned then s.(attempts := s.attempts[id := a.(condemned := false, closes := a.closes + 1)]) else s
  }

  function DataStep(s: State, e: Event): State
    requires e.Data? || e.NextMessage?
  {
    match e
    case Data(id, decoded) =>
      if !IsCurrent(s, id) then s
      else if !HoldsTransport(s.lifecycle, id) || decoded.None? then Fail(s, true)
      else s.(loops := s.loops + [Loop(id, decoded.value)])
    case NextMessage(k) =>
      if k >= |s.loops| || s.loops[k].rest == [] then s
      else if s.lifecycle.Disconnected? then s.(loops := s.loops[k := Loop(s.loops[k].origin, [])])
      else
        var loop := s.loops[k];
        HandleMessage(s.(loops := s.loops[k := Loop(loop.origin, loop.rest[1..])]), loop.rest[0])
  }

  function Step(s: State, e: Event): State {
    match e
    case Connect =>
      if s.disposed || !s.lifecycle.Disconnected? then s
      else s.(lifecycle := Connecting(|s.attempts|, false),
              attempts := s.attempts + [Attempt(0, true, false, false, 0)])
    case HandshakeFinishes(ok) =>
      if !s.lifecycle.Connected? || !s.lifecycle.handshake || s.lifecycle.id >= |s.attempts| then s
      else if !ok then Fail(s, true)
      else
        var id := s.lifecycle.id;
        s.(lifecycle := Connected(id, false),
           attempts := s.attempts[id := s.attempts[id].(settled := s.attempts[id].settled + 1)])
    case Request(encodes) =>
      if s.disposed || !s.lifecycle.Connected? || !encodes then s.(requests := s.requests + [REJECTED])
      else s.(pending := s.pending + {|s.requests|}, requests := s.requests + [WAITS])
    case Disconnect => Fail(s, true)
    case Dispose => if s.disposed then s else Fail(RejectPending(s.(disposed := true)), true)
    case Data(_, _) => DataStep(s, e)
    case NextMessage(_) => DataStep(s, e)
    case TransportReady(_) => TransportStep(s, e)
    case OpenFails(_) => TransportStep(s, e)
    case SendFails(_) => TransportStep(s, e)
    case TransportClosed(_) => TransportStep(s, e)
    case TransportError(_) => TransportStep(s, e)
    case CloseCondemned(_) => TransportStep(s, e)
  }

  function Run(s: State, es: seq<Event>): State
    decreases |es|
  {
    if es == [] then s else Run(Step(s, es[0]), es[1..])
  }

  // ---------------------------------------------------------------- the invariant

  /**
   * An attempt's promise has settled exactly once unless the lifecycle still holds it; its transport, once produced, is
   * the one in use, about to be closed, closed exactly once, or has reported its own close.
   */
  predicate AttemptOk(l: Lifecycle, reported: set<nat>, i: nat, a: Attempt) {
    && a.settled == (if HoldsPromise(l, i) then 0 else 1)
    && (a.opening ==> !a.produced)
    && (l == Connecting(i, false) ==> !a.produced)
    && (!a.produced ==> !a.condemned && a.closes == 0)
    && (HoldsTransport(l, i) ==> a.produced && !a.condemned && a.closes == 0)
    && (a.produced && !HoldsTransport(l, i) ==> a.condemned || a.closes == 1 || i in reported)
    && (if a.condemned then a.closes == 0 else a.closes <= 1)
  }

  /** A request has been resolved or rejected, exactly once, unless it is pending. */
  predicate PromiseOk(p: Promise, waits: bool) { if waits then p == WAITS else p == RESOLVED || p == REJECTED }

  predicate RequestsOk(requests: seq<Promise>, pending: set<nat>) {
    && (forall r :: r in pending ==> r < |requests|)
    && (forall r :: 0 <= r < |requests| ==> PromiseOk(requests[r], r in pending))
  }

  ghost predicate AttemptsOk(l: Lifecycle, reported: set<nat>, attempts: seq<Attempt>) {
    && (!l.Disconnected? ==> l.id == |attempts| - 1)
    && (forall i :: 0 <= i < |attempts| ==> AttemptOk(l, reported, i, attempts[i]))
  }

  ghost predicate Inv(s: State) {
    && AttemptsOk(s.lifecycle, s.reported, s.attempts)
    && RequestsOk(s.requests, s.pending)
    && (s.pending != {} ==> s.lifecycle.Connected?)
  }

  lemma FailKeepsInv(s: State, close: bool)
    requires Inv(s)
    requires close || s.lifecycle.Disconnected? || !HoldsTransport(s.lifecycle, s.lifecycle.id) ||
             s.lifecycle.id in s.reported
    ensures Inv(Fail(s, close)) && Fail(s, close).lifecycle.Disconnected?
  {
    if !s.lifecycle.Disconnected? {
      var t := Fail(s, close);
      forall i | 0 <= i < |t.attempts| ensures AttemptOk(Disconnected, t.reported, i, t.attempts[i]) {
        assert AttemptOk(s.lifecycle, s.reported, i, s.attempts[i]);
      }
    }
  }

  lemma HandleMessageKeepsInv(s: State, m: Message)
    requires Inv(s)
    ensures Inv(HandleMessage(s, m))
  {
    FailKeepsInv(s, true);
    if s.lifecycle.Connecting? && m.Hello? && s.lifecycle.transport {
      forall i | 0 <= i < |s.attempts| ensures AttemptOk(Connected(s.lifecycle.id, true), s.reported, i,
                                                         s.attempts[i]) {
        assert AttemptOk(s.lifecycle, s.reported, i, s.attempts[i]);
      }
    } else if s.lifecycle.Connected? && m.Response? && m.request in s.pending {
      var p := s.requests[m.request];
      assert PromiseOk(p, true);
      var t := s.(pending := s.pending - {m.request},
                  requests := s.requests[m.request := if m.reply.Success? then Resolve(p) else Reject(p)]);
      assert Inv(t);
      FailKeepsInv(t, true);
    }
  }

  lemma DataStepKeepsInv(s: State, e: Event)
    requires Inv(s) && (e.Data? || e.NextMessage?)
    ensures Inv(DataStep(s, e))
  {
    FailKeepsInv(s, true);
    if e.NextMessage? && e.loop < |s.loops| && s.loops[e.loop].rest != [] {
      var loop := s.loops[e.loop];
      HandleMessageKeepsInv(s.(loops := s.loops[e.loop := Loop(loop.origin, loop.rest[1..])]), loop.rest[0]);
    }
  }

  lemma TransportStepKeepsInv(s: State, e: Event)
    requires Inv(s)
    requires e.TransportReady? || e.OpenFails? || e.SendFails? || e.TransportClosed? || e.TransportError? ||
             e.CloseCondemned?
    ensures Inv(TransportStep(s, e))
  {
    if e.id < |s.attempts| {
      if e.SendFails? || e.TransportError? {
        FailKeepsInv(s, true);
      } else if e.TransportClosed? {
        if IsCurrent(s, e.id) { FailKeepsInv(s.(reported := s.reported + {e.id}), false); }
      } else if e.OpenFails? {
        OpenFailsKeepsInv(s, e.id);
      }
    }
  }

  lemma OpenFailsKeepsInv(s: State, id: nat)
    requires Inv(s)
    ensures Inv(TransportStep(s, OpenFails(id)))
  {
    if id < |s.attempts| && s.attempts[id].opening {
      assert AttemptOk(s.lifecycle, s.reported, id, s.attempts[id]);
      var t := s.(attempts := s.attempts[id := s.attempts[id].(opening := false)]);
      assert Inv(t);
      if IsCurrent(s, id) { FailKeepsInv(t, false); }
    }
  }

  lemma StepKeepsInv(s: State, e: Event)
    requires Inv(s)
    ensures Inv(Step(s, e))
  {
    if e.Data? || e.NextMessage? {
      DataStepKeepsInv(s, e);
    } else if e.TransportReady? || e.OpenFails? || e.SendFails? || e.TransportClosed? || e.TransportError? ||
        e.CloseCondemned? {
      TransportStepKeepsInv(s, e);
    } else if e.Dispose? {
      FailKeepsInv(RejectPending(s.(disposed := true)), true);
    } else if e.Connect? {
      ConnectKeepsInv(s);
    } else {
      FailKeepsInv(s, true);
    }
  }

  lemma ConnectKeepsInv(s: State)
    requires Inv(s)
    ensures Inv(Step(s, Connect))
  {
    var t := Step(s, Connect);
    if t != s {
      forall i | 0 <= i < |t.attempts| ensures AttemptOk(t.lifecycle, t.reported, i, t.attempts[i]) {
        if i < |s.attempts| { assert AttemptOk(s.lifecycle, s.reported, i, s.attempts[i]); }
      }
    }
  }

  // ---------------------------------------------------------------- what no step undoes

  /** Promises stay settled, ids are never used again, closes are never taken back. */
  ghost predicate Grows(s: State, t: State) {
    && |s.attempts| <= |t.attempts| && |s.requests| <= |t.requests|
    && (forall i :: 0 <= i < |s.attempts| ==> AttemptGrows(s.attempts[i], t.attempts[i]))
    && (forall r :: 0 <= r < |s.requests| ==> PromiseGrows(s.requests[r], t.requests[r]))
    && (forall i :: 0 <= i < |s.attempts| ==> (IsCurrent(t, i) ==> IsCurrent(s, i)))
  }

  predicate PromiseGrows(p: Promise, q: Promise) { p.resolved <= q.resolved && p.rejected <= q.rejected }

  predicate AttemptGrows(a: Attempt, b: Attempt) {
    a.settled <= b.settled && a.closes <= b.closes && (a.produced ==> b.produced) &&
        (a.condemned ==> b.condemned || b.closes > 0)
  }

  lemma FailGrows(s: State, close: bool)
    requires AttemptsOk(s.lifecycle, s.reported, s.attempts)
    ensures Grows(s, Fail(s, close))
  {
  }

  lemma TransportStepGrows(s: State, e: Event)
    requires Inv(s)
    requires e.TransportReady? || e.OpenFails? || e.SendFails? || e.TransportClosed? || e.TransportError? ||
             e.CloseCondemned?
    ensures Grows(s, TransportStep(s, e))
  {
    if e.SendFails? || e.TransportError? {
      FailGrows(s, true);
    } else if e.TransportClosed? {
      FailGrows(s.(reported := s.reported + {e.id}), false);
    } else if e.OpenFails? {
      OpenFailsGrows(s, e.id);
    } else {
      OwnRecordGrows(s, e);
    }
  }

  lemma OpenFailsGrows(s: State, id: nat)
    requires Inv(s)
    ensures Grows(s, TransportStep(s, OpenFails(id)))
  {
  }

  lemma OwnRecordGrows(s: State, e: Event)
    requires Inv(s) && (e.TransportReady? || e.CloseCondemned?)
    ensures Grows(s, TransportStep(s, e))
  {
  }

  lemma HandleMessageGrows(s: State, m: Message)
    requires Inv(s)
    ensures Grows(s, HandleMessage(s, m))
  {
    if s.lifecycle.Connected? && m.Response? {
      ResponseGrows(s, m);
    } else {
      FailGrows(s, true);
    }
  }

  lemma ResponseGrows(s: State, m: Message)
    requires Inv(s) && s.lifecycle.Connected? && m.Response?
    ensures Grows(s, HandleMessage(s, m))
  {
    FailGrows(s, true);
  }

  lemma StepGrows(s: State, e: Event)
    requires Inv(s)
    ensures Grows(s, Step(s, e))
  {
    if e.TransportReady? || e.OpenFails? || e.SendFails? || e.TransportClosed? || e.TransportError? ||
        e.CloseCondemned? {
      TransportStepGrows(s, e);
    } else if e.Data? || e.NextMessage? {
      DataStepGrows(s, e);
    } else {
      OtherStepGrows(s, e);
    }
  }

  lemma OtherStepGrows(s: State, e: Event)
    requires Inv(s) && (e.Connect? || e.HandshakeFinishes? || e.Request? || e.Disconnect? || e.Dispose?)
    ensures Grows(s, Step(s, e))
  {
    if e.Disconnect? || e.HandshakeFinishes? {
      FailGrows(s, true);
    } else if e.Dispose? {
      DisposeGrows(s);
    }
  }

  lemma DisposeGrows(s: State)
    requires Inv(s)
    ensures Grows(s, Step(s, Dispose))
  {
    FailGrows(RejectPending(s.(disposed := true)), true);
  }

  lemma DataStepGrows(s: State, e: Event)
    requires Inv(s) && (e.Data? || e.NextMessage?)
    ensures Grows(s, DataStep(s, e))
  {
    if e.NextMessage? && e.loop < |s.loops| && s.loops[e.loop].rest != [] {
      var loop := s.loops[e.loop];
      HandleMessageGrows(s.(loops := s.loops[e.loop := Loop(loop.origin, loop.rest[1..])]), loop.rest[0]);
    } else if e.Data? {
      FailGrows(s, true);
    }
  }

  lemma GrowsTransitive(s: State, t: State, u: State)
    requires Grows(s, t) && Grows(t, u)
    ensures Grows(s, u)
  {
    forall i | 0 <= i < |s.attempts| ensures AttemptGrows(s.attempts[i], u.attempts[i]) {
      assert AttemptGrows(s.attempts[i], t.attempts[i]) && AttemptGrows(t.attempts[i], u.attempts[i]);
    }
  }

  // ---------------------------------------------------------------- over whole runs

  lemma {:induction false} RunKeeps(s: State, es: seq<Event>)
    requires Inv(s)
    ensures Inv(Run(s, es)) && Grows(s, Run(s, es))
    decreases |es|
  {
    if es != [] {
      StepKeepsInv(s, es[0]);
      StepGrows(s, es[0]);
      RunKeeps(Step(s, es[0]), es[1..]);
      GrowsTransitive(s, Step(s, es[0]), Run(s, es));
    }
  }

  /**
   * Every request settles exactly once: it is pending, on a live connection, or has been resolved or rejected once and
   * stays so.
   */
  lemma RequestsSettleOnce(es: seq<Event>, later: seq<Event>, r: nat)
    requires r < |Run(INITIAL, es).requests|
    ensures var s := Run(INITIAL, es); var t := Run(s, later);
      && (if r in s.pending then s.requests[r] == WAITS else s.requests[r] == RESOLVED || s.requests[r] == REJECTED)
      && (s.lifecycle.Disconnected? ==> s.pending == {})
      && (r !in s.pending ==> r < |t.requests| && t.requests[r] == s.requests[r] && r !in t.pending)
  {
    RunKeeps(INITIAL, es);
    var s := Run(INITIAL, es);
    RunKeeps(s, later);
    var t := Run(s, later);
    assert PromiseOk(s.requests[r], r in s.pending);
    assert PromiseOk(t.requests[r], r in t.pending) && PromiseGrows(s.requests[r], t.requests[r]);
  }

  /**
   * Every connect promise settles exactly once: it is held by the current lifecycle, or has settled once and stays
   * so.
   */
  lemma ConnectsSettleOnce(es: seq<Event>, later: seq<Event>, i: nat)
    requires i < |Run(INITIAL, es).attempts|
    ensures var s := Run(INITIAL, es);
      && s.attempts[i].settled == (if HoldsPromise(s.lifecycle, i) then 0 else 1)
      && (!HoldsPromise(s.lifecycle, i) ==> i < |Run(s, later).attempts| && Run(s, later).attempts[i].settled == 1)
  {
    RunKeeps(INITIAL, es);
    var s := Run(INITIAL, es);
    RunKeeps(s, later);
    var t := Run(s, later);
    assert AttemptOk(s.lifecycle, s.reported, i, s.attempts[i]);
    assert AttemptGrows(s.attempts[i], t.attempts[i]) && AttemptOk(t.lifecycle, t.reported, i, t.attempts[i]);
  }

  /**
   * Every transport ever produced is the current one, was closed by the client exactly once (or is about to be, by the
   * call in progress), or reported its own close.
   */
  lemma TransportsAccountedFor(es: seq<Event>, i: nat)
    requires i < |Run(INITIAL, es).attempts| && Run(INITIAL, es).attempts[i].produced
    ensures var s := Run(INITIAL, es); var a := s.attempts[i];
      && (HoldsTransport(s.lifecycle, i) || a.condemned || a.closes == 1 || i in s.reported)
      && a.closes <= 1
  {
    RunKeeps(INITIAL, es);
    var s := Run(INITIAL, es);
    assert AttemptOk(s.lifecycle, s.reported, i, s.attempts[i]);
  }

  /** A superseded id is never current again. */
  lemma SupersededForever(s: State, es: seq<Event>, id: nat)
    requires Inv(s) && id < |s.attempts| && !IsCurrent(s, id)
    ensures !IsCurrent(Run(s, es), id)
  {
    RunKeeps(s, es);
  }

  /** A callback that arrives with a superseded id changes nothing the client goes by; a late transport is closed. */
  lemma SupersededCallbackIgnored(s: State, e: Event)
    requires Inv(s) && (e.Data? || e.SendFails? || e.TransportClosed? || e.TransportError? || e.OpenFails? ||
                        e.TransportReady?)
    requires e.id < |s.attempts| && !IsCurrent(s, e.id)
    ensures var t := Step(s, e); var a := s.attempts[e.id];
      && t.lifecycle == s.lifecycle && t.requests == s.requests && t.pending == s.pending && t.loops == s.loops
      && t.applied == s.applied
      && (forall i :: 0 <= i < |s.attempts| && i != e.id ==> t.attempts[i] == s.attempts[i])
      && t.attempts[e.id] == (if e.TransportReady? && a.opening
                              then a.(opening := false, produced := true, closes := a.closes + 1)
                              else if e.OpenFails? then a.(opening := false) else a)
  {
  }

  // ---------------------------------------------------------------- which response settles which request

  /** The event has a connected client handle a response to request r. */
  predicate Handles(s: State, e: Event, r: nat, reply: Reply) {
    && s.lifecycle.Connected? && e.NextMessage? && e.loop < |s.loops| && s.loops[e.loop].rest != []
    && s.loops[e.loop].rest[0] == Response(r, reply)
  }

  /** What a step leaves of the promise of request r, `lost` being whether the client is disconnected after it. */
  function PromiseAfter(s: State, e: Event, lost: bool, r: nat): Promise
    requires r < |s.requests|
  {
    if r !in s.pending then s.requests[r]
    else if Handles(s, e, r, Success) then RESOLVED
    else if Handles(s, e, r, Failure) || lost then REJECTED
    else WAITS
  }

  /**
   * A pending request is resolved by a successful response to it and by nothing else. It is rejected by a failure
   * response to it and by the loss of the connection; otherwise it keeps waiting. A settled request stays as it is.
   */
  lemma SettledExactly(s: State, e: Event, r: nat)
    requires Inv(s) && r < |s.requests|
    ensures var t := Step(s, e);
      && r < |t.requests| && t.requests[r] == PromiseAfter(s, e, t.lifecycle.Disconnected?, r)
      && (r in t.pending <==> t.requests[r] == WAITS)
  {
    StepKeepsInv(s, e);
    StepGrows(s, e);
    if r !in s.pending {
      StaysSettled(s, Step(s, e), r);
    } else if e.NextMessage? {
      NextMessageSettles(s, e.loop, r);
    } else if e.TransportReady? || e.OpenFails? || e.SendFails? || e.TransportClosed? || e.TransportError? ||
        e.CloseCondemned? {
      TransportStepSettles(s, e, r);
    } else {
      OthersSettle(s, e, r);
    }
    assert PromiseOk(Step(s, e).requests[r], r in Step(s, e).pending);
  }

  lemma StaysSettled(s: State, t: State, r: nat)
    requires Inv(s) && Inv(t) && Grows(s, t) && r < |s.requests| && r !in s.pending
    ensures t.requests[r] == s.requests[r]
  {
    assert PromiseOk(s.requests[r], false) && PromiseOk(t.requests[r], r in t.pending);
    assert PromiseGrows(s.requests[r], t.requests[r]);
  }

  /** The promise of a request that was pending, after a step that is no response to it. */
  predicate WaitsUnlessLost(t: State, r: nat) {
    r < |t.requests| && t.requests[r] == if t.lifecycle.Disconnected? then REJECTED else WAITS
  }

  lemma TransportStepSettles(s: State, e: Event, r: nat)
    requires Inv(s) && r in s.pending
    requires e.TransportReady? || e.OpenFails? || e.SendFails? || e.TransportClosed? || e.TransportError? ||
             e.CloseCondemned?
    ensures WaitsUnlessLost(TransportStep(s, e), r)
  {
    assert PromiseOk(s.requests[r], true);
  }

  lemma OthersSettle(s: State, e: Event, r: nat)
    requires Inv(s) && r in s.pending
    requires e.Data? || e.Connect? || e.HandshakeFinishes? || e.Request? || e.Disconnect? || e.Dispose?
    ensures WaitsUnlessLost(Step(s, e), r)
  {
    assert PromiseOk(s.requests[r], true);
  }

  lemma NextMessageSettles(s: State, k: nat, r: nat)
    requires Inv(s) && r in s.pending
    ensures var t := DataStep(s, NextMessage(k));
      r < |t.requests| && t.requests[r] == PromiseAfter(s, NextMessage(k), t.lifecycle.Disconnected?, r)
  {
    assert PromiseOk(s.requests[r], true);
    if k < |s.loops| && s.loops[k].rest != [] {
      var loop := s.loops[k];
      MessageSettles(s.(loops := s.loops[k := Loop(loop.origin, loop.rest[1..])]), loop.rest[0], r);
    }
  }

  lemma MessageSettles(s: State, m: Message, r: nat)
    requires Inv(s) && r in s.pending
    ensures var t := HandleMessage(s, m);
      && r < |t.requests|
      && t.requests[r] == (if m == Response(r, Success) then RESOLVED
                           else if m == Response(r, Failure) || t.lifecycle.Disconnected? then REJECTED else WAITS)
  {
    assert PromiseOk(s.requests[r], true);
  }

  /**
   * A response to a pending request that succeeds or reports a failure settles that request and nothing else, and the
   * connection goes on; one for another command, or to a request that is not pending, ends the connection.
   */
  lemma ResponseSettles(s: State, k: nat, r: nat, reply: Reply)
    requires Inv(s) && Handles(s, NextMessage(k), r, reply)
    ensures var t := Step(s, NextMessage(k));
      if r in s.pending && !reply.WrongCommand? then
        && t.lifecycle == s.lifecycle && t.attempts == s.attempts && t.applied == s.applied
        && t.pending == s.pending - {r}
        && t.requests == s.requests[r := if reply.Success? then RESOLVED else REJECTED]
      else t.lifecycle.Disconnected? && t.pending == {}
  {
    if r in s.pending { assert PromiseOk(s.requests[r], true); }
  }

  /** A new request waits exactly if the client is connected, not disposed of, and can encode it. */
  lemma RequestWaitsExactly(s: State, encodes: bool)
    requires Inv(s)
    ensures var t := Step(s, Request(encodes));
      && |t.requests| == |s.requests| + 1 && t.requests[..|s.requests|] == s.requests && t.lifecycle == s.lifecycle
      && t.requests[|s.requests|] == (if s.lifecycle.Connected? && !s.disposed && encodes then WAITS else REJECTED)
      && t.pending == (if t.requests[|s.requests|] == WAITS then s.pending + {|s.requests|} else s.pending)
  {
  }

  /** Somewhere in the run a connected client handles a successful response to request r while r is pending. */
  ghost predicate Answered(s: State, es: seq<Event>, r: nat)
    decreases |es|
  {
    es != [] && ((r in s.pending && Handles(s, es[0], r, Success)) || Answered(Step(s, es[0]), es[1..], r))
  }

  lemma NewIsNotResolved(s: State, e: Event, r: nat)
    requires Inv(s) && |s.requests| <= r < |Step(s, e).requests|
    ensures Step(s, e).requests[r] != RESOLVED
  {
  }

  /** Over every run a request is resolved exactly if it was answered by a successful response to it while pending. */
  lemma {:induction false} ResolvedExactlyByItsResponse(s: State, es: seq<Event>, r: nat)
    requires Inv(s) && r < |Run(s, es).requests| && (r < |s.requests| ==> s.requests[r] != RESOLVED)
    ensures Run(s, es).requests[r] == RESOLVED <==> Answered(s, es, r)
    decreases |es|
  {
    if es != [] {
      var e, t := es[0], Step(s, es[0]);
      StepKeepsInv(s, e);
      if r < |s.requests| {
        SettledExactly(s, e, r);
        assert PromiseOk(s.requests[r], r in s.pending) && PromiseOk(t.requests[r], r in t.pending);
        if t.requests[r] == RESOLVED {
          RunKeeps(t, es[1..]);
          var u := Run(t, es[1..]);
          assert PromiseGrows(t.requests[r], u.requests[r]) && PromiseOk(u.requests[r], r in u.pending);
        } else {
          ResolvedExactlyByItsResponse(t, es[1..], r);
        }
      } else {
        if r < |t.requests| { NewIsNotResolved(s, e, r); }
        ResolvedExactlyByItsResponse(t, es[1..], r);
      }
    }
  }

  // ---------------------------------------------------------------- when a connection is lost

  /** A message the client cannot go on after: out of place, or a response that answers no request as asked. */
  predicate Offends(s: State, m: Message)
    requires !s.lifecycle.Disconnected?
  {
    if s.lifecycle.Connecting? then !m.Hello? || !s.lifecycle.transport
    else !m.Event? && !(m.Response? && m.request in s.pending && !m.reply.WrongCommand?)
  }

  /** What ends the current connection. */
  predicate Ends(s: State, e: Event)
    requires !s.lifecycle.Disconnected? && s.lifecycle.id < |s.attempts|
  {
    var l, a := s.lifecycle, s.attempts[s.lifecycle.id];
    || e == TransportClosed(l.id) || e == TransportError(l.id)
    || (e == OpenFails(l.id) && a.opening)
    || (e == SendFails(l.id) && a.produced)
    || (e.Data? && e.id == l.id && (e.decoded.None? || !HoldsTransport(l, l.id)))
    || (e.NextMessage? && e.loop < |s.loops| && s.loops[e.loop].rest != [] && Offends(s, s.loops[e.loop].rest[0]))
    || (e == HandshakeFinishes(false) && l.Connected? && l.handshake)
    || e.Disconnect? || (e.Dispose? && !s.disposed)
  }

  /**
   * The current connection is lost exactly in such a step. Then its connect promise has settled, every pending request
   * is off the list, and a transport that did not close itself is about to be closed.
   */
  ghost predicate LosesAsSaid(s: State, e: Event, t: State)
    requires !s.lifecycle.Disconnected? && s.lifecycle.id < |s.attempts|
  {
    var i := s.lifecycle.id;
    && (t.lifecycle.Disconnected? <==> Ends(s, e))
    && (t.lifecycle.Disconnected? ==> i < |t.attempts| && t.pending == {} && t.attempts[i].settled == 1)
    && (t.lifecycle.Disconnected? && HoldsTransport(s.lifecycle, i) && !e.TransportClosed? && !e.OpenFails? ==>
          t.attempts[i].condemned)
    && (!t.lifecycle.Disconnected? ==> t.lifecycle.id == i)
  }

  lemma LostExactly(s: State, e: Event)
    requires Inv(s) && !s.lifecycle.Disconnected?
    ensures s.lifecycle.id < |s.attempts|
    ensures LosesAsSaid(s, e, Step(s, e))
  {
    assert AttemptOk(s.lifecycle, s.reported, s.lifecycle.id, s.attempts[s.lifecycle.id]);
    if e.Data? || e.NextMessage? {
      DataLosesExactly(s, e);
    } else if e.TransportReady? || e.OpenFails? || e.SendFails? || e.TransportClosed? || e.TransportError? ||
        e.CloseCondemned? {
      TransportLosesExactly(s, e);
    }
  }

  lemma DataLosesExactly(s: State, e: Event)
    requires Inv(s) && !s.lifecycle.Disconnected? && (e.Data? || e.NextMessage?)
    ensures LosesAsSaid(s, e, DataStep(s, e))
  {
    assert AttemptOk(s.lifecycle, s.reported, s.lifecycle.id, s.attempts[s.lifecycle.id]);
  }

  lemma TransportLosesExactly(s: State, e: Event)
    requires Inv(s) && !s.lifecycle.Disconnected?
    requires e.TransportReady? || e.OpenFails? || e.SendFails? || e.TransportClosed? || e.TransportError? ||
             e.CloseCondemned?
    ensures LosesAsSaid(s, e, TransportStep(s, e))
  {
    assert AttemptOk(s.lifecycle, s.reported, s.lifecycle.id, s.attempts[s.lifecycle.id]);
  }

  // ---------------------------------------------------------------- messages left over from a superseded connection

  /**
   * The loop over a chunk's messages does not look at the connection id again. A message left over from a superseded
   * connection changes nothing exactly when the client is disconnected: connected again, it applies the event, settles
   * the request or fails; connecting, it fails.
   */
  lemma LeftoverHarmlessExactly(s: State, k: nat)
    requires Inv(s) && k < |s.loops| && s.loops[k].rest != [] && !IsCurrent(s, s.loops[k].origin)
    ensures Step(s, NextMessage(k)).(loops := s.loops) == s <==> s.lifecycle.Disconnected?
  {
  }

  /** So a reconnect begun while a chunk is being handled is failed by whatever message the chunk holds next. */
  lemma LeftoverFailsReconnect(s: State, k: nat)
    requires Inv(s) && k < |s.loops| && s.loops[k].rest != [] && s.lifecycle.Connecting? && !s.lifecycle.transport
    ensures var t := Step(s, NextMessage(k)); t.lifecycle.Disconnected? && t.attempts[s.lifecycle.id].settled == 1
  {
    assert AttemptOk(s.lifecycle, s.reported, s.lifecycle.id, s.attempts[s.lifecycle.id]);
  }

  /** Such a state is reached: a stray second hello fails the connection while an event is still to be handled. */
  lemma LeftoverReached() returns (s: State)
    ensures s == Run(INITIAL, [Connect, TransportReady(0), Data(0, Some([Hello, Hello, Event])), NextMessage(0),
                               HandshakeFinishes(true), NextMessage(0), Connect])
    ensures s.lifecycle == Connecting(1, false) && s.loops == [Loop(0, [Event])]
  {
    s := FirstHello();
    s := Step(s, HandshakeFinishes(true));
    assert s.lifecycle == Connected(0, false) && s.loops == [Loop(0, [Hello, Event])];
    s := Step(s, NextMessage(0));
    assert s.lifecycle == Disconnected && s.loops == [Loop(0, [Event])] && |s.attempts| == 1;
    s := Step(s, Connect);
  }

  lemma FirstHello() returns (s: State)
    ensures s == Run(INITIAL, [Connect, TransportReady(0), Data(0, Some([Hello, Hello, Event])), NextMessage(0)])
    ensures s.lifecycle == Connected(0, true) && s.loops == [Loop(0, [Hello, Event])] && |s.attempts| == 1
    ensures !s.disposed
  {
    s := Step(INITIAL, Connect);
    s := Step(s, TransportReady(0));
    assert s.lifecycle == Connecting(0, true) && |s.attempts| == 1 && s.loops == [];
    s := Step(s, Data(0, Some([Hello, Hello, Event])));
    assert s.loops == [Loop(0, [Hello, Hello, Event])];
    s := Step(s, NextMessage(0));
  }
}
