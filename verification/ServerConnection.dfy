/**
 * One connection of packages/server/src/server.ts, as a state machine. Each step is one synchronous stretch between
 * awaits of the tasks that work on the connection; any step may follow any other.
 */
module ServerConnection {

  datatype Stage = AwaitingHello | Handshaking | Ready | Closing | Closed

  function Rank(g: Stage): nat {
    match g
    case AwaitingHello => 0
    case Handshaking => 1
    case Ready => 2
    case Closing => 3
    case Closed => 4
  }

  /** One call of sendMessage: awaiting the transport, or awaiting the transport's close after a failure. */
  datatype Send = Writing | Shutting | Sent | NotSent

  /** The handshake task, by the await it stands at. */
  datatype Handshake =
    | NotStarted
    | Rejecting                    // unsupported version or a failed snapshot: awaiting failProtocol
    | AwaitSnapshot
    | SendingHello(hello: Send)
    | AwaitSnapshotAgain           // the server changed meanwhile
    | SendingEvent(event: Send)
    | Settled

  /** A request message, from its arrival. Requests that arrive during the handshake are queued behind it. */
  datatype Request = Queued | Dropped | Executing | Responding(response: Send) | Finished

  /** What happened, in order. A frame counts as responded when it is handed to the transport. */
  datatype Action = HelloSent | Dispatched(i: nat) | Responded(i: nat) | ClosingBegan | Disconnected

  datatype State = State(
    stage: Stage,
    disconnected: bool,
    handshakeComplete: bool,
    timerArmed: bool,
    transportClosed: bool,
    serverClosing: bool,
    handshake: Handshake,
    requests: seq<Request>,
    log: seq<Action>)

  datatype Event =
    | ReceiveHello(supported: bool)
    | ReceiveRequest
    | BadData
    | Timeout
    | SnapshotArrives(encodes: bool)
    | SnapshotFails
    | HelloSettles(ok: bool, changed: bool)   // changed: the server's revision moved on during the handshake
    | AgainArrives(encodes: bool)
    | EventSettles(ok: bool)
    | HandshakeShut                           // the handshake task's closeConnection returns
    | RunQueued(i: nat)                       // a request queued behind the handshake gets its turn
    | CommandSettles(i: nat, encodes: bool)
    | ResponseSettles(i: nat, ok: bool)
    | ResponseShut(i: nat)
    | Disconnect                              // any other call of disconnect
    | TransportCloses
    | BeginServerClose
    | CloseServerState

  const INITIAL := State(AwaitingHello, false, false, true, false, false, NotStarted, [], [])

  predicate IsTerminal(s: State) { s.disconnected || s.stage.Closing? || s.stage.Closed? }

  /** disconnect up to its first await. */
  function DoDisconnect(s: State): State {
    if s.disconnected then s
    else s.(disconnected := true, stage := Closed, timerArmed := false, log := s.log + [Disconnected])
  }

  /** failProtocol up to its first await. */
  function FailProtocol(s: State): State {
    if IsTerminal(s) then s else s.(stage := Closing, timerArmed := false, log := s.log + [ClosingBegan])
  }

  /** sendMessage up to its first await. */
  function StartSend(s: State, encodes: bool): Send {
    if s.disconnected || s.transportClosed then NotSent else if encodes then Writing else Shutting
  }

  /** handleRequest up to its first await. */
  function StartRequest(s: State, i: nat): State
    requires i < |s.requests|
  {
    s.(requests := s.requests[i := Executing], log := s.log + [Dispatched(i)])
  }

  function HandshakeStep(s: State, e: Event): State
    requires e.SnapshotArrives? || e.SnapshotFails? || e.HelloSettles? || e.AgainArrives? || e.EventSettles? ||
             e.HandshakeShut?
  {
    match e
    case SnapshotArrives(encodes) =>
      if !s.handshake.AwaitSnapshot? then s
      else if s.serverClosing || s.disconnected || !s.stage.Handshaking? || s.transportClosed
          then s.(handshake := Settled)
      else s.(handshake := SendingHello(StartSend(s, encodes)))
    case SnapshotFails =>
      if !s.handshake.AwaitSnapshot? && !s.handshake.AwaitSnapshotAgain? then s
      else FailProtocol(s).(handshake := if IsTerminal(s) then Settled else Rejecting)
    case HelloSettles(ok, changed) =>
      if s.handshake != SendingHello(Writing) then s
      else if !ok then s.(handshake := SendingHello(Shutting))
      else
        var t := s.(log := s.log + [HelloSent]);
        if s.disconnected || !s.stage.Handshaking? then t.(handshake := Settled)
        else t.(handshakeComplete := true, stage := Ready, timerArmed := false,
                handshake := if changed then AwaitSnapshotAgain else Settled)
    case AgainArrives(encodes) =>
      if !s.handshake.AwaitSnapshotAgain? then s
      else
        var send := StartSend(s, encodes);
        s.(handshake := if send.NotSent? then Settled else SendingEvent(send))
    case EventSettles(ok) =>
      if s.handshake != SendingEvent(Writing) then s
      else s.(handshake := if ok then Settled else SendingEvent(Shutting))
    case HandshakeShut =>
      if s.handshake.Rejecting? || s.handshake == SendingHello(Shutting) || s.handshake == SendingEvent(Shutting)
      then DoDisconnect(s).(handshake := Settled) else s
  }

  function RequestStep(s: State, e: Event): State
    requires e.RunQueued? || e.CommandSettles? || e.ResponseSettles? || e.ResponseShut?
  {
    if e.i >= |s.requests| then s
    else
      var q := s.requests[e.i];
      match e
      case RunQueued(i) =>
        if !q.Queued? || !s.handshake.Settled? then s
        else if s.stage.Ready? && !s.disconnected then StartRequest(s, i)
        else s.(requests := s.requests[i := Dropped])
      case CommandSettles(i, encodes) =>
        if !q.Executing? then s
        else
          var send := StartSend(s, encodes);
          s.(requests := s.requests[i := if send.NotSent? then Finished else Responding(send)],
             log := if send.Writing? then s.log + [Responded(i)] else s.log)
      case ResponseSettles(i, ok) =>
        if q != Responding(Writing) then s
        else s.(requests := s.requests[i := if ok then Finished else Responding(Shutting)])
      case ResponseShut(i) =>
        if q != Responding(Shutting) then s else DoDisconnect(s).(requests := s.requests[i := Finished])
  }

  /** One decoded message; receive checks for a terminal connection before each. */
  function ReceiveStep(s: State, e: Event): State
    requires e.ReceiveHello? || e.ReceiveRequest?
  {
    if IsTerminal(s) then s
    else if s.stage.AwaitingHello? then
      if e.ReceiveRequest? then FailProtocol(s)
      else if e.supported then s.(stage := Handshaking, handshake := AwaitSnapshot)
      else FailProtocol(s.(stage := Handshaking)).(handshake := Rejecting)
    else if e.ReceiveHello? then FailProtocol(s)
    else if s.stage.Ready? then StartRequest(s.(requests := s.requests + [Queued]), |s.requests|)
    else s.(requests := s.requests + [Queued])
  }

  function Step(s: State, e: Event): State {
    match e
    case ReceiveHello(_) => ReceiveStep(s, e)
    case ReceiveRequest => ReceiveStep(s, e)
    case BadData => FailProtocol(s)
    case Timeout => if s.timerArmed then FailProtocol(s) else s
    case Disconnect => DoDisconnect(s)
    case TransportCloses => s.(transportClosed := true)
    case BeginServerClose => s.(serverClosing := true)
    case CloseServerState =>
      if s.disconnected || !s.serverClosing then s
      else s.(stage := Closing, timerArmed := false, log := s.log + [ClosingBegan])
    case RunQueued(_) => RequestStep(s, e)
    case CommandSettles(_, _) => RequestStep(s, e)
    case ResponseSettles(_, _) => RequestStep(s, e)
    case ResponseShut(_) => RequestStep(s, e)
    case SnapshotArrives(_) => HandshakeStep(s, e)
    case SnapshotFails => HandshakeStep(s, e)
    case HelloSettles(_, _) => HandshakeStep(s, e)
    case AgainArrives(_) => HandshakeStep(s, e)
    case EventSettles(_) => HandshakeStep(s, e)
    case HandshakeShut => HandshakeStep(s, e)
  }

  function Run(s: State, es: seq<Event>): State
    decreases |es|
  {
    if es == [] then s else Run(Step(s, es[0]), es[1..])
  }

  // ---------------------------------------------------------------- what a log may hold

  /** What may happen next, given what has happened. */
  predicate MayFollow(log: seq<Action>, a: Action) {
    match a
    case HelloSent => HelloSent !in log
    case Dispatched(i) => HelloSent in log && ClosingBegan !in log && Disconnected !in log && Dispatched(i) !in log
    case Responded(i) => Dispatched(i) in log && Responded(i) !in log && Disconnected !in log
    case ClosingBegan => Disconnected !in log
    case Disconnected => Disconnected !in log
  }

  predicate Lawful(log: seq<Action>) {
    forall j :: 0 <= j < |log| ==> MayFollow(log[..j], log[j])
  }

  lemma LawfulAppend(log: seq<Action>, a: Action)
    requires Lawful(log) && MayFollow(log, a)
    ensures Lawful(log + [a])
  {
    forall j | 0 <= j < |log| + 1 ensures MayFollow((log + [a])[..j], (log + [a])[j]) {
      assert (log + [a])[..j] == if j < |log| then log[..j] else log;
    }
  }

  // ---------------------------------------------------------------- the invariant

  /** The stage against the flags, the handshake task and the log. */
  predicate StageOk(s: State) {
    && (s.disconnected <==> s.stage.Closed?)
    && (Disconnected in s.log <==> s.disconnected)
    && (ClosingBegan in s.log ==> IsTerminal(s))
    && (s.stage.AwaitingHello? ==> s.handshake.NotStarted?)
    && (s.stage.Ready? ==> HelloSent in s.log)
    && (HelloSent in s.log ==>
          (|| s.handshake.AwaitSnapshotAgain? || s.handshake.SendingEvent?
           || s.handshake.Settled? || s.handshake.Rejecting?))
    && (s.handshakeComplete ==> HelloSent in s.log)
    && (s.timerArmed <==> s.stage.AwaitingHello? || s.stage.Handshaking?)
    && (s.handshake.SendingHello? ==> !s.handshake.hello.Sent? && !s.handshake.hello.NotSent?)
  }

  /**
   * A request against the log: it is answered only once it was dispatched, and not at all only on a dead connection.
   */
  predicate RequestOk(log: seq<Action>, dead: bool, i: nat, q: Request) {
    && (Dispatched(i) in log <==> q.Executing? || q.Responding? || q.Finished?)
    && (Responded(i) in log ==> q.Responding? || q.Finished?)
    && (q == Responding(Writing) ==> Responded(i) in log)
    && (q.Finished? ==> Responded(i) in log || dead)
  }

  predicate Dead(s: State) { s.disconnected || s.transportClosed }

  ghost predicate RequestsOk(log: seq<Action>, dead: bool, requests: seq<Request>) {
    && (forall i :: 0 <= i < |requests| ==> RequestOk(log, dead, i, requests[i]))
    && (forall i :: i >= |requests| ==> Dispatched(i) !in log && Responded(i) !in log)
  }

  ghost predicate Inv(s: State) {
    Lawful(s.log) && StageOk(s) && RequestsOk(s.log, Dead(s), s.requests)
  }

  lemma OtherAction(log: seq<Action>, dead: bool, dead': bool, requests: seq<Request>, a: Action)
    requires RequestsOk(log, dead, requests) && !a.Dispatched? && !a.Responded? && (dead ==> dead')
    ensures RequestsOk(log + [a], dead', requests)
  {
    forall i | 0 <= i < |requests| ensures RequestOk(log + [a], dead', i, requests[i]) {
      assert RequestOk(log, dead, i, requests[i]);
    }
  }

  lemma RequestArrives(log: seq<Action>, dead: bool, requests: seq<Request>)
    requires RequestsOk(log, dead, requests)
    ensures RequestsOk(log, dead, requests + [Queued])
  {
    var after := requests + [Queued];
    forall i | 0 <= i < |after| ensures RequestOk(log, dead, i, after[i]) {
      assert i < |requests| ==> RequestOk(log, dead, i, requests[i]);
    }
  }

  /** Request i moves on, with what that adds to the log. */
  lemma RequestMoves(log: seq<Action>, dead: bool, requests: seq<Request>, i: nat, q: Request, log': seq<Action>)
    requires RequestsOk(log, dead, requests) && i < |requests|
    requires log' == log || log' == log + [Dispatched(i)] || log' == log + [Responded(i)]
    requires RequestOk(log', dead, i, q)
    ensures RequestsOk(log', dead, requests[i := q])
  {
    var after := requests[i := q];
    forall k | 0 <= k < |after| ensures RequestOk(log', dead, k, after[k]) {
      assert k != i ==> RequestOk(log, dead, k, requests[k]);
    }
  }

  lemma DisconnectKeepsInv(s: State)
    requires Inv(s)
    ensures Inv(DoDisconnect(s))
  {
    if !s.disconnected {
      LawfulAppend(s.log, Disconnected);
      OtherAction(s.log, Dead(s), true, s.requests, Disconnected);
    }
  }

  lemma FailProtocolKeepsInv(s: State)
    requires Inv(s)
    ensures Inv(FailProtocol(s))
  {
    if !IsTerminal(s) {
      LawfulAppend(s.log, ClosingBegan);
      OtherAction(s.log, Dead(s), Dead(s), s.requests, ClosingBegan);
    }
  }

  lemma StartRequestKeepsInv(s: State, i: nat)
    requires Inv(s) && i < |s.requests| && s.requests[i].Queued? && s.stage.Ready?
    ensures Inv(StartRequest(s, i))
  {
    assert RequestOk(s.log, Dead(s), i, s.requests[i]);
    LawfulAppend(s.log, Dispatched(i));
    RequestMoves(s.log, Dead(s), s.requests, i, Executing, s.log + [Dispatched(i)]);
  }

  lemma ReceiveKeepsInv(s: State, e: Event)
    requires Inv(s) && (e.ReceiveHello? || e.ReceiveRequest?)
    ensures Inv(ReceiveStep(s, e))
  {
    FailProtocolKeepsInv(s);
    if e.ReceiveRequest? && !IsTerminal(s) && !s.stage.AwaitingHello? {
      var t := s.(requests := s.requests + [Queued]);
      RequestArrives(s.log, Dead(s), s.requests);
      assert Inv(t);
      if s.stage.Ready? { StartRequestKeepsInv(t, |s.requests|); }
    }
  }

  lemma HelloSettlesKeepsInv(s: State, ok: bool, changed: bool)
    requires Inv(s)
    ensures Inv(HandshakeStep(s, HelloSettles(ok, changed)))
  {
    if ok && s.handshake == SendingHello(Writing) {
      LawfulAppend(s.log, HelloSent);
      OtherAction(s.log, Dead(s), Dead(s), s.requests, HelloSent);
    }
  }

  lemma HandshakeStepKeepsInv(s: State, e: Event)
    requires Inv(s)
    requires e.SnapshotArrives? || e.SnapshotFails? || e.HelloSettles? || e.AgainArrives? || e.EventSettles? ||
             e.HandshakeShut?
    ensures Inv(HandshakeStep(s, e))
  {
    match e
    case HelloSettles(ok, changed) => HelloSettlesKeepsInv(s, ok, changed);
    case SnapshotFails => FailProtocolKeepsInv(s);
    case HandshakeShut => DisconnectKeepsInv(s);
    case _ =>
  }

  lemma AnswerKeepsInv(s: State, i: nat)
    requires Inv(s) && i < |s.requests| && s.requests[i].Executing? && !s.disconnected
    ensures Inv(s.(requests := s.requests[i := Responding(Writing)], log := s.log + [Responded(i)]))
  {
    assert RequestOk(s.log, Dead(s), i, s.requests[i]);
    LawfulAppend(s.log, Responded(i));
    RequestMoves(s.log, Dead(s), s.requests, i, Responding(Writing), s.log + [Responded(i)]);
  }

  lemma UnansweredKeepsInv(s: State, i: nat, q: Request)
    requires Inv(s) && i < |s.requests| && s.requests[i].Executing?
    requires q == Responding(Shutting) || (q == Finished && Dead(s))
    ensures Inv(s.(requests := s.requests[i := q]))
  {
    assert RequestOk(s.log, Dead(s), i, s.requests[i]);
    RequestMoves(s.log, Dead(s), s.requests, i, q, s.log);
  }

  lemma CommandSettlesKeepsInv(s: State, i: nat, encodes: bool)
    requires Inv(s)
    ensures Inv(RequestStep(s, CommandSettles(i, encodes)))
  {
    if i < |s.requests| && s.requests[i].Executing? {
      var send := StartSend(s, encodes);
      if send.Writing? {
        AnswerKeepsInv(s, i);
      } else {
        UnansweredKeepsInv(s, i, if send.NotSent? then Finished else Responding(send));
      }
    }
  }

  lemma RequestStepKeepsInv(s: State, e: Event)
    requires Inv(s)
    requires e.RunQueued? || e.CommandSettles? || e.ResponseSettles? || e.ResponseShut?
    ensures Inv(RequestStep(s, e))
  {
    var t := RequestStep(s, e);
    if e.i < |s.requests| {
      var i := e.i;
      assert RequestOk(s.log, Dead(s), i, s.requests[i]);
      if e.CommandSettles? {
        CommandSettlesKeepsInv(s, i, e.encodes);
      } else if e.ResponseShut? {
        DisconnectKeepsInv(s);
        RequestMoves(DoDisconnect(s).log, true, s.requests, i, t.requests[i], DoDisconnect(s).log);
      } else if t.log != s.log {
        StartRequestKeepsInv(s, i);
      } else {
        RequestMoves(s.log, Dead(s), s.requests, i, t.requests[i], s.log);
      }
    }
  }

  lemma StepKeepsInv(s: State, e: Event)
    requires Inv(s)
    ensures Inv(Step(s, e))
  {
    match e
    case ReceiveHello(_) => ReceiveKeepsInv(s, e);
    case ReceiveRequest => ReceiveKeepsInv(s, e);
    case BadData => FailProtocolKeepsInv(s);
    case Timeout => FailProtocolKeepsInv(s);
    case Disconnect => DisconnectKeepsInv(s);
    case TransportCloses => TransportClosesKeepsInv(s);
    case BeginServerClose =>
    case CloseServerState => CloseServerStateKeepsInv(s);
    case RunQueued(_) => RequestStepKeepsInv(s, e);
    case CommandSettles(_, _) => RequestStepKeepsInv(s, e);
    case ResponseSettles(_, _) => RequestStepKeepsInv(s, e);
    case ResponseShut(_) => RequestStepKeepsInv(s, e);
    case SnapshotArrives(_) => HandshakeStepKeepsInv(s, e);
    case SnapshotFails => HandshakeStepKeepsInv(s, e);
    case HelloSettles(_, _) => HandshakeStepKeepsInv(s, e);
    case AgainArrives(_) => HandshakeStepKeepsInv(s, e);
    case EventSettles(_) => HandshakeStepKeepsInv(s, e);
    case HandshakeShut => HandshakeStepKeepsInv(s, e);
  }

  lemma TransportClosesKeepsInv(s: State)
    requires Inv(s)
    ensures Inv(s.(transportClosed := true))
  {
    forall i | 0 <= i < |s.requests| ensures RequestOk(s.log, true, i, s.requests[i]) {
      assert RequestOk(s.log, Dead(s), i, s.requests[i]);
    }
  }

  lemma CloseServerStateKeepsInv(s: State)
    requires Inv(s)
    ensures Inv(Step(s, CloseServerState))
  {
    if !s.disconnected {
      LawfulAppend(s.log, ClosingBegan);
      OtherAction(s.log, Dead(s), Dead(s), s.requests, ClosingBegan);
    }
  }

  predicate Forward(s: State, t: State) {
    Rank(s.stage) <= Rank(t.stage) && (s.disconnected ==> t.disconnected) && s.log <= t.log
  }

  lemma HandshakeMovesForward(s: State, e: Event)
    requires StageOk(s)
    requires e.SnapshotArrives? || e.SnapshotFails? || e.HelloSettles? || e.AgainArrives? || e.EventSettles? ||
             e.HandshakeShut?
    ensures Forward(s, HandshakeStep(s, e))
  {
  }

  lemma RequestMovesForward(s: State, e: Event)
    requires StageOk(s)
    requires e.RunQueued? || e.CommandSettles? || e.ResponseSettles? || e.ResponseShut?
    ensures Forward(s, RequestStep(s, e))
  {
  }

  /** A step never takes the stage back, nor undoes a disconnect, nor rewrites the log. */
  lemma StepMovesForward(s: State, e: Event)
    requires StageOk(s)
    ensures Forward(s, Step(s, e))
  {
    if e.SnapshotArrives? || e.SnapshotFails? || e.HelloSettles? || e.AgainArrives? || e.EventSettles? ||
        e.HandshakeShut? {
      HandshakeMovesForward(s, e);
    } else if e.RunQueued? || e.CommandSettles? || e.ResponseSettles? || e.ResponseShut? {
      RequestMovesForward(s, e);
    }
  }

  // ---------------------------------------------------------------- over whole runs

  lemma {:induction false} RunKeepsInv(s: State, es: seq<Event>)
    requires Inv(s)
    ensures Inv(Run(s, es))
    decreases |es|
  {
    if es != [] {
      StepKeepsInv(s, es[0]);
      RunKeepsInv(Step(s, es[0]), es[1..]);
    }
  }

  /** Over every run the stage only moves forward and the log only grows. */
  lemma {:induction false} StageMovesForward(s: State, es: seq<Event>)
    requires Inv(s)
    ensures Forward(s, Run(s, es))
    decreases |es|
  {
    if es != [] {
      StepKeepsInv(s, es[0]);
      StepMovesForward(s, es[0]);
      StageMovesForward(Step(s, es[0]), es[1..]);
    }
  }

  /**
   * Every run's log is lawful: a request is dispatched at most once, only after the hello was sent and never after
   * closing or disconnecting; it is answered at most once, after it was dispatched and before the disconnect.
   */
  lemma RunsAreLawful(es: seq<Event>)
    ensures Inv(Run(INITIAL, es)) && Lawful(Run(INITIAL, es).log)
  {
    RunKeepsInv(INITIAL, es);
  }

  /** In a lawful log the hello, each dispatch, each answer and the disconnect happen at most once. */
  lemma OnceOnly(log: seq<Action>, j: nat, k: nat)
    requires Lawful(log) && j < |log| && k < |log| && log[k] == log[j] && !log[j].ClosingBegan?
    ensures j == k
  {
    var lo, hi := if j < k then j else k, if j < k then k else j;
    assert MayFollow(log[..hi], log[hi]);
  }

  /** A dispatch follows the hello and precedes every closing and the disconnect. */
  lemma DispatchedBetween(log: seq<Action>, j: nat, k: nat)
    requires Lawful(log) && j < |log| && k < |log| && log[j].Dispatched?
    requires log[k].HelloSent? || log[k].ClosingBegan? || log[k].Disconnected?
    ensures (log[k].HelloSent? ==> k < j) && (!log[k].HelloSent? ==> j < k)
  {
    assert MayFollow(log[..j], log[j]);
    if log[k].HelloSent? {
      var h :| 0 <= h < j && log[h].HelloSent?;
      OnceOnly(log, h, k);
    }
  }

  /** A request whose task has finished was answered, exactly once, unless the connection is gone. */
  lemma FinishedIsAnswered(es: seq<Event>, i: nat)
    requires var s := Run(INITIAL, es); i < |s.requests| && s.requests[i].Finished? && !Dead(s)
    ensures Responded(i) in Run(INITIAL, es).log
  {
    RunKeepsInv(INITIAL, es);
    var s := Run(INITIAL, es);
    assert RequestOk(s.log, Dead(s), i, s.requests[i]);
  }

  /** The handshake timer is armed exactly until the handshake is over, so it never fails a ready connection. */
  lemma TimerNeverFiresWhenReady(es: seq<Event>)
    requires Run(INITIAL, es).stage.Ready?
    ensures Step(Run(INITIAL, es), Timeout) == Run(INITIAL, es)
  {
    RunKeepsInv(INITIAL, es);
  }

  // ---------------------------------------------------------------- what is bound to happen

  /** What makes a connection terminal: a fault of the peer, a failed handshake or send, a timeout, or a close. */
  predicate Ends(s: State, e: Event) {
    || e.BadData? || e.Disconnect?
    || (e.Timeout? && s.timerArmed)
    || (e.ReceiveHello? && !(s.stage.AwaitingHello? && e.supported))
    || (e.ReceiveRequest? && s.stage.AwaitingHello?)
    || (e.SnapshotFails? && (s.handshake.AwaitSnapshot? || s.handshake.AwaitSnapshotAgain?))
    || (e.HandshakeShut? && (s.handshake == SendingHello(Shutting) || s.handshake == SendingEvent(Shutting)
                             || s.handshake.Rejecting?))
    || (e.ResponseShut? && e.i < |s.requests| && s.requests[e.i] == Responding(Shutting))
    || (e.CloseServerState? && s.serverClosing)
  }

  /** A connection becomes terminal exactly in such a step, and stays terminal. */
  lemma EndsExactly(s: State, e: Event)
    requires Inv(s)
    ensures IsTerminal(Step(s, e)) <==> IsTerminal(s) || Ends(s, e)
    ensures !IsTerminal(s) && IsTerminal(Step(s, e)) ==> !Step(s, e).timerArmed
  {
    if e.SnapshotArrives? || e.SnapshotFails? || e.HelloSettles? || e.AgainArrives? || e.EventSettles? ||
        e.HandshakeShut? {
      HandshakeEndsExactly(s, e);
    } else if e.RunQueued? || e.CommandSettles? || e.ResponseSettles? || e.ResponseShut? {
      RequestEndsExactly(s, e);
    }
  }

  lemma HandshakeEndsExactly(s: State, e: Event)
    requires Inv(s)
    requires e.SnapshotArrives? || e.SnapshotFails? || e.HelloSettles? || e.AgainArrives? || e.EventSettles? ||
             e.HandshakeShut?
    ensures var t := HandshakeStep(s, e);
      && (IsTerminal(t) <==> IsTerminal(s) || Ends(s, e)) && (!IsTerminal(s) && IsTerminal(t) ==> !t.timerArmed)
  {
  }

  lemma RequestEndsExactly(s: State, e: Event)
    requires Inv(s) && (e.RunQueued? || e.CommandSettles? || e.ResponseSettles? || e.ResponseShut?)
    ensures var t := RequestStep(s, e);
      && (IsTerminal(t) <==> IsTerminal(s) || Ends(s, e)) && (!IsTerminal(s) && IsTerminal(t) ==> !t.timerArmed)
  {
  }

  /** A handshake whose snapshot arrives and whose hello gets through makes the connection ready. */
  lemma BecomesReady(s: State, changed: bool)
    requires Inv(s) && s.stage.Handshaking? && s.handshake.AwaitSnapshot? && !s.serverClosing && !s.transportClosed
    ensures var t := Step(Step(s, SnapshotArrives(true)), HelloSettles(true, changed));
      && t.stage.Ready? && !t.timerArmed && t.log == s.log + [HelloSent] && t.requests == s.requests
      && (t.handshake.Settled? <==> !changed)
  {
  }

  /** A request received on a ready connection is dispatched at once; one received during the handshake is queued. */
  lemma ReceivedIsTaken(s: State)
    requires Inv(s) && (s.stage.Handshaking? || s.stage.Ready?)
    ensures var t, n := Step(s, ReceiveRequest), |s.requests|;
      && |t.requests| == n + 1 && t.requests[..n] == s.requests
      && (s.stage.Ready? ==> t.requests[n].Executing? && t.log == s.log + [Dispatched(n)])
      && (s.stage.Handshaking? ==> t.requests[n].Queued? && t.log == s.log)
      && t.stage == s.stage && t.handshake == s.handshake && t.timerArmed == s.timerArmed
  {
  }

  /** A queued request is dispatched exactly once the handshake has settled and left the connection ready. */
  lemma QueuedIsDispatchedExactly(s: State, i: nat)
    requires Inv(s) && i < |s.requests| && s.requests[i].Queued?
    ensures var t := Step(s, RunQueued(i));
      && (Dispatched(i) in t.log <==> s.handshake.Settled? && s.stage.Ready?)
      && (Dispatched(i) in t.log ==> t.requests == s.requests[i := Executing] && t.log == s.log + [Dispatched(i)])
      && (t.requests[i].Queued? <==> !s.handshake.Settled?)
      && t.stage == s.stage
  {
    assert RequestOk(s.log, Dead(s), i, s.requests[i]);
  }

  /**
   * A command that settles is answered exactly if its answer encodes and the connection is alive. An answer that does
   * not encode costs the connection.
   */
  lemma SettledIsAnsweredExactly(s: State, i: nat, encodes: bool)
    requires Inv(s) && i < |s.requests| && s.requests[i].Executing?
    ensures var t := Step(s, CommandSettles(i, encodes));
      && (Responded(i) in t.log <==> encodes && !Dead(s))
      && (Responded(i) in t.log ==> t.log == s.log + [Responded(i)])
      && (Dead(s) ==> t.requests[i].Finished?)
      && (!encodes && !Dead(s) ==> Step(t, ResponseShut(i)).disconnected)
  {
    assert RequestOk(s.log, Dead(s), i, s.requests[i]);
  }

  /** A request is dropped only after the handshake has settled without making the connection ready. */
  ghost predicate DropsOk(s: State) {
    forall i :: 0 <= i < |s.requests| && s.requests[i].Dropped? ==> s.handshake.Settled? && !s.stage.Ready?
  }

  lemma HandshakeKeepsDrops(s: State, e: Event)
    requires Inv(s) && DropsOk(s)
    requires e.SnapshotArrives? || e.SnapshotFails? || e.HelloSettles? || e.AgainArrives? || e.EventSettles? ||
             e.HandshakeShut?
    ensures DropsOk(HandshakeStep(s, e))
  {
  }

  lemma RequestKeepsDrops(s: State, e: Event)
    requires Inv(s) && DropsOk(s) && (e.RunQueued? || e.CommandSettles? || e.ResponseSettles? || e.ResponseShut?)
    ensures DropsOk(RequestStep(s, e))
  {
  }

  lemma StepKeepsDrops(s: State, e: Event)
    requires Inv(s) && DropsOk(s)
    ensures DropsOk(Step(s, e))
  {
    if e.SnapshotArrives? || e.SnapshotFails? || e.HelloSettles? || e.AgainArrives? || e.EventSettles? ||
        e.HandshakeShut? {
      HandshakeKeepsDrops(s, e);
    } else if e.RunQueued? || e.CommandSettles? || e.ResponseSettles? || e.ResponseShut? {
      RequestKeepsDrops(s, e);
    }
  }

  lemma {:induction false} RunKeepsDrops(s: State, es: seq<Event>)
    requires Inv(s) && DropsOk(s)
    ensures Inv(Run(s, es)) && DropsOk(Run(s, es))
    decreases |es|
  {
    if es != [] {
      StepKeepsInv(s, es[0]);
      StepKeepsDrops(s, es[0]);
      RunKeepsDrops(Step(s, es[0]), es[1..]);
    }
  }

  /** A connection that is ready has lost no request: each one received was dispatched or still has its turn to come. */
  lemma ReadyHasLostNothing(es: seq<Event>, i: nat)
    requires var s := Run(INITIAL, es); s.stage.Ready? && i < |s.requests|
    ensures var s := Run(INITIAL, es); s.requests[i].Queued? || Dispatched(i) in s.log
  {
    RunKeepsDrops(INITIAL, es);
    var s := Run(INITIAL, es);
    assert RequestOk(s.log, Dead(s), i, s.requests[i]);
  }
}
