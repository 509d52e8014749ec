/**
 * The session leases of packages/client/src/client.ts: the table of counts, exclusive tokens and generations, and the
 * handles made from reserved tokens.
 */
module ClientLeases {
  import opened Common

  type Id = string
  datatype Mode = Shared | Exclusive

  /** A token is an object of its own: `serial` is its identity. */
  datatype Token = Token(serial: nat, mode: Mode)

  /**
   * The three maps of the client. `outstanding` is history: tokens reserved since the last invalidation, not
   * released.
   */
  datatype Leases = Leases(
    counts: map<Id, nat>,
    exclusive: map<Id, Token>,
    generations: map<Id, nat>,
    nextSerial: nat,
    outstanding: map<Id, set<Token>>)

  const NO_LEASES := Leases(map[], map[], map[], 0, map[])

  function Count(s: Leases, id: Id): nat { if id in s.counts then s.counts[id] else 0 }
  function Generation(s: Leases, id: Id): nat { if id in s.generations then s.generations[id] else 0 }
  function Held(s: Leases, id: Id): set<Token> { if id in s.outstanding then s.outstanding[id] else {} }

  // ---------------------------------------------------------------- the operations

  predicate Refuses(s: Leases, id: Id, mode: Mode) {
    if mode.Exclusive? then Count(s, id) > 0 else id in s.exclusive
  }

  function Reserved(s: Leases, id: Id, mode: Mode): Leases {
    var token := Token(s.nextSerial, mode);
    s.(counts := s.counts[id := Count(s, id) + 1],
       exclusive := if mode.Exclusive? then s.exclusive[id := token] else s.exclusive,
       nextSerial := s.nextSerial + 1,
       outstanding := s.outstanding[id := Held(s, id) + {token}])
  }

  function Released(s: Leases, id: Id, token: Token): Leases {
    s.(counts := if Count(s, id) <= 1 then s.counts - {id} else s.counts[id := s.counts[id] - 1],
       exclusive := if id in s.exclusive && s.exclusive[id] == token then s.exclusive - {id} else s.exclusive,
       outstanding := s.outstanding[id := Held(s, id) - {token}])
  }

  function Invalidated(s: Leases, id: Id): Leases {
    s.(counts := s.counts - {id},
       exclusive := s.exclusive - {id},
       generations := s.generations[id := Generation(s, id) + 1],
       outstanding := s.outstanding - {id})
  }

  /** Every session of a set invalidated. */
  function AllInvalidated(s: Leases, ids: set<Id>): Leases {
    s.(counts := s.counts - ids,
       exclusive := s.exclusive - ids,
       generations := map id | id in s.generations.Keys + ids ::
                        if id in ids then Generation(s, id) + 1 else s.generations[id],
       outstanding := s.outstanding - ids)
  }

  lemma InvalidateOneMore(s: Leases, ids: set<Id>, id: Id)
    requires id !in ids
    ensures Invalidated(AllInvalidated(s, ids), id) == AllInvalidated(s, ids + {id})
  {
    var t, u := Invalidated(AllInvalidated(s, ids), id), AllInvalidated(s, ids + {id});
    assert t.counts == u.counts && t.exclusive == u.exclusive && t.outstanding == u.outstanding;
    assert t.generations == u.generations;
  }

  lemma InvalidateNone(s: Leases)
    ensures AllInvalidated(s, {}) == s
  {
    var t := AllInvalidated(s, {});
    assert t.counts == s.counts && t.exclusive == s.exclusive && t.outstanding == s.outstanding;
    assert t.generations == s.generations;
  }

  /** The client's lease table, updated in place. */
  class LeaseTable {
    var counts: map<Id, nat>
    var exclusive: map<Id, Token>
    var generations: map<Id, nat>
    var nextSerial: nat
    ghost var outstanding: map<Id, set<Token>>

    ghost function View(): Leases
      reads this
    {
      Leases(counts, exclusive, generations, nextSerial, outstanding)
    }

    constructor ()
      ensures View() == NO_LEASES
    {
      counts, exclusive, generations, nextSerial, outstanding := map[], map[], map[], 0, map[];
    }

    method Reserve(id: Id, mode: Mode) returns (r: Option<Token>)
      modifies this
      ensures Refuses(old(View()), id, mode) ==> r == None && View() == old(View())
      ensures !Refuses(old(View()), id, mode) ==>
        r == Some(Token(old(nextSerial), mode)) && View() == Reserved(old(View()), id, mode)
    {
      var count := if id in counts then counts[id] else 0;
      if mode.Exclusive? && count > 0 {
        return None;
      }
      if mode.Shared? && id in exclusive {
        return None;
      }
      var token := Token(nextSerial, mode);
      nextSerial := nextSerial + 1;
      counts := counts[id := count + 1];
      if mode.Exclusive? {
        exclusive := exclusive[id := token];
      }
      outstanding := outstanding[id := Held(old(View()), id) + {token}];
      return Some(token);
    }

    method Release(id: Id, token: Token)
      modifies this
      ensures View() == Released(old(View()), id, token)
    {
      var count := if id in counts then counts[id] else 0;
      if count <= 1 {
        counts := counts - {id};
      } else {
        counts := counts[id := count - 1];
      }
      if id in exclusive && exclusive[id] == token {
        exclusive := exclusive - {id};
      }
      outstanding := outstanding[id := Held(old(View()), id) - {token}];
    }

    method Invalidate(id: Id)
      modifies this
      ensures View() == Invalidated(old(View()), id)
    {
      counts := counts - {id};
      exclusive := exclusive - {id};
      generations := generations[id := (if id in generations then generations[id] else 0) + 1];
      outstanding := outstanding - {id};
    }

    /** Walks the keys of the very map it deletes from. */
    method InvalidateAll()
      modifies this
      ensures View() == AllInvalidated(old(View()), old(counts.Keys))
    {
      ghost var s := View();
      ghost var done: set<Id> := {};
      InvalidateNone(s);
      while counts.Keys != {}
        invariant View() == AllInvalidated(s, done)
        invariant done <= s.counts.Keys && counts.Keys == s.counts.Keys - done
        decreases |counts.Keys|
      {
        var id :| id in counts.Keys;
        InvalidateOneMore(s, done, id);
        assert counts.Keys - {id} < counts.Keys && s.counts.Keys - (done + {id}) == counts.Keys - {id};
        Invalidate(id);
        done := done + {id};
        assert counts == AllInvalidated(s, done).counts;
      }
      assert done == s.counts.Keys;
    }
  }

  // ---------------------------------------------------------------- counts and exclusion

  /** The count is the number of outstanding tokens, and an exclusive one is alone. */
  predicate SessionOk(s: Leases, id: Id) {
    && Count(s, id) == |Held(s, id)|
    && (id in s.counts ==> s.counts[id] > 0)
    && (id in s.exclusive ==> s.exclusive[id].mode.Exclusive? && Held(s, id) == {s.exclusive[id]})
    && (forall t :: t in Held(s, id) ==> t.serial < s.nextSerial && (t.mode.Exclusive? ==> id in s.exclusive))
  }

  ghost predicate Ok(s: Leases) {
    forall id :: SessionOk(s, id)
  }

  /** What reserving promises: exclusive needs nobody, shared needs no exclusive holder. */
  lemma RefusesExactly(s: Leases, id: Id, mode: Mode)
    requires Ok(s)
    ensures Refuses(s, id, mode) <==> exists t :: t in Held(s, id) && (mode.Exclusive? || t.mode.Exclusive?)
  {
    assert SessionOk(s, id);
    if Count(s, id) > 0 {
      var t :| t in Held(s, id);
    }
  }

  lemma ReserveKeepsOk(s: Leases, id: Id, mode: Mode)
    requires Ok(s) && !Refuses(s, id, mode)
    ensures Ok(Reserved(s, id, mode))
  {
    forall i ensures SessionOk(Reserved(s, id, mode), i) {
      assert SessionOk(s, i);
    }
  }

  lemma InvalidateKeepsOk(s: Leases, ids: set<Id>)
    requires Ok(s)
    ensures Ok(AllInvalidated(s, ids))
  {
    forall i ensures SessionOk(AllInvalidated(s, ids), i) {
      assert SessionOk(s, i);
    }
  }

  /** A release keeps the counts right exactly when its token is outstanding or nothing is. */
  lemma ReleaseKeepsOkExactly(s: Leases, id: Id, token: Token)
    requires Ok(s)
    ensures Ok(Released(s, id, token)) <==> token in Held(s, id) || Held(s, id) == {}
  {
    var t := Released(s, id, token);
    assert SessionOk(s, id);
    if token in Held(s, id) || Held(s, id) == {} {
      forall i ensures SessionOk(t, i) {
        assert SessionOk(s, i);
      }
    } else {
      assert Held(t, id) == Held(s, id);
      assert !SessionOk(t, id);
    }
  }

  /** A stale release next to an exclusive holder lets a second exclusive holder in. */
  lemma StaleReleaseBreaksExclusion(s: Leases, id: Id, holder: Token, stale: Token)
    requires Ok(s) && Held(s, id) == {holder} && holder.mode.Exclusive? && stale != holder
    ensures Refuses(s, id, Exclusive) && !Refuses(Released(s, id, stale), id, Exclusive)
    ensures holder in Held(Released(s, id, stale), id)
  {
    assert SessionOk(s, id);
  }

  // ---------------------------------------------------------------- handles

  /** The state of the handle made from a token; Acquiring until acquireSession succeeds, Dropped if it fails. */
  datatype Phase = Acquiring | Dropped | Active | Releasing | Relinquished | Stale

  /** `detaching`: its release awaits the server's answer. */
  datatype Handle = Handle(id: Id, mode: Mode, phase: Phase, generation: nat, detaching: bool)

  /** handles[n] belongs to the token with serial n. */
  datatype Client = Client(table: Leases, handles: seq<Handle>)

  datatype Event =
    | Reserve(id: Id, mode: Mode)
    | Acquired(n: nat)
    | AcquireFailed(n: nat)
    | Refresh(n: nat)                          // any use of the handle looks at the generation first
    | BeginRelease(n: nat, attached: bool)     // attached: connected, and the session is attached
    | DetachDone(n: nat)
    | DetachFailed(n: nat, relinquish: bool)
    | Invalidate(id: Id)
    | InvalidateAll

  const NO_HANDLES := Client(NO_LEASES, [])

  function TokenOf(c: Client, n: nat): Token
    requires n < |c.handles|
  {
    Token(n, c.handles[n].mode)
  }

  predicate Created(h: Handle) { !h.phase.Acquiring? && !h.phase.Dropped? }

  function Refreshed(s: Leases, h: Handle): Handle {
    if (h.phase.Active? || h.phase.Releasing?) && Generation(s, h.id) != h.generation then h.(phase := Stale) else h
  }

  predicate IsActive(s: Leases, h: Handle, attached: bool) { Refreshed(s, h).phase.Active? && attached }

  /** Handle n becomes h; with release its token goes back to the table. */
  function Put(c: Client, n: nat, h: Handle, release: bool): Client
    requires n < |c.handles|
  {
    Client(if release then Released(c.table, h.id, Token(n, h.mode)) else c.table, c.handles[n := h])
  }

  function HandleStep(c: Client, e: Event): Client
    requires !e.Reserve? && !e.Invalidate? && !e.InvalidateAll?
  {
    if e.n >= |c.handles| then c
    else
      var h := c.handles[e.n];
      var h' := Refreshed(c.table, h);
      match e
      case Acquired(n) =>
        if !h.phase.Acquiring? then c
        else
          var g := Generation(c.table, h.id);
          Put(c, n, h.(phase := Active, generation := g), false).(
            table := c.table.(generations := c.table.generations[h.id := g]))
      case AcquireFailed(n) => if h.phase.Acquiring? then Put(c, n, h.(phase := Dropped), true) else c
      case Refresh(n) => Put(c, n, h', false)
      case BeginRelease(n, attached) =>
        if !IsActive(c.table, h, attached) then Put(c, n, h', false)
        else if Count(c.table, h.id) <= 1 then Put(c, n, h.(phase := Releasing, detaching := true), false)
        else Put(c, n, h.(phase := Relinquished), true)
      case DetachDone(n) => if h.detaching then Put(c, n, h.(phase := Relinquished, detaching := false), true) else c
      case DetachFailed(n, relinquish) =>
        if !h.detaching then c
        else if h'.phase.Stale? then Put(c, n, h'.(detaching := false), false)
        else if relinquish then Put(c, n, h.(phase := Relinquished, detaching := false), true)
        else Put(c, n, h.(phase := Active, detaching := false), false)
  }

  function Step(c: Client, e: Event): Client {
    if e.Reserve? then
      if Refuses(c.table, e.id, e.mode) then c
      else Client(Reserved(c.table, e.id, e.mode), c.handles + [Handle(e.id, e.mode, Acquiring, 0, false)])
    else if e.Invalidate? then c.(table := Invalidated(c.table, e.id))
    else if e.InvalidateAll? then c.(table := AllInvalidated(c.table, c.table.counts.Keys))
    else HandleStep(c, e)
  }

  function Run(c: Client, es: seq<Event>): Client
    decreases |es|
  {
    if es == [] then c else Run(Step(c, es[0]), es[1..])
  }

  // ---------------------------------------------------------------- generations, over every run

  predicate Wf(c: Client) {
    forall n :: 0 <= n < |c.handles| ==> (c.handles[n].detaching ==> Created(c.handles[n]))
  }

  /** What becomes of a handle: once created it keeps its generation. */
  predicate Same(h: Handle, k: Handle) {
    k.id == h.id && k.mode == h.mode && (Created(h) ==> Created(k) && k.generation == h.generation)
  }

  /** Generations only grow, and created handles keep theirs. */
  ghost predicate Grows(c: Client, d: Client) {
    && |c.handles| <= |d.handles|
    && (forall id :: Generation(c.table, id) <= Generation(d.table, id))
    && (forall n :: 0 <= n < |c.handles| ==> Same(c.handles[n], d.handles[n]))
  }

  lemma HandleStepGrows(c: Client, e: Event)
    requires Wf(c) && !e.Reserve? && !e.Invalidate? && !e.InvalidateAll?
    ensures Grows(c, HandleStep(c, e)) && Wf(HandleStep(c, e))
  {
  }

  lemma StepGrows(c: Client, e: Event)
    requires Wf(c)
    ensures Grows(c, Step(c, e)) && Wf(Step(c, e))
  {
    if !e.Reserve? && !e.Invalidate? && !e.InvalidateAll? {
      HandleStepGrows(c, e);
    }
  }

  lemma {:induction false} RunGrows(c: Client, es: seq<Event>)
    requires Wf(c)
    ensures Grows(c, Run(c, es)) && Wf(Run(c, es))
    decreases |es|
  {
    if es != [] {
      StepGrows(c, es[0]);
      RunGrows(Step(c, es[0]), es[1..]);
    }
  }

  /** A handle whose generation has been passed is never active again, whatever happens, reconnecting included. */
  lemma PassedNeverActive(c: Client, es: seq<Event>, n: nat, attached: bool)
    requires Wf(c) && n < |c.handles| && Created(c.handles[n])
    requires c.handles[n].generation < Generation(c.table, c.handles[n].id)
    ensures n < |Run(c, es).handles| && !IsActive(Run(c, es).table, Run(c, es).handles[n], attached)
  {
    RunGrows(c, es);
    assert Same(c.handles[n], Run(c, es).handles[n]);
  }

  // ---------------------------------------------------------------- the table and the handles together

  /** An outstanding token is of the session its handle is for, and current handles have theirs outstanding. */
  predicate HandleOk(s: Leases, n: nat, h: Handle) {
    && (h.detaching ==> h.phase.Releasing? || h.phase.Stale?)
    && (h.phase.Releasing? ==> h.detaching)
    && (Created(h) ==> h.generation <= Generation(s, h.id))
    && ((h.phase.Active? || h.phase.Releasing?) && h.generation == Generation(s, h.id) ==>
        Token(n, h.mode) in Held(s, h.id))
    && (h.phase.Dropped? || h.phase.Relinquished? ==> Token(n, h.mode) !in Held(s, h.id))
  }

  /** Outstanding tokens of a session belong to handles for that session. */
  predicate Belongs(c: Client, id: Id, t: Token) {
    t.serial < |c.handles| && c.handles[t.serial].id == id && c.handles[t.serial].mode == t.mode
  }

  ghost predicate TokensOk(c: Client) {
    && c.table.nextSerial == |c.handles|
    && (forall id, t :: t in Held(c.table, id) ==> Belongs(c, id, t))
  }

  /** Nothing but the new token has become outstanding. */
  lemma TokensStay(c: Client, d: Client)
    requires TokensOk(c) && d.table.nextSerial == |d.handles| && |c.handles| <= |d.handles|
    requires forall n :: 0 <= n < |c.handles| ==>
               d.handles[n].id == c.handles[n].id && d.handles[n].mode == c.handles[n].mode
    requires forall id, t :: t in Held(d.table, id) ==> t in Held(c.table, id) || Belongs(d, id, t)
    ensures TokensOk(d)
  {
    forall id, t | t in Held(d.table, id) ensures Belongs(d, id, t) {
      if t in Held(c.table, id) { assert Belongs(c, id, t); }
    }
  }

  ghost predicate Inv(c: Client) {
    && Ok(c.table) && TokensOk(c)
    && (forall n :: 0 <= n < |c.handles| ==> HandleOk(c.table, n, c.handles[n]))
  }

  /**
   * What is demanded of a run: a token made into a handle has not been invalidated since it was reserved, and one given
   * back by a failed acquire or a finished detach has not either, or no other is outstanding.
   */
  predicate Timely(c: Client, e: Event) {
    if e.Acquired? && e.n < |c.handles| && c.handles[e.n].phase.Acquiring? then
      TokenOf(c, e.n) in Held(c.table, c.handles[e.n].id)
    else if (e.AcquireFailed? && e.n < |c.handles| && c.handles[e.n].phase.Acquiring?)
         || (e.DetachDone? && e.n < |c.handles| && c.handles[e.n].detaching) then
      TokenOf(c, e.n) in Held(c.table, c.handles[e.n].id) || Held(c.table, c.handles[e.n].id) == {}
    else true
  }

  lemma OnlyToken(s: Leases, id: Id, t: Token)
    requires Ok(s) && t in Held(s, id)
    ensures Count(s, id) <= 1 <==> Held(s, id) == {t}
  {
    assert SessionOk(s, id);
    assert |Held(s, id) - {t}| == |Held(s, id)| - 1;
    if Count(s, id) <= 1 {
      assert Held(s, id) - {t} == {};
      assert Held(s, id) == {t};
    }
  }

  /**
   * The release of an active handle detaches the session from the server exactly if no other handle holds it, and then
   * keeps its token until the server has answered; any other release gives back its own token at once and no other.
   */
  lemma LastReleaseDetachesExactly(c: Client, n: nat, attached: bool)
    requires Inv(c) && n < |c.handles| && IsActive(c.table, c.handles[n], attached)
    ensures var h, token, d := c.handles[n], TokenOf(c, n), Step(c, BeginRelease(n, attached));
      && token in Held(c.table, h.id) && |d.handles| == |c.handles|
      && (d.handles[n].detaching <==> Held(c.table, h.id) == {token})
      && (d.handles[n].detaching ==>
            && d.handles[n].phase.Releasing? && d.table == c.table
            && Held(Step(d, DetachDone(n)).table, h.id) == {})
      && (!d.handles[n].detaching ==>
            d.handles[n].phase.Relinquished? && Held(d.table, h.id) == Held(c.table, h.id) - {token})
      && !IsActive(d.table, d.handles[n], attached)
  {
    assert HandleOk(c.table, n, c.handles[n]);
    OnlyToken(c.table, c.handles[n].id, TokenOf(c, n));
  }

  /**
   * A detach that fails leaves its handle invalidated if the session was invalidated meanwhile. Otherwise the handle is
   * active again with its token, or, if it is to be given up all the same, its token goes back.
   */
  lemma FailedDetach(c: Client, n: nat, relinquish: bool)
    requires Inv(c) && n < |c.handles| && c.handles[n].detaching
    ensures var h, token, d := c.handles[n], TokenOf(c, n), Step(c, DetachFailed(n, relinquish));
      && |d.handles| == |c.handles| && !d.handles[n].detaching
      && (if h.phase.Stale? || h.generation != Generation(c.table, h.id) then
            d.handles[n].phase.Stale? && d.table == c.table
          else if relinquish then
            d.handles[n].phase.Relinquished? && Held(d.table, h.id) == Held(c.table, h.id) - {token}
          else IsActive(d.table, d.handles[n], true) && token in Held(d.table, h.id) && d.table == c.table)
  {
    assert HandleOk(c.table, n, c.handles[n]);
  }

  lemma ReserveKeepsInv(c: Client, id: Id, mode: Mode)
    requires Inv(c)
    ensures Inv(Step(c, Reserve(id, mode)))
  {
    var d := Step(c, Reserve(id, mode));
    if d != c {
      ReserveKeepsOk(c.table, id, mode);
      TokensStay(c, d);
      forall n | 0 <= n < |d.handles| ensures HandleOk(d.table, n, d.handles[n]) {
        if n < |c.handles| { assert HandleOk(c.table, n, c.handles[n]); }
      }
    }
  }

  lemma InvalidateKeepsInv(c: Client, ids: set<Id>)
    requires Inv(c)
    ensures Inv(c.(table := AllInvalidated(c.table, ids)))
  {
    InvalidateKeepsOk(c.table, ids);
    var s := AllInvalidated(c.table, ids);
    TokensStay(c, c.(table := s));
    forall n | 0 <= n < |c.handles| ensures HandleOk(s, n, c.handles[n]) {
      assert HandleOk(c.table, n, c.handles[n]);
    }
  }

  /** Handle n moves on and keeps its token. */
  lemma MoveKeepsInv(c: Client, n: nat, h: Handle)
    requires Inv(c) && n < |c.handles| && h.id == c.handles[n].id && h.mode == c.handles[n].mode
    requires HandleOk(c.table, n, h)
    ensures Inv(Put(c, n, h, false))
  {
  }

  /** Handle n gives its token back. */
  lemma GiveBackKeepsInv(c: Client, n: nat, h: Handle)
    requires Inv(c) && n < |c.handles| && h.id == c.handles[n].id && h.mode == c.handles[n].mode
    requires TokenOf(c, n) in Held(c.table, h.id) || Held(c.table, h.id) == {}
    requires !h.detaching && (h.phase.Dropped? || h.phase.Relinquished?)
    requires Created(h) ==> h.generation <= Generation(c.table, h.id)
    ensures Inv(Put(c, n, h, true))
  {
    ReleaseKeepsOkExactly(c.table, h.id, TokenOf(c, n));
    var d := Put(c, n, h, true);
    TokensStay(c, d);
    forall m | 0 <= m < |d.handles| ensures HandleOk(d.table, m, d.handles[m]) {
      assert HandleOk(c.table, m, c.handles[m]);
    }
  }

  /** Recording a session's generation under its own name changes nothing. */
  lemma RecordGeneration(c: Client, id: Id)
    requires Inv(c)
    ensures Inv(c.(table := c.table.(generations := c.table.generations[id := Generation(c.table, id)])))
  {
    var s := c.table.(generations := c.table.generations[id := Generation(c.table, id)]);
    TokensStay(c, c.(table := s));
    forall i ensures SessionOk(s, i) {
      assert SessionOk(c.table, i);
    }
    forall n | 0 <= n < |c.handles| ensures HandleOk(s, n, c.handles[n]) {
      assert HandleOk(c.table, n, c.handles[n]);
    }
  }

  lemma AcquiredKeepsInv(c: Client, n: nat)
    requires Inv(c) && Timely(c, Acquired(n))
    ensures Inv(HandleStep(c, Acquired(n)))
  {
    if n < |c.handles| && c.handles[n].phase.Acquiring? {
      var h := c.handles[n];
      assert HandleOk(c.table, n, h);
      RecordGeneration(c, h.id);
      var d := c.(table := HandleStep(c, Acquired(n)).table);
      MoveKeepsInv(d, n, HandleStep(c, Acquired(n)).handles[n]);
    }
  }

  lemma HandleStepKeepsInv(c: Client, e: Event)
    requires Inv(c) && Timely(c, e) && !e.Reserve? && !e.Invalidate? && !e.InvalidateAll?
    ensures Inv(HandleStep(c, e))
  {
    if e.Acquired? {
      AcquiredKeepsInv(c, e.n);
    } else if e.n < |c.handles| {
      var h := c.handles[e.n];
      assert HandleOk(c.table, e.n, h);
      var d := HandleStep(c, e);
      if d.table == c.table {
        MoveKeepsInv(c, e.n, d.handles[e.n]);
      } else {
        GiveBackKeepsInv(c, e.n, d.handles[e.n]);
      }
    }
  }

  lemma InvalidateOne(s: Leases, id: Id)
    ensures Invalidated(s, id) == AllInvalidated(s, {id})
  {
    InvalidateNone(s);
    InvalidateOneMore(s, {}, id);
    assert {} + {id} == {id};
  }

  lemma StepKeepsInv(c: Client, e: Event)
    requires Inv(c) && Timely(c, e)
    ensures Inv(Step(c, e))
  {
    if e.Reserve? {
      ReserveKeepsInv(c, e.id, e.mode);
    } else if e.Invalidate? {
      InvalidateOne(c.table, e.id);
      InvalidateKeepsInv(c, {e.id});
    } else if e.InvalidateAll? {
      InvalidateKeepsInv(c, c.table.counts.Keys);
    } else {
      HandleStepKeepsInv(c, e);
    }
  }

  predicate AllTimely(c: Client, es: seq<Event>)
    decreases |es|
  {
    es == [] || (Timely(c, es[0]) && AllTimely(Step(c, es[0]), es[1..]))
  }

  /**
   * Over every timely run the count of each session is the number of outstanding tokens, an exclusive token is the
   * only one, and a handle that is current has its token outstanding.
   */
  lemma {:induction false} TimelyRunKeepsInv(c: Client, es: seq<Event>)
    requires Inv(c) && AllTimely(c, es)
    ensures Inv(Run(c, es))
    decreases |es|
  {
    if es != [] {
      StepKeepsInv(c, es[0]);
      TimelyRunKeepsInv(Step(c, es[0]), es[1..]);
    }
  }

  /** Two different current handles of one session: neither is exclusive. */
  lemma ExclusiveMeansAlone(es: seq<Event>, n: nat, m: nat)
    requires AllTimely(NO_HANDLES, es)
    requires var c := Run(NO_HANDLES, es);
      && n < |c.handles| && m < |c.handles| && n != m && c.handles[n].id == c.handles[m].id
      && IsActive(c.table, c.handles[n], true) && IsActive(c.table, c.handles[m], true)
    ensures var c := Run(NO_HANDLES, es);
      c.handles[n].mode.Shared? && c.handles[m].mode.Shared? && Count(c.table, c.handles[n].id) >= 2
  {
    TimelyRunKeepsInv(NO_HANDLES, es);
    var c := Run(NO_HANDLES, es);
    var id := c.handles[n].id;
    assert HandleOk(c.table, n, c.handles[n]) && HandleOk(c.table, m, c.handles[m]) && SessionOk(c.table, id);
    assert {TokenOf(c, n), TokenOf(c, m)} <= Held(c.table, id);
    AtLeastTwo(TokenOf(c, n), TokenOf(c, m), Held(c.table, id));
  }

  lemma AtLeastTwo(a: Token, b: Token, s: set<Token>)
    requires a != b && a in s && b in s
    ensures |s| >= 2
  {
    assert s == {a, b} + (s - {a, b});
  }

  /** Losing the connection passes the generation of a current handle exactly when its session has a count. */
  lemma DisconnectPassesExactly(c: Client, n: nat)
    requires n < |c.handles| && IsActive(c.table, c.handles[n], true)
    ensures IsActive(Step(c, InvalidateAll).table, c.handles[n], true) <==> c.handles[n].id !in c.table.counts
  {
  }

  /** So over timely runs no handle survives a lost connection. */
  lemma DisconnectPassesAll(es: seq<Event>, n: nat)
    requires AllTimely(NO_HANDLES, es) && n < |Run(NO_HANDLES, es).handles|
    ensures var c := Run(NO_HANDLES, es); !IsActive(Step(c, InvalidateAll).table, c.handles[n], true)
  {
    TimelyRunKeepsInv(NO_HANDLES, es);
    var c := Run(NO_HANDLES, es);
    assert HandleOk(c.table, n, c.handles[n]) && SessionOk(c.table, c.handles[n].id);
  }

  /** A run that ends with two exclusive tokens of one session outstanding, one of them released by nobody. */
  lemma TwoExclusiveHoldersReached(id: Id) returns (c: Client)
    ensures c == Step(Step(Step(Step(Step(NO_HANDLES, Reserve(id, Shared)), InvalidateAll), Reserve(id, Exclusive)),
                           AcquireFailed(0)), Reserve(id, Exclusive))
    ensures Held(c.table, id) == {Token(1, Exclusive), Token(2, Exclusive)} && Count(c.table, id) == 1
  {
    c := Step(NO_HANDLES, Reserve(id, Shared));
    assert c.table.counts == map[id := 1] && c.table.exclusive == map[];
    assert c.handles == [Handle(id, Shared, Acquiring, 0, false)];
    c := Step(c, InvalidateAll);
    assert c.table.counts == map[] && c.table.exclusive == map[] && Held(c.table, id) == {} && c.table.nextSerial == 1;
    c := Step(c, Reserve(id, Exclusive));
    assert c.table.counts == map[id := 1] && Held(c.table, id) == {Token(1, Exclusive)} && c.table.nextSerial == 2;
    assert c.handles[0] == Handle(id, Shared, Acquiring, 0, false);
    c := Step(c, AcquireFailed(0));
    assert c.table.counts == map[] && Held(c.table, id) == {Token(1, Exclusive)} && c.table.nextSerial == 2;
    c := Step(c, Reserve(id, Exclusive));
  }

  /** A handle made from a token that was invalidated while being acquired survives the next lost connection. */
  lemma LateHandleSurvivesDisconnect(id: Id, mode: Mode)
    ensures var c := Step(Step(Step(Step(NO_HANDLES, Reserve(id, mode)), InvalidateAll), Acquired(0)), InvalidateAll);
      |c.handles| == 1 && IsActive(c.table, c.handles[0], true) && Held(c.table, id) == {}
  {
    var c1 := Step(NO_HANDLES, Reserve(id, mode));
    assert c1.table.counts == map[id := 1] && c1.handles == [Handle(id, mode, Acquiring, 0, false)];
    var c2 := Step(c1, InvalidateAll);
    assert c2.table.counts == map[];
    var c3 := Step(c2, Acquired(0));
    assert c3.table.counts == map[] && c3.handles[0].generation == Generation(c3.table, id);
  }
}
