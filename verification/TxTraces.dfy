/** What holds of the event sequence of every caller tree. */
module TxTraces {
  import opened Common
  import opened Sql
  import opened TxModel
  import opened TxSemantics
  import opened TxRefinement

  // ---------- brackets ----------

  datatype Bracket = TxOpen(id: nat) | PinOpen(session: nat)

  /** Matches the events against a stack of open brackets: a commit or rollback must end the
    * innermost begun transaction, and a session must go back to the pool with everything
    * opened on it since its checkout ended and no transaction open on it.
    */
  function Scan(evts: seq<Event>, stack: seq<Bracket>): Option<seq<Bracket>> {
    if evts == [] then Some(stack)
    else
      var stack' :=
        match evts[0]
        case BeginEvt(id, _, _, _) => Some([TxOpen(id)] + stack)
        case PinEvt(s) => Some([PinOpen(s)] + stack)
        case CommitEvt(id, _, _) => Pop(stack, TxOpen(id))
        case RollbackEvt(id, _) => Pop(stack, TxOpen(id))
        case UnpinEvt(s, busy) => if busy then None else Pop(stack, PinOpen(s))
        case _ => Some(stack);
      if stack'.None? then None else Scan(evts[1..], stack'.value)
  }

  function Pop(stack: seq<Bracket>, top: Bracket): Option<seq<Bracket>> {
    if stack != [] && stack[0] == top then Some(stack[1..]) else None
  }

  ghost predicate Balanced(evts: seq<Event>) { forall stack :: Scan(evts, stack) == Some(stack) }

  lemma {:induction false} ScanConcat(a: seq<Event>, b: seq<Event>, stack: seq<Bracket>)
    requires Scan(a, stack).Some?
    ensures Scan(a + b, stack) == Scan(b, Scan(a, stack).value)
    decreases |a|
  {
    if a == [] {
      assert a + b == b;
    } else {
      assert (a + b)[0] == a[0] && (a + b)[1..] == a[1..] + b;
      var next := Scan([a[0]], stack);
      ScanOne(a, stack);
      ScanOne(a + b, stack);
      ScanConcat(a[1..], b, next.value);
    }
  }

  lemma ScanOne(a: seq<Event>, stack: seq<Bracket>)
    requires a != []
    ensures Scan(a, stack) == (var next := Scan([a[0]], stack); if next.None? then None else Scan(a[1..], next.value))
  {
    assert [a[0]][1..] == [];
  }

  lemma {:induction false} BalancedConcat(a: seq<Event>, b: seq<Event>)
    requires Balanced(a) && Balanced(b)
    ensures Balanced(a + b)
  {
    forall stack ensures Scan(a + b, stack) == Some(stack) { ScanConcat(a, b, stack); }
  }

  predicate Opens(e: Event, br: Bracket) {
    (e.BeginEvt? && br == TxOpen(e.id)) || (e.PinEvt? && br == PinOpen(e.session))
  }

  predicate Closes(e: Event, br: Bracket) {
    (br.TxOpen? && Ends(e, br.id)) || (e.UnpinEvt? && !e.busy && br == PinOpen(e.session))
  }

  lemma BalancedNest(open: Event, a: seq<Event>, close: Event, br: Bracket)
    requires Balanced(a) && Opens(open, br) && Closes(close, br)
    ensures Balanced([open] + a + [close])
  {
    forall stack ensures Scan([open] + a + [close], stack) == Some(stack) {
      var inner := [br] + stack;
      ScanEdge(open, close, br, stack);
      ScanConcat([open], a, stack);
      assert Scan(a, inner) == Some(inner);
      ScanConcat([open] + a, [close], stack);
    }
  }

  lemma ScanEdge(open: Event, close: Event, br: Bracket, stack: seq<Bracket>)
    requires Opens(open, br) && Closes(close, br)
    ensures Scan([open], stack) == Some([br] + stack)
    ensures Scan([close], [br] + stack) == Some(stack)
  {
    assert [open][1..] == [] && [close][1..] == [];
    assert ([br] + stack)[1..] == stack;
  }

  // ---------- effects, ids, options, sessions ----------

  /** The statements made durable: those executed outside transactions and the logs of the
    * committed transactions, in commit order.
    */
  function Effects(evts: seq<Event>): seq<Stmt> {
    if evts == [] then []
    else Effect(evts[0]) + Effects(evts[1..])
  }

  function Effect(e: Event): seq<Stmt> {
    match e
    case CommitEvt(_, log, ok) => if ok then log else []
    case ExecEvt(_, stmt, auto, ok) => if auto && ok then [stmt] else []
    case _ => []
  }

  lemma {:induction false} EffectsConcat(a: seq<Event>, b: seq<Event>)
    ensures Effects(a + b) == Effects(a) + Effects(b)
    decreases |a|
  {
    if a == [] {
      assert a + b == b;
    } else {
      assert (a + b)[0] == a[0] && (a + b)[1..] == a[1..] + b;
      EffectsConcat(a[1..], b);
    }
  }

  predicate Ends(e: Event, id: nat) { (e.CommitEvt? || e.RollbackEvt?) && e.id == id }

  /** Every transaction id in the events is newer than lo and at most hi. */
  predicate IdsIn(evts: seq<Event>, lo: nat, hi: nat) {
    forall e :: e in evts && (e.BeginEvt? || e.CommitEvt? || e.RollbackEvt?) ==> lo < e.id <= hi
  }

  /** The root options give at least the requested isolation and do not forbid its writes. */
  predicate Grants(root: Option<TxOptions>, requested: Option<TxOptions>, default: nat) {
    && (root.Some? && root.value.readOnly ==> requested.Some? && requested.value.readOnly)
    && (if requested.Some? && requested.value.isolation != 0 then requested.value.isolation else default)
       <= (if root.Some? && root.value.isolation != 0 then root.value.isolation else default)
  }

  predicate IsBegin(evts: seq<Event>, id: nat, requested: Option<TxOptions>, default: nat) {
    exists e :: e in evts && e.BeginEvt? && e.id == id && Grants(e.opts, requested, default)
  }

  /** Every body that ran inside a transaction got its requested options from the root. */
  predicate Honoured(evts: seq<Event>, conn: Conn, default: nat) {
    forall e :: e in evts && e.BodyEvt? ==>
      || (conn.InTx? && e.id == conn.id && Grants(conn.opts, e.requested, default))
      || IsBegin(evts, e.id, e.requested, default)
  }

  /** The session the context's connection is bound to, if any. */
  function Home(db: Db, conn: Conn): Option<nat> {
    match conn
    case Pool => None
    case Pinned(s) => Some(s)
    case InTx(id, _) => if id in db.txs then Some(db.txs[id].session) else None
  }

  predicate Foreign(evts: seq<Event>, session: nat) {
    exists e :: e in evts && e.BeginEvt? && e.parent.InTx? && e.session == session
  }

  /** Statements run on the home session, except under a transaction begun from a transaction. */
  predicate Located(evts: seq<Event>, home: Option<nat>) {
    home.Some? ==> forall e :: e in evts && e.ExecEvt? ==> e.session == home.value || Foreign(evts, e.session)
  }

  /** A connection bound to a session is never pinned again. */
  predicate PinsOk(evts: seq<Event>, conn: Conn) {
    !conn.Pool? ==> forall e :: e in evts ==> !e.PinEvt? && !e.UnpinEvt?
  }

  ghost predicate TraceOk(env: Env, db: Db, conn: Conn, after: Db, evts: seq<Event>) {
    && Balanced(evts)
    && IdsIn(evts, db.lastTx, after.lastTx)
    && Honoured(evts, conn, env.defaultLevel)
    && Located(evts, Home(db, conn))
    && PinsOk(evts, conn)
    && after.committed == db.committed + Effects(evts)
  }

  lemma TraceNone(env: Env, db: Db, conn: Conn, after: Db)
    requires after.committed == db.committed
    ensures TraceOk(env, db, conn, after, [])
  {
    assert after.committed == db.committed + [];
  }

  lemma TraceConcat(env: Env, db: Db, conn: Conn, r: Res, q: Res)
    requires TraceOk(env, db, conn, r.db, r.evts) && TraceOk(env, r.db, conn, q.db, q.evts)
    requires Home(db, conn) == Home(r.db, conn) && db.lastTx <= r.db.lastTx <= q.db.lastTx
    ensures TraceOk(env, db, conn, q.db, r.evts + q.evts)
  {
    hide Balanced, IdsIn, Honoured, Located, Effects, Home;
    BalancedConcat(r.evts, q.evts);
    EffectsConcat(r.evts, q.evts);
    assert q.db.committed == db.committed + (Effects(r.evts) + Effects(q.evts));
    IdsConcat(r.evts, q.evts, db.lastTx, r.db.lastTx, q.db.lastTx);
    HonouredConcat(r.evts, q.evts, conn, env.defaultLevel);
    LocatedConcat(r.evts, q.evts, Home(db, conn));
  }

  lemma IdsConcat(a: seq<Event>, b: seq<Event>, lo: nat, mid: nat, hi: nat)
    requires lo <= mid <= hi && IdsIn(a, lo, mid) && IdsIn(b, mid, hi)
    ensures IdsIn(a + b, lo, hi)
  {
  }

  lemma IsBeginIn(a: seq<Event>, all: seq<Event>, id: nat, requested: Option<TxOptions>, default: nat)
    requires IsBegin(a, id, requested, default)
    requires forall e :: e in a ==> e in all
    ensures IsBegin(all, id, requested, default)
  {
    var x :| x in a && x.BeginEvt? && x.id == id && Grants(x.opts, requested, default);
    assert x in all;
  }

  lemma HonouredConcat(a: seq<Event>, b: seq<Event>, conn: Conn, default: nat)
    requires Honoured(a, conn, default) && Honoured(b, conn, default)
    ensures Honoured(a + b, conn, default)
  {
    forall e | e in a + b && e.BodyEvt?
      ensures (conn.InTx? && e.id == conn.id && Grants(conn.opts, e.requested, default))
              || IsBegin(a + b, e.id, e.requested, default)
    {
      if IsBegin(a, e.id, e.requested, default) { IsBeginIn(a, a + b, e.id, e.requested, default); }
      if IsBegin(b, e.id, e.requested, default) { IsBeginIn(b, a + b, e.id, e.requested, default); }
    }
  }

  lemma LocatedConcat(a: seq<Event>, b: seq<Event>, home: Option<nat>)
    requires Located(a, home) && Located(b, home)
    ensures Located(a + b, home)
  {
    if home.Some? {
      forall e | e in a + b && e.ExecEvt? ensures e.session == home.value || Foreign(a + b, e.session) {
        if e in a && e.session != home.value {
          var x :| x in a && x.BeginEvt? && x.parent.InTx? && x.session == e.session;
          assert x in a + b;
        } else if e in b && e.session != home.value {
          var x :| x in b && x.BeginEvt? && x.parent.InTx? && x.session == e.session;
          assert x in a + b;
        }
      }
    }
  }

  lemma HomeStays(db: Db, conn: Conn, r: Res, m: Meaning)
    requires Usable(db, conn) && WellFormed(db) && Agrees(db, conn, r, m)
    ensures Home(r.db, conn) == Home(db, conn) && db.lastTx <= r.db.lastTx
    ensures WellFormed(r.db) && Usable(r.db, conn)
  {
  }

  /** The trace theorem: for every caller tree, failure schedule and start state. */
  lemma {:induction false} Traced(env: Env, db: Db, ctx: Ctx, body: Body)
    requires FreshNames(env) && WellFormed(db) && Usable(db, ctx.conn)
    ensures var r := Run(env, db, ctx, body); TraceOk(env, db, ctx.conn, r.db, r.evts)
    decreases body, 0, 0
  {
    hide TraceOk, WellFormed, Home, RunTransaction, RunIsolated, RunSavepoint, RunAttempts, RunPinned;
    match body
    case Skip => TraceNone(env, db, ctx.conn, db);
    case ExecStmt(stmt) => TracedExec(env, db, ctx, stmt);
    case DriverCall => TraceNone(env, db, ctx.conn, Tick(db));
    case Return(e) => TraceNone(env, db, ctx.conn, db);
    case Panic => TraceNone(env, db, ctx.conn, db);
    case Then(first, second) =>
      Traced(env, db, ctx, first);
      if Run(env, db, ctx, first).out.Done? {
        Moves(env, db, ctx, first);
        Traced(env, Run(env, db, ctx, first).db, ctx, second);
        TracedNext(env, db, ctx, first, second);
      }
    case Catch(b, handler) =>
      Traced(env, db, ctx, b);
      if Run(env, db, ctx, b).out.Err? {
        Moves(env, db, ctx, b);
        Traced(env, Run(env, db, ctx, b).db, ctx, handler);
        TracedNext(env, db, ctx, b, handler);
      }
    case Recover(b, handler) =>
      Traced(env, db, ctx, b);
      if Run(env, db, ctx, b).out.Panicked? {
        Moves(env, db, ctx, b);
        Traced(env, Run(env, db, ctx, b).db, ctx, handler);
        TracedNext(env, db, ctx, b, handler);
      }
    case Finally(b, cleanup) =>
      Traced(env, db, ctx, b);
      Moves(env, db, ctx, b);
      Traced(env, Run(env, db, ctx, b).db, ctx, cleanup);
      TracedNext(env, db, ctx, b, cleanup);
    case Choose(left, right) =>
      TracedTick(env, db, ctx);
      if env.choose(db.clock) { Traced(env, Tick(db), ctx, left); } else { Traced(env, Tick(db), ctx, right); }
    case WithoutTransactions(b) => Traced(env, db, ctx.(noTx := true), b);
    case Transaction(opts, b) =>
      if ctx.noTx { Traced(env, db, ctx, b); } else { TracedTransaction(env, db, ctx, opts, b); }
    case Isolated(opts, b) =>
      if ctx.noTx { Traced(env, db, ctx, b); } else { TracedRoot(env, db, ctx, opts, b); }
    case SavepointTx(b) =>
      if ctx.noTx { Traced(env, db, ctx, b); }
      else if !Active(ctx.conn) { TracedTransaction(env, db, ctx, None, b); }
      else { TracedSavepoint(env, db, ctx, b); }
    case Serialized(b) =>
      if ctx.noTx { Traced(env, db, ctx, b); }
      else if Active(ctx.conn) {
        if ctx.serialized {
          Traced(env, db, ctx, b);
          TraceMark(env, db, ctx.conn, SerialEvt(ctx.conn.id, ctx.conn.opts), Run(env, db, ctx, b));
        } else {
          TraceNone(env, db, ctx.conn, db);
        }
      } else {
        TracedAttempts(env, db, ctx.(serialized := true), b, if env.retries < 0 then 0 else env.retries, Error({}));
      }
    case PinnedConn(b) =>
      Outside(db, ctx.conn);
      if Active(ctx.conn) || ctx.conn.Pinned? { Traced(env, db, ctx, b); } else { TracedPinned(env, db, ctx, b); }
  }

  /** No open transaction has number 0. */
  lemma Outside(db: Db, conn: Conn)
    requires WellFormed(db) && Usable(db, conn)
    ensures Active(conn) <==> conn.InTx?
  {
  }

  lemma Moves(env: Env, db: Db, ctx: Ctx, body: Body)
    requires FreshNames(env) && WellFormed(db) && Usable(db, ctx.conn)
    ensures
      var r := Run(env, db, ctx, body);
      && Home(r.db, ctx.conn) == Home(db, ctx.conn) && db.lastTx <= r.db.lastTx
      && WellFormed(r.db) && Usable(r.db, ctx.conn)
  {
    Refines(env, db, ctx, body);
    HomeStays(db, ctx.conn, Run(env, db, ctx, body), Mean(env, db.clock, ViewOf(ctx), body));
  }

  lemma TracedTick(env: Env, db: Db, ctx: Ctx)
    requires WellFormed(db) && Usable(db, ctx.conn)
    ensures WellFormed(Tick(db)) && Usable(Tick(db), ctx.conn)
    ensures forall after, evts :: TraceOk(env, Tick(db), ctx.conn, after, evts) ==> TraceOk(env, db, ctx.conn, after, evts)
  {
  }

  lemma TracedNext(env: Env, db: Db, ctx: Ctx, a: Body, b: Body)
    requires FreshNames(env) && WellFormed(db) && Usable(db, ctx.conn)
    requires
      var r := Run(env, db, ctx, a);
      var q := Run(env, r.db, ctx, b);
      TraceOk(env, db, ctx.conn, r.db, r.evts) && TraceOk(env, r.db, ctx.conn, q.db, q.evts)
    ensures
      var r := Run(env, db, ctx, a);
      var q := Run(env, r.db, ctx, b);
      TraceOk(env, db, ctx.conn, q.db, r.evts + q.evts)
  {
    Moves(env, db, ctx, a);
    Moves(env, Run(env, db, ctx, a).db, ctx, b);
    hide Run, TraceOk;
    var r := Run(env, db, ctx, a);
    TraceConcat(env, db, ctx.conn, r, Run(env, r.db, ctx, b));
  }

  lemma TracedExec(env: Env, db: Db, ctx: Ctx, stmt: Stmt)
    requires WellFormed(db) && Usable(db, ctx.conn)
    ensures var r := Run(env, db, ctx, ExecStmt(stmt)); TraceOk(env, db, ctx.conn, r.db, r.evts)
  {
    var evts := Exec(env, db, ctx.conn, stmt).evts;
    forall stack ensures Scan(evts, stack) == Some(stack) { if evts != [] { assert evts[1..] == []; } }
    if evts != [] { assert evts[1..] == []; }
    assert db.committed + [] == db.committed;
  }

  lemma {:induction false} TracedTransaction(env: Env, db: Db, ctx: Ctx, opts: Option<TxOptions>, body: Body)
    requires FreshNames(env) && WellFormed(db) && Usable(db, ctx.conn)
    ensures var r := RunTransaction(env, db, ctx, opts, body); TraceOk(env, db, ctx.conn, r.db, r.evts)
    decreases body, 2, 0
  {
    if Active(ctx.conn) {
      if CheckOptions(ctx.conn.opts, opts, env.defaultLevel).None? {
        Traced(env, db, ctx, body);
        TraceMark(env, db, ctx.conn, BodyEvt(ctx.conn.id, opts), Run(env, db, ctx, body));
      } else {
        TraceNone(env, db, ctx.conn, db);
      }
    } else {
      TracedRoot(env, db, ctx, opts, body);
    }
  }

  /** An event that only marks where a body starts in the context's transaction. */
  predicate Marks(e: Event, conn: Conn, default: nat) {
    conn.InTx? && ((e.BodyEvt? && e.id == conn.id && Grants(conn.opts, e.requested, default)) || e == SerialEvt(conn.id, conn.opts))
  }

  lemma MarkBalanced(mark: Event)
    requires mark.BodyEvt? || mark.SerialEvt?
    ensures Balanced([mark])
  {
    assert [mark][1..] == [];
  }

  lemma TraceMark(env: Env, db: Db, conn: Conn, mark: Event, r: Res)
    requires Marks(mark, conn, env.defaultLevel) && TraceOk(env, db, conn, r.db, r.evts)
    ensures TraceOk(env, db, conn, r.db, [mark] + r.evts)
  {
    hide Home, Located, Balanced, Grants, IsBegin;
    assert [mark][1..] == [];
    assert Located([mark], Home(db, conn)) by { EventLocated(mark, Home(db, conn)); }
    MarkBalanced(mark);
    BalancedConcat([mark], r.evts);
    EffectsConcat([mark], r.evts);
    assert [] + Effects(r.evts) == Effects(r.evts);
    LocatedConcat([mark], r.evts, Home(db, conn));
    HonouredConcat([mark], r.evts, conn, env.defaultLevel);
  }

  lemma EventLocated(e: Event, home: Option<nat>)
    requires !e.ExecEvt?
    ensures Located([e], home)
  {
  }

  lemma {:induction false} TracedRoot(env: Env, db: Db, ctx: Ctx, opts: Option<TxOptions>, body: Body)
    requires FreshNames(env) && WellFormed(db) && Usable(db, ctx.conn)
    ensures var r := RunIsolated(env, db, ctx, opts, body); TraceOk(env, db, ctx.conn, r.db, r.evts)
    decreases body, 1, 0
  {
    hide *;
    if env.fault(db.clock).Some? {
      TracedNoRoot(env, db, ctx, opts, body);
    } else {
      var id := db.lastTx + 1;
      var b := Begin(env, db.(lastTx := id), id, ctx.conn, opts);
      RootBegins(env, db, ctx, opts);
      var inner := ctx.(conn := InTx(id, opts));
      Traced(env, b.db, inner, body);
      Moves(env, b.db, inner, body);
      var r := Run(env, b.db, inner, body);
      MarksRoot(id, opts, env.defaultLevel);
      TraceMark(env, b.db, inner.conn, BodyEvt(id, opts), r);
      InnerRoot(r.db, id, opts);
      TraceRoot(env, db, ctx.conn, opts, r);
      RootEvents(env, db, ctx, opts, body);
    }
  }

  lemma TracedNoRoot(env: Env, db: Db, ctx: Ctx, opts: Option<TxOptions>, body: Body)
    requires env.fault(db.clock).Some?
    ensures var r := RunIsolated(env, db, ctx, opts, body); TraceOk(env, db, ctx.conn, r.db, r.evts)
  {
    TraceNone(env, db, ctx.conn, RunIsolated(env, db, ctx, opts, body).db);
  }

  lemma MarksRoot(id: nat, opts: Option<TxOptions>, default: nat)
    ensures Marks(BodyEvt(id, opts), InTx(id, opts), default)
  {
  }

  lemma InnerRoot(db: Db, id: nat, opts: Option<TxOptions>)
    requires WellFormed(db) && Usable(db, InTx(id, opts))
    ensures id in db.txs && id <= db.lastTx
  {
  }

  lemma RootEvents(env: Env, db: Db, ctx: Ctx, opts: Option<TxOptions>, body: Body)
    requires env.fault(db.clock).None?
    ensures
      var id := db.lastTx + 1;
      var b := Begin(env, db.(lastTx := id), id, ctx.conn, opts);
      var r := Run(env, b.db, ctx.(conn := InTx(id, opts)), body);
      var f := Finish(env, r.db, id, r.out);
      var q := RunIsolated(env, db, ctx, opts, body);
      q.db == f.db && q.evts == b.evts + ([BodyEvt(id, opts)] + r.evts) + f.evts
  {
    hide Run, Finish;
  }

  /** Wrapping a body's trace in its begin and its one commit or rollback. */
  lemma TraceRoot(env: Env, db: Db, conn: Conn, opts: Option<TxOptions>, r: Res)
    requires WellFormed(db) && Usable(db, conn) && env.fault(db.clock).None?
    requires
      var id := db.lastTx + 1;
      var b := Begin(env, db.(lastTx := id), id, conn, opts);
      && TraceOk(env, b.db, InTx(id, opts), r.db, [BodyEvt(id, opts)] + r.evts)
      && id in r.db.txs && id <= r.db.lastTx
    ensures
      var id := db.lastTx + 1;
      var b := Begin(env, db.(lastTx := id), id, conn, opts);
      var f := Finish(env, r.db, id, r.out);
      TraceOk(env, db, conn, f.db, b.evts + ([BodyEvt(id, opts)] + r.evts) + f.evts)
  {
    var id := db.lastTx + 1;
    var b := Begin(env, db.(lastTx := id), id, conn, opts);
    var f := Finish(env, r.db, id, r.out);
    var evts := [BodyEvt(id, opts)] + r.evts;
    assert b.evts == [b.evts[0]] && f.evts == [f.evts[0]];
    assert f.db.committed == r.db.committed + Effect(f.evts[0]) && f.db.lastTx == r.db.lastTx;
    assert b.evts[0] == BeginEvt(id, b.evts[0].session, conn, opts) && Ends(f.evts[0], id);
    assert Home(b.db, InTx(id, opts)) == Some(b.evts[0].session);
    assert conn.Pinned? ==> b.evts[0].session == conn.session;
    assert b.db.committed == db.committed && b.db.lastTx == id;
    TraceWrapped(env, db, conn, b.db, r.db, f.db, b.evts[0], evts, f.evts[0]);
  }

  lemma TraceWrapped(env: Env, db: Db, conn: Conn, start: Db, mid: Db, after: Db, open: Event, evts: seq<Event>, close: Event)
    requires open.BeginEvt? && open.parent == conn && open.id == db.lastTx + 1 == start.lastTx && Ends(close, open.id)
    requires TraceOk(env, start, InTx(open.id, open.opts), mid, evts)
    requires Home(start, InTx(open.id, open.opts)) == Some(open.session)
    requires conn.Pinned? ==> open.session == conn.session
    requires start.committed == db.committed && after.committed == mid.committed + Effect(close)
    requires open.id <= mid.lastTx == after.lastTx
    ensures TraceOk(env, db, conn, after, [open] + evts + [close])
  {
    var all := [open] + evts + [close];
    WrappedBalanced(open, evts, close);
    WrappedEffects(open, evts, close);
    RootHonours(open, evts, close, conn, env.defaultLevel);
    RootLocated(open, evts, close, Home(db, conn), conn);
    assert IdsIn(all, db.lastTx, after.lastTx);
    hide Balanced, Honoured, Located, Effects, Effect, IdsIn, Home;
    assert after.committed == db.committed + (Effects(evts) + Effect(close));
  }

  lemma WrappedBalanced(open: Event, evts: seq<Event>, close: Event)
    requires open.BeginEvt? && Ends(close, open.id) && Balanced(evts)
    ensures Balanced([open] + evts + [close])
  {
    BalancedNest(open, evts, close, TxOpen(open.id));
  }

  lemma WrappedEffects(open: Event, evts: seq<Event>, close: Event)
    requires Effect(open) == []
    ensures Effects([open] + evts + [close]) == Effects(evts) + Effect(close)
  {
    assert [open][1..] == [] && [close][1..] == [];
    EffectsConcat([open], evts);
    EffectsConcat([open] + evts, [close]);
    assert [] + Effects(evts) == Effects(evts);
  }

  lemma RootHonours(open: Event, evts: seq<Event>, close: Event, conn: Conn, default: nat)
    requires open.BeginEvt? && !close.BodyEvt?
    requires Honoured(evts, InTx(open.id, open.opts), default)
    ensures Honoured([open] + evts + [close], conn, default)
  {
    var all := [open] + evts + [close];
    forall e | e in all && e.BodyEvt? ensures IsBegin(all, e.id, e.requested, default) {
      assert e in evts;
      if IsBegin(evts, e.id, e.requested, default) {
        IsBeginIn(evts, all, e.id, e.requested, default);
      } else {
        assert open in all;
      }
    }
  }

  lemma RootLocated(open: Event, evts: seq<Event>, close: Event, outer: Option<nat>, conn: Conn)
    requires open.BeginEvt? && !close.ExecEvt? && open.parent == conn
    requires conn.Pinned? ==> open.session == conn.session
    requires outer.Some? ==> conn.InTx? || (conn.Pinned? && outer == Some(conn.session))
    requires Located(evts, Some(open.session))
    ensures Located([open] + evts + [close], outer)
  {
    var all := [open] + evts + [close];
    if outer.Some? {
      forall e | e in all && e.ExecEvt? ensures e.session == outer.value || Foreign(all, e.session) {
        assert e in evts;
        if e.session == open.session {
          assert open in all;
        } else {
          var x :| x in evts && x.BeginEvt? && x.parent.InTx? && x.session == e.session;
          assert x in all;
        }
      }
    }
  }

  lemma {:induction false} TracedSavepoint(env: Env, db: Db, ctx: Ctx, body: Body)
    requires FreshNames(env) && WellFormed(db) && Usable(db, ctx.conn) && Active(ctx.conn)
    ensures var r := RunSavepoint(env, db, ctx, body); TraceOk(env, db, ctx.conn, r.db, r.evts)
    decreases body, 1, 0
  {
    hide *;
    if env.fault(db.clock).None? {
      SavepointSet(env, db, ctx.conn);
      Traced(env, Entered(env, db, ctx.conn), ctx, body);
    }
    TraceSaved(env, db, ctx, body);
  }

  lemma TraceSaved(env: Env, db: Db, ctx: Ctx, body: Body)
    requires WellFormed(db) && Usable(db, ctx.conn) && Active(ctx.conn)
    requires
      var start := Entered(env, db, ctx.conn);
      var r := Run(env, start, ctx, body);
      env.fault(db.clock).None? ==> TraceOk(env, start, ctx.conn, r.db, r.evts)
    ensures var q := RunSavepoint(env, db, ctx, body); TraceOk(env, db, ctx.conn, q.db, q.evts)
  {
    hide Run, Balanced, IdsIn, Honoured, Located, Effects, FindSave, WellFormed;
    if env.fault(db.clock).Some? { TraceNone(env, db, ctx.conn, RunSavepoint(env, db, ctx, body).db); }
  }

  lemma {:induction false} TracedAttempts(env: Env, db: Db, ctx: Ctx, body: Body, n: nat, last: Error)
    requires FreshNames(env) && WellFormed(db) && Usable(db, ctx.conn)
    ensures var r := RunAttempts(env, db, ctx, body, n, last); TraceOk(env, db, ctx.conn, r.db, r.evts)
    decreases body, 3, n
  {
    hide Run, Mean, RunTransaction, MeanTransaction, TraceOk, WellFormed, Usable, Home;
    if n == 0 {
      TraceNone(env, db, ctx.conn, db);
    } else {
      var opts := Some(TxOptions(LEVEL_SERIALIZABLE, false));
      TracedTransaction(env, db, ctx, opts, body);
      var r := RunTransaction(env, db, ctx, opts, body);
      if r.out.Err? && Is(r.out.error, SerializationFailure) {
        RefinesTransaction(env, db, ctx, opts, body);
        HomeStays(db, ctx.conn, r, MeanTransaction(env, db.clock, ViewOf(ctx), opts, body));
        TracedAttempts(env, r.db, ctx, body, n - 1, r.out.error);
        var q := RunAttempts(env, r.db, ctx, body, n - 1, r.out.error);
        RefinesAttempts(env, r.db, ctx, body, n - 1, r.out.error);
        HomeStays(r.db, ctx.conn, q, MeanAttempts(env, r.db.clock, ViewOf(ctx), body, n - 1, r.out.error));
        TraceConcat(env, db, ctx.conn, r, q);
      }
    }
  }

  lemma {:induction false} TracedPinned(env: Env, db: Db, ctx: Ctx, body: Body)
    requires FreshNames(env) && WellFormed(db) && Usable(db, ctx.conn) && ctx.conn.Pool?
    ensures var r := RunPinned(env, db, ctx, body); TraceOk(env, db, ctx.conn, r.db, r.evts)
    decreases body, 1, 0
  {
    hide *;
    if !env.canPin || env.fault(db.clock).Some? {
      TracedNoPin(env, db, ctx, body);
    } else {
      var s := db.nextSession;
      var start := Checkout(db);
      var inner := ctx.(conn := Pinned(s));
      CheckedOut(db);
      Traced(env, start, inner, body);
      Refines(env, start, inner, body);
      var r := Run(env, start, inner, body);
      NotBusy(db, r, Mean(env, start.clock, ViewOf(inner), body));
      TracePin(env, db, r);
      PinEvents(env, db, ctx, body);
    }
  }

  function Checkout(db: Db): Db { Tick(db).(nextSession := db.nextSession + 1) }

  lemma CheckedOut(db: Db)
    requires WellFormed(db)
    ensures WellFormed(Checkout(db)) && Usable(Checkout(db), Pinned(db.nextSession))
  {
  }

  lemma TracedNoPin(env: Env, db: Db, ctx: Ctx, body: Body)
    requires !env.canPin || env.fault(db.clock).Some?
    ensures var r := RunPinned(env, db, ctx, body); TraceOk(env, db, ctx.conn, r.db, r.evts)
  {
    TraceNone(env, db, ctx.conn, RunPinned(env, db, ctx, body).db);
  }

  lemma PinEvents(env: Env, db: Db, ctx: Ctx, body: Body)
    requires env.canPin && env.fault(db.clock).None?
    ensures
      var s := db.nextSession;
      var r := Run(env, Checkout(db), ctx.(conn := Pinned(s)), body);
      var q := RunPinned(env, db, ctx, body);
      q.db == Tick(r.db) && q.evts == [PinEvt(s)] + r.evts + [UnpinEvt(s, Busy(r.db, s))]
  {
    hide Run, Busy;
  }

  /** When the pinned session goes back, no transaction is open on it. */
  lemma NotBusy(db: Db, r: Res, m: Meaning)
    requires WellFormed(db)
    requires Agrees(Checkout(db), Pinned(db.nextSession), r, m)
    ensures !Busy(r.db, db.nextSession)
  {
    forall id | id in r.db.txs ensures r.db.txs[id].session != db.nextSession { assert id in db.txs; }
  }

  lemma TracePin(env: Env, db: Db, r: Res)
    requires TraceOk(env, Checkout(db), Pinned(db.nextSession), r.db, r.evts)
    ensures TraceOk(env, db, Pool, Tick(r.db), [PinEvt(db.nextSession)] + r.evts + [UnpinEvt(db.nextSession, false)])
  {
    var s := db.nextSession;
    PinBalanced(s, r.evts);
    WrappedEffects(PinEvt(s), r.evts, UnpinEvt(s, false));
    PinHonours(s, r.evts, env.defaultLevel);
    hide Balanced, Honoured, Effects;
    assert r.db.committed == db.committed + (Effects(r.evts) + []);
  }

  lemma PinBalanced(s: nat, evts: seq<Event>)
    requires Balanced(evts)
    ensures Balanced([PinEvt(s)] + evts + [UnpinEvt(s, false)])
  {
    BalancedNest(PinEvt(s), evts, UnpinEvt(s, false), PinOpen(s));
  }

  lemma PinHonours(s: nat, evts: seq<Event>, default: nat)
    requires Honoured(evts, Pinned(s), default)
    ensures Honoured([PinEvt(s)] + evts + [UnpinEvt(s, false)], Pool, default)
  {
    var all := [PinEvt(s)] + evts + [UnpinEvt(s, false)];
    forall e | e in all && e.BodyEvt? ensures IsBegin(all, e.id, e.requested, default) {
      assert e in evts;
      IsBeginIn(evts, all, e.id, e.requested, default);
    }
  }
}
