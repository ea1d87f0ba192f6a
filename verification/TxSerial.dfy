/** Nested calls of SerializedTransaction: in which transaction their bodies run, and when that one is serializable. */
module TxSerial {
  import opened Common
  import opened Sql
  import opened TxModel
  import opened TxSemantics
  import opened TxRefinement
  import opened TxTraces
  import opened TxTheorems

  // ---------- a nested body runs in the innermost open transaction ----------

  datatype Opened = Opened(id: nat, opts: Option<TxOptions>)

  /** The transactions open after the events, innermost first; None if one ends that is not the innermost, or a nested
    * serialized call runs its body in another than the innermost.
    */
  function Nest(evts: seq<Event>, open: seq<Opened>): Option<seq<Opened>> {
    if evts == [] then Some(open)
    else
      match evts[0]
      case BeginEvt(id, _, _, opts) => Nest(evts[1..], [Opened(id, opts)] + open)
      case CommitEvt(id, _, _) => if open != [] && open[0].id == id then Nest(evts[1..], open[1..]) else None
      case RollbackEvt(id, _) => if open != [] && open[0].id == id then Nest(evts[1..], open[1..]) else None
      case SerialEvt(id, opts) => if open != [] && open[0] == Opened(id, opts) then Nest(evts[1..], open) else None
      case _ => Nest(evts[1..], open)
  }

  predicate Fits(open: seq<Opened>, conn: Conn) {
    conn.InTx? ==> open != [] && open[0] == Opened(conn.id, conn.opts)
  }

  ghost predicate Nested(evts: seq<Event>, conn: Conn) {
    forall open :: Fits(open, conn) ==> Nest(evts, open) == Some(open)
  }

  lemma {:induction false} NestSplit(a: seq<Event>, b: seq<Event>, open: seq<Opened>)
    ensures Nest(a + b, open) == if Nest(a, open).None? then None else Nest(b, Nest(a, open).value)
    decreases |a|
  {
    if a == [] {
      assert a + b == b;
    } else {
      assert (a + b)[0] == a[0] && (a + b)[1..] == a[1..] + b;
      match a[0]
      case BeginEvt(id, _, _, opts) => NestSplit(a[1..], b, [Opened(id, opts)] + open);
      case CommitEvt(id, _, _) => if open != [] { NestSplit(a[1..], b, open[1..]); }
      case RollbackEvt(id, _) => if open != [] { NestSplit(a[1..], b, open[1..]); }
      case _ => NestSplit(a[1..], b, open);
    }
  }

  lemma NestedConcat(a: seq<Event>, b: seq<Event>, conn: Conn)
    requires Nested(a, conn) && Nested(b, conn)
    ensures Nested(a + b, conn)
  {
    forall open | Fits(open, conn) ensures Nest(a + b, open) == Some(open) { NestSplit(a, b, open); }
  }

  lemma NestOne(e: Event, open: seq<Opened>)
    ensures e.BeginEvt? ==> Nest([e], open) == Some([Opened(e.id, e.opts)] + open)
    ensures (e.CommitEvt? || e.RollbackEvt?) && open != [] && open[0].id == e.id ==> Nest([e], open) == Some(open[1..])
    ensures e.SerialEvt? && open != [] && open[0] == Opened(e.id, e.opts) ==> Nest([e], open) == Some(open)
    ensures e.BodyEvt? || e.ExecEvt? || e.PinEvt? || e.UnpinEvt? ==> Nest([e], open) == Some(open)
  {
    assert [e][1..] == [];
  }

  /** An event that opens and ends nothing. */
  lemma NestedOne(e: Event, conn: Conn)
    requires e.BodyEvt? || e.ExecEvt? || e.PinEvt? || e.UnpinEvt? || (conn.InTx? && e == SerialEvt(conn.id, conn.opts))
    ensures Nested([e], conn)
  {
    hide Nest;
    forall open | Fits(open, conn) ensures Nest([e], open) == Some(open) { NestOne(e, open); }
  }

  lemma NestedNone(conn: Conn)
    ensures Nested([], conn)
  {
  }

  lemma NestedRoot(open: Event, evts: seq<Event>, close: Event, conn: Conn)
    requires open.BeginEvt? && Ends(close, open.id) && Nested(evts, InTx(open.id, open.opts))
    ensures Nested([open] + evts + [close], conn)
  {
    hide Nest;
    forall outer | Fits(outer, conn) ensures Nest([open] + evts + [close], outer) == Some(outer) {
      var inner := [Opened(open.id, open.opts)] + outer;
      NestOne(open, outer);
      NestOne(close, inner);
      assert Fits(inner, InTx(open.id, open.opts)) && inner[1..] == outer;
      NestSplit([open], evts, outer);
      NestSplit([open] + evts, [close], outer);
    }
  }

  lemma {:induction false} RunNests(env: Env, db: Db, ctx: Ctx, body: Body)
    ensures Nested(Run(env, db, ctx, body).evts, ctx.conn)
    decreases body, 0, 0
  {
    hide Nested;
    NestedNone(ctx.conn);
    match body
    case ExecStmt(stmt) => ExecNests(env, db, ctx.conn, stmt);
    case Then(a, b) => RunNests(env, db, ctx, a); NextNests(env, db, ctx, a, b);
    case Catch(a, b) => RunNests(env, db, ctx, a); NextNests(env, db, ctx, a, b);
    case Recover(a, b) => RunNests(env, db, ctx, a); NextNests(env, db, ctx, a, b);
    case Finally(a, b) => RunNests(env, db, ctx, a); NextNests(env, db, ctx, a, b);
    case Choose(a, b) => RunNests(env, Tick(db), ctx, a); RunNests(env, Tick(db), ctx, b);
    case WithoutTransactions(b) => RunNests(env, db, ctx.(noTx := true), b);
    case Transaction(opts, b) => RunNests(env, db, ctx, b); TransactionNests(env, db, ctx, opts, b);
    case Isolated(opts, b) => RunNests(env, db, ctx, b); RootNests(env, db, ctx, opts, b);
    case SavepointTx(b) =>
      RunNests(env, db, ctx, b);
      TransactionNests(env, db, ctx, None, b);
      SavepointNests(env, db, ctx, b);
    case Serialized(b) =>
      RunNests(env, db, ctx, b);
      if Active(ctx.conn) {
        NestedOne(SerialEvt(ctx.conn.id, ctx.conn.opts), ctx.conn);
        NestedConcat([SerialEvt(ctx.conn.id, ctx.conn.opts)], Run(env, db, ctx, b).evts, ctx.conn);
      } else {
        AttemptsNest(env, db, ctx.(serialized := true), b, if env.retries < 0 then 0 else env.retries, Error({}));
      }
    case PinnedConn(b) => RunNests(env, db, ctx, b); PinnedNests(env, db, ctx, b);
    case _ =>
  }

  lemma ExecNests(env: Env, db: Db, conn: Conn, stmt: Stmt)
    ensures Nested(Exec(env, db, conn, stmt).evts, conn)
  {
    hide Nested;
    var evts := Exec(env, db, conn, stmt).evts;
    NestedNone(conn);
    if evts != [] { NestedOne(evts[0], conn); }
  }

  lemma {:induction false} NextNests(env: Env, db: Db, ctx: Ctx, a: Body, b: Body)
    requires Nested(Run(env, db, ctx, a).evts, ctx.conn)
    ensures var r := Run(env, db, ctx, a); Nested(r.evts + Run(env, r.db, ctx, b).evts, ctx.conn)
    decreases b, 4, 0
  {
    hide Nested, Run;
    var r := Run(env, db, ctx, a);
    RunNests(env, r.db, ctx, b);
    NestedConcat(r.evts, Run(env, r.db, ctx, b).evts, ctx.conn);
  }

  lemma {:induction false} TransactionNests(env: Env, db: Db, ctx: Ctx, opts: Option<TxOptions>, body: Body)
    ensures Nested(RunTransaction(env, db, ctx, opts, body).evts, ctx.conn)
    decreases body, 2, 0
  {
    hide Nested, Run, RunIsolated;
    NestedNone(ctx.conn);
    if Active(ctx.conn) {
      RunNests(env, db, ctx, body);
      NestedOne(BodyEvt(ctx.conn.id, opts), ctx.conn);
      NestedConcat([BodyEvt(ctx.conn.id, opts)], Run(env, db, ctx, body).evts, ctx.conn);
    } else {
      RootNests(env, db, ctx, opts, body);
    }
  }

  lemma {:induction false} RootNests(env: Env, db: Db, ctx: Ctx, opts: Option<TxOptions>, body: Body)
    ensures Nested(RunIsolated(env, db, ctx, opts, body).evts, ctx.conn)
    decreases body, 1, 0
  {
    hide Nested, Run, RunIsolated, Finish;
    NestedNone(ctx.conn);
    if env.fault(db.clock).Some? {
      NoRootEvents(env, db, ctx, opts, body);
    } else {
      var id := db.lastTx + 1;
      var b := Begin(env, db.(lastTx := id), id, ctx.conn, opts);
      var inner := ctx.(conn := InTx(id, opts));
      RunNests(env, b.db, inner, body);
      var r := Run(env, b.db, inner, body);
      NestedOne(BodyEvt(id, opts), inner.conn);
      NestedConcat([BodyEvt(id, opts)], r.evts, inner.conn);
      RootEvents(env, db, ctx, opts, body);
      FinishEnds(env, r.db, id, r.out);
      NestedRoot(b.evts[0], [BodyEvt(id, opts)] + r.evts, Finish(env, r.db, id, r.out).evts[0], ctx.conn);
    }
  }

  lemma NoRootEvents(env: Env, db: Db, ctx: Ctx, opts: Option<TxOptions>, body: Body)
    requires env.fault(db.clock).Some?
    ensures RunIsolated(env, db, ctx, opts, body).evts == []
  {
    hide Run, Finish;
  }

  lemma FinishEnds(env: Env, db: Db, id: nat, out: Outcome)
    ensures var evts := Finish(env, db, id, out).evts; evts == [evts[0]] && Ends(evts[0], id)
  {
  }

  lemma {:induction false} SavepointNests(env: Env, db: Db, ctx: Ctx, body: Body)
    ensures Nested(RunSavepoint(env, db, ctx, body).evts, ctx.conn)
    decreases body, 1, 0
  {
    hide Nested, Run, FindSave;
    NestedNone(ctx.conn);
    RunNests(env, Savepoint(env, db.(nextDraw := db.nextDraw + 1), TransactionId(ctx.conn), db.nextDraw).db, ctx, body);
  }

  lemma {:induction false} AttemptsNest(env: Env, db: Db, ctx: Ctx, body: Body, n: nat, last: Error)
    ensures Nested(RunAttempts(env, db, ctx, body, n, last).evts, ctx.conn)
    decreases body, 3, n
  {
    hide Nested, RunTransaction;
    NestedNone(ctx.conn);
    if n > 0 {
      TransactionNests(env, db, ctx, SERIALIZABLE, body);
      var r := RunTransaction(env, db, ctx, SERIALIZABLE, body);
      if Retryable(r) {
        AttemptsNest(env, r.db, ctx, body, n - 1, r.out.error);
        NestedConcat(r.evts, RunAttempts(env, r.db, ctx, body, n - 1, r.out.error).evts, ctx.conn);
      }
    }
  }

  lemma {:induction false} PinnedNests(env: Env, db: Db, ctx: Ctx, body: Body)
    ensures Nested(RunPinned(env, db, ctx, body).evts, ctx.conn)
    decreases body, 1, 0
  {
    hide Nested, Run;
    NestedNone(ctx.conn);
    if env.canPin && env.fault(db.clock).None? {
      var s := db.nextSession;
      RunNests(env, Checkout(db), ctx.(conn := Pinned(s)), body);
      var r := Run(env, Checkout(db), ctx.(conn := Pinned(s)), body);
      PinEvents(env, db, ctx, body);
      OutsideNests(r.evts, Pinned(s), ctx.conn);
      NestedOne(PinEvt(s), ctx.conn);
      NestedOne(UnpinEvt(s, Busy(r.db, s)), ctx.conn);
      NestedConcat([PinEvt(s)], r.evts, ctx.conn);
      NestedConcat([PinEvt(s)] + r.evts, [UnpinEvt(s, Busy(r.db, s))], ctx.conn);
    }
  }

  lemma OutsideNests(evts: seq<Event>, inner: Conn, outer: Conn)
    requires !inner.InTx? && Nested(evts, inner)
    ensures Nested(evts, outer)
  {
    forall open | Fits(open, outer) ensures Nest(evts, open) == Some(open) { assert Fits(open, inner); }
  }

  /** In every tree, a nested serialized call runs its body in the innermost transaction that is open at that moment,
    * under exactly the options that one was begun with: it is serializable if and only if those give it that level.
    */
  lemma SerialInInnermost(env: Env, db: Db, ctx: Ctx, body: Body, open: seq<Opened>, k: nat)
    requires Fits(open, ctx.conn)
    requires var evts := Run(env, db, ctx, body).evts; k < |evts| && evts[k].SerialEvt?
    ensures
      var evts := Run(env, db, ctx, body).evts;
      var now := Nest(evts[..k], open);
      && Nest(evts, open) == Some(open)
      && now.Some? && now.value != [] && now.value[0] == Opened(evts[k].id, evts[k].opts)
  {
    hide Run;
    RunNests(env, db, ctx, body);
    var evts := Run(env, db, ctx, body).evts;
    assert evts == evts[..k] + evts[k..] && evts[k..] == [evts[k]] + evts[k + 1..];
    NestSplit(evts[..k], evts[k..], open);
  }
}
