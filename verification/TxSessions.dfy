/** Sessions, transaction options and savepoint names. */
module TxSessions {
  import opened Common
  import opened Sql
  import opened TxModel
  import opened TxSemantics
  import opened TxRefinement
  import opened TxTraces
  import opened Numerals

  // ---------- pinned sessions ----------

  /** What a deferred close that fails, or does not, makes of the body's outcome. */
  predicate ClosesAfter(body: Outcome, closing: Option<Error>, out: Outcome) {
    match body
    case Panicked => out.Panicked?
    case Done => if closing.Some? then out.Err? && out.error.causes == closing.value.causes else out.Done?
    case Err(e) => out.Err? && out.error.causes == e.causes + if closing.Some? then closing.value.causes else {}
  }

  /** PinnedConn on a pool connection: whatever the body does, the checked out session is
    * returned exactly once, last, with everything opened on it closed; in between, nothing
    * else is checked out or returned, and every statement runs on that session or on one that
    * a transaction was begun on from within a transaction. A close error makes the call fail with
    * its causes and those of the body's error, a panic goes on.
    */
  lemma PinnedReturned(env: Env, db: Db, ctx: Ctx, body: Body)
    requires FreshNames(env) && WellFormed(db) && ctx.conn.Pool?
    requires env.canPin && env.fault(db.clock).None?
    ensures
      var s := db.nextSession;
      var b := Run(env, Checkout(db), ctx.(conn := Pinned(s)), body);
      var r := Run(env, db, ctx, PinnedConn(body));
      && r.evts == [PinEvt(s)] + b.evts + [UnpinEvt(s, false)]
      && Balanced(b.evts)
      && (forall e :: e in b.evts ==> !e.PinEvt? && !e.UnpinEvt?)
      && (forall e :: e in b.evts && e.ExecEvt? ==> e.session == s || Foreign(b.evts, e.session))
      && !Busy(r.db, s)
      && ClosesAfter(b.out, env.fault(b.db.clock), r.out)
  {
    var s := db.nextSession;
    var inner := ctx.(conn := Pinned(s));
    CheckedOut(db);
    Traced(env, Checkout(db), inner, body);
    Refines(env, Checkout(db), inner, body);
    var b := Run(env, Checkout(db), inner, body);
    NotBusy(db, b, Mean(env, Checkout(db).clock, ViewOf(inner), body));
    assert Run(env, db, ctx, PinnedConn(body)) == RunPinned(env, db, ctx, body);
    PinEvents(env, db, ctx, body);
    PinOutcome(env, db, ctx, body);
    hide Run, RunPinned, Balanced, Honoured, AgreesOn, WellFormed;
  }

  lemma PinOutcome(env: Env, db: Db, ctx: Ctx, body: Body)
    requires env.canPin && env.fault(db.clock).None?
    ensures
      var b := Run(env, Checkout(db), ctx.(conn := Pinned(db.nextSession)), body);
      var q := RunPinned(env, db, ctx, body);
      && ClosesAfter(b.out, env.fault(b.db.clock), q.out)
      && Busy(q.db, db.nextSession) == Busy(b.db, db.nextSession)
  {
    hide Run;
  }

  // ---------- transaction options ----------

  /** In any tree run outside a transaction, every body that a Transaction or
    * IsolatedTransaction call runs is inside a really begun transaction whose own options
    * grant the request: at least the requested isolation, and read-only only if read-only was
    * requested.
    */
  lemma RequestsGranted(env: Env, db: Db, ctx: Ctx, body: Body)
    requires FreshNames(env) && WellFormed(db) && Usable(db, ctx.conn) && !Active(ctx.conn)
    ensures
      var evts := Run(env, db, ctx, body).evts;
      forall e :: e in evts && e.BodyEvt? ==> exists b ::
        && b in evts && b.BeginEvt? && b.id == e.id
        && (b.opts.Some? && b.opts.value.readOnly ==> e.requested.Some? && e.requested.value.readOnly)
        && (if e.requested.Some? && e.requested.value.isolation != 0 then e.requested.value.isolation else env.defaultLevel)
           <= (if b.opts.Some? && b.opts.value.isolation != 0 then b.opts.value.isolation else env.defaultLevel)
  {
    Traced(env, db, ctx, body);
    hide Run, Balanced, Located;
  }

  /** The compatibility check, on the fields of the options: a read-only parent takes read-only children only, and no
    * parent takes a child with a stricter isolation, where no options and level 0 stand for the default.
    */
  lemma CheckAccepts(p: Option<TxOptions>, c: Option<TxOptions>, default: nat)
    ensures CheckOptions(p, c, default).None? <==>
      && (p.Some? && p.value.readOnly ==> c.Some? && c.value.readOnly)
      && (if c.Some? && c.value.isolation != 0 then c.value.isolation else default)
         <= (if p.Some? && p.value.isolation != 0 then p.value.isolation else default)
    ensures CheckOptions(p, c, default).Some? ==> CheckOptions(p, c, default).value.causes == {OptionsTooStrict}
  {
  }

  /** A Transaction call inside a transaction runs its body in it if the options allow, and else is refused with
    * nothing done.
    */
  lemma NestedOrRefused(env: Env, db: Db, ctx: Ctx, opts: Option<TxOptions>, body: Body)
    requires Active(ctx.conn) && !ctx.noTx
    ensures
      var q, r := Run(env, db, ctx, TxModel.Transaction(opts, body)), Run(env, db, ctx, body);
      var p := ctx.conn.opts;
      if (p.Some? && p.value.readOnly ==> opts.Some? && opts.value.readOnly)
         && (if opts.Some? && opts.value.isolation != 0 then opts.value.isolation else env.defaultLevel)
            <= (if p.Some? && p.value.isolation != 0 then p.value.isolation else env.defaultLevel)
      then q.db == r.db && q.out == r.out && q.evts == [BodyEvt(ctx.conn.id, opts)] + r.evts
      else q.db == db && q.out == Err(Error({OptionsTooStrict})) && q.evts == []
  {
    assert Run(env, db, ctx, TxModel.Transaction(opts, body)) == RunTransaction(env, db, ctx, opts, body);
    hide Run;
  }

  /** The compatibility check lets through exactly what Grants says, and that passes along
    * chains of nested requests: if every request was accepted against the one before it, the
    * first grants the last.
    */
  lemma {:induction false} CheckIsPreorder(chain: seq<Option<TxOptions>>, default: nat)
    requires chain != []
    requires forall i :: 0 <= i < |chain| - 1 ==> CheckOptions(chain[i], chain[i + 1], default).None?
    ensures CheckOptions(chain[0], chain[|chain| - 1], default).None?
    ensures forall p, c :: CheckOptions(p, c, default).None? <==> Grants(p, c, default)
    decreases |chain|
  {
    if |chain| > 1 {
      var front := chain[..|chain| - 1];
      forall i | 0 <= i < |front| - 1 ensures CheckOptions(front[i], front[i + 1], default).None? {
        assert CheckOptions(chain[i], chain[i + 1], default).None?;
      }
      CheckIsPreorder(front, default);
      assert CheckOptions(chain[|chain| - 2], chain[|chain| - 2 + 1], default).None?;
    }
  }

  // ---------- savepoint names ----------

  /** TransactionSavepoint keeps its promise on every state, tree and failure schedule. */
  ghost predicate SavepointsRestore(name: nat -> string) {
    forall env: Env, db: Db, ctx: Ctx, body: Body ::
      env.name == name && WellFormed(db) && Usable(db, ctx.conn) && Active(ctx.conn) ==>
        StackRestored(env, db, ctx, Run(env, Entered(env, db, ctx.conn), ctx, body), RunSavepoint(env, db, ctx, body))
  }

  /** The promise holds if and only if no savepoint name is ever drawn twice. */
  lemma NamesMustBeFresh(name: nat -> string)
    ensures SavepointsRestore(name) <==> forall i: nat, j: nat :: name(i) == name(j) ==> i == j
  {
    if forall i: nat, j: nat :: name(i) == name(j) ==> i == j {
      forall env: Env, db: Db, ctx: Ctx, body: Body
        | env.name == name && WellFormed(db) && Usable(db, ctx.conn) && Active(ctx.conn)
        ensures StackRestored(env, db, ctx, Run(env, Entered(env, db, ctx.conn), ctx, body), RunSavepoint(env, db, ctx, body))
      {
        assert FreshNames(env);
        SavepointRestores(env, db, ctx, body);
      }
    } else {
      var i: nat, j: nat :| name(i) == name(j) && i < j;
      RepeatedNameBreaks(name, i, j);
    }
  }

  /** k savepoint calls whose `savepoint` statement fails: each draws a name and has no other effect. */
  function Draws(k: nat): Body {
    if k == 0 then Skip else Then(Catch(SavepointTx(Skip), Skip), Draws(k - 1))
  }

  lemma {:induction false} DrawsOnly(env: Env, db: Db, ctx: Ctx, k: nat)
    requires Active(ctx.conn) && !ctx.noTx && TransactionId(ctx.conn) in db.txs
    requires forall c :: db.clock <= c < db.clock + k ==> env.fault(c).Some?
    ensures Run(env, db, ctx, Draws(k)) == Res(db.(clock := db.clock + k, nextDraw := db.nextDraw + k), Done, [])
    decreases k
  {
    if k > 0 {
      var one := Catch(SavepointTx(Skip), Skip);
      var next := db.(clock := db.clock + 1, nextDraw := db.nextDraw + 1);
      assert RunSavepoint(env, db, ctx, Skip).db == next;
      assert Run(env, db, ctx, one) == Res(next, Done, []);
      DrawsOnly(env, next, ctx, k - 1);
      assert Run(env, db, ctx, Draws(k)) == After(Res(next, Done, []), Run(env, next, ctx, Draws(k - 1)));
    }
  }

  /** A failed inner call whose savepoint stays behind under the outer call's name. */
  function Inner(stmt: Stmt): Body {
    Then(ExecStmt(stmt), Then(Catch(SavepointTx(Return(Error({App(1)}))), Skip), Return(Error({App(2)}))))
  }

  /** The outer rollback then stops at the inner leftover and keeps the statement before it. */
  lemma InnerLeftover(env: Env, db: Db, ctx: Ctx, i: nat, stmt: Stmt)
    requires ctx.conn == InTx(1, None) && !ctx.noTx
    requires db.txs == map[1 := Tx(0, [], [Save(i, [])])]
    requires env.name(i) == env.name(db.nextDraw)
    requires forall c :: db.clock <= c ==> env.fault(c).None?
    ensures
      var r := Run(env, db, ctx, Inner(stmt));
      var q := RollbackTo(env, r.db, 1, i);
      && r.out.Err?
      && q.err.None?
      && q.db.txs[1].log == [stmt]
      && r.db.clock >= db.clock
  {
    var e := Run(env, db, ctx, ExecStmt(stmt));
    assert [] + [stmt] == [stmt];
    assert e.out == Done && e.db == Tick(db).(txs := map[1 := Tx(0, [stmt], [Save(i, [])])]);
    var rest := Then(Catch(SavepointTx(Return(Error({App(1)}))), Skip), Return(Error({App(2)})));
    Leftover(env, e.db, ctx, i, stmt);
    assert Run(env, db, ctx, Inner(stmt)) == After(e, Run(env, e.db, ctx, rest));
  }

  lemma Leftover(env: Env, db: Db, ctx: Ctx, i: nat, stmt: Stmt)
    requires ctx.conn == InTx(1, None) && !ctx.noTx
    requires db.txs == map[1 := Tx(0, [stmt], [Save(i, [])])]
    requires env.name(i) == env.name(db.nextDraw)
    requires forall c :: db.clock <= c ==> env.fault(c).None?
    ensures
      var r := Run(env, db, ctx, Then(Catch(SavepointTx(Return(Error({App(1)}))), Skip), Return(Error({App(2)}))));
      var q := RollbackTo(env, r.db, 1, i);
      && r.out.Err?
      && q.err.None?
      && q.db.txs[1].log == [stmt]
      && r.db.clock >= db.clock
  {
    var fail, failing := Return(Error({App(1)})), Return(Error({App(2)}));
    var saves := [Save(i, []), Save(db.nextDraw, [stmt])];
    assert [Save(i, [])] + [Save(db.nextDraw, [stmt])] == saves;
    var inner := RunSavepoint(env, db, ctx, fail);
    var entered := Entered(env, db, ctx.conn);
    assert entered.txs == map[1 := Tx(0, [stmt], saves)];
    assert Run(env, entered, ctx, fail) == Res(entered, Err(Error({App(1)})), []);
    assert FindSave(env, saves, env.name(i)) == FindSave(env, saves, env.name(db.nextDraw)) == 1;
    assert saves[..2] == saves;
    assert inner.db.txs == map[1 := Tx(0, [stmt], saves)] && inner.out.Err?;
    assert Run(env, db, ctx, SavepointTx(fail)) == inner;
    var caught := Run(env, db, ctx, Catch(SavepointTx(fail), Skip));
    assert caught.out == Done && caught.db == inner.db;
    assert Run(env, db, ctx, Then(Catch(SavepointTx(fail), Skip), failing)) == After(caught, Run(env, caught.db, ctx, failing));
  }

  /** Fails at the ticks from 1 up to and including k only. */
  function FaultsUpTo(k: nat): nat -> Option<Error> {
    c => if 0 < c <= k then Some(Error({Driver(0)})) else None
  }

  lemma RepeatEntered(env: Env, i: nat)
    requires env.fault(0).None?
    ensures Entered(env, Db([], map[1 := Tx(0, [], [])], 1, 1, i, 0), InTx(1, None))
      == Db([], map[1 := Tx(0, [], [Save(i, [])])], 1, 1, i + 1, 1)
  {
    assert [] + [Save(i, [])] == [Save(i, [])];
  }

  lemma ErrorRollsBack(env: Env, db: Db, ctx: Ctx, body: Body)
    requires ctx.conn.InTx? && ctx.conn.id in db.txs && env.fault(db.clock).None?
    requires Run(env, Entered(env, db, ctx.conn), ctx, body).out.Err?
    ensures RunSavepoint(env, db, ctx, body).db
      == RollbackTo(env, Run(env, Entered(env, db, ctx.conn), ctx, body).db, ctx.conn.id, db.nextDraw).db
  {
    hide Run, RollbackTo;
  }

  lemma RepeatedNameBreaks(name: nat -> string, i: nat, j: nat)
    requires i < j && name(i) == name(j)
    ensures !SavepointsRestore(name)
  {
    var k := j - i - 1;
    var env := Env(FaultsUpTo(k), _ => true, name, 10, true, 2);
    var db := Db([], map[1 := Tx(0, [], [])], 1, 1, i, 0);
    var ctx := Ctx(InTx(1, None), false, false);
    var stmt := Stmt([], []);
    var body := Then(Draws(k), Inner(stmt));
    var start := Entered(env, db, ctx.conn);
    RepeatEntered(env, i);
    DrawsOnly(env, start, ctx, k);
    var mid := start.(clock := 1 + k, nextDraw := j);
    assert Run(env, start, ctx, Draws(k)) == Res(mid, Done, []);
    InnerLeftover(env, mid, ctx, i, stmt);
    var t := Run(env, mid, ctx, Inner(stmt));
    var r := Run(env, start, ctx, body);
    assert r == After(Res(mid, Done, []), t);
    hide Run, Inner, RollbackTo;
    var q := RunSavepoint(env, db, ctx, body);
    ErrorRollsBack(env, db, ctx, body);
    assert !StackRestored(env, db, ctx, r, q);
  }

  /** The names that the global savepoint counter gives: sp1, sp2 and so on. */
  function CounterName(draw: nat): string { "sp" + Itoa(draw + 1) }

  /** The counter's names are never drawn twice, so savepoints nest as SavepointRestores promises. */
  lemma CounterNamesAreFresh(env: Env)
    requires forall draw: nat :: env.name(draw) == CounterName(draw)
    ensures FreshNames(env)
  {
    forall i: nat, j: nat | env.name(i) == env.name(j) ensures i == j {
      assert CounterName(i) == CounterName(j);
      assert CounterName(i)[2..] == Itoa(i + 1) && CounterName(j)[2..] == Itoa(j + 1);
      ItoaInjective(i + 1, j + 1);
    }
  }
}
