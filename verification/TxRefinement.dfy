/** The machine refines the compositional meaning: transaction ids, the transaction table,
  * savepoint names and leftover savepoints never show in what becomes durable.
  */
module TxRefinement {
  import opened Common
  import opened Sql
  import opened TxModel
  import opened TxSemantics

  /** Names drawn at different times differ, as the counter guarantees. */
  ghost predicate FreshNames(env: Env) {
    forall i: nat, j: nat :: env.name(i) == env.name(j) ==> i == j
  }

  predicate TxOk(tx: Tx, nextSession: nat, nextDraw: nat) {
    tx.session < nextSession && forall i :: 0 <= i < |tx.saves| ==> tx.saves[i].draw < nextDraw
  }

  /** The invariant of the transaction table. */
  predicate WellFormed(db: Db) {
    forall id :: id in db.txs ==> 0 < id <= db.lastTx && TxOk(db.txs[id], db.nextSession, db.nextDraw)
  }

  /** The context's connection is usable: an open transaction or an existing session. */
  predicate Usable(db: Db, conn: Conn) {
    match conn
    case Pool => true
    case Pinned(s) => s < db.nextSession
    case InTx(id, _) => id in db.txs
  }

  /** How a transaction may look after the calls of its body. */
  predicate Extended(prior: Tx, added: Tx, pending: seq<Stmt>, draw: nat) {
    && added.session == prior.session
    && added.log == prior.log + pending
    && prior.saves <= added.saves
    && forall i :: |prior.saves| <= i < |added.saves| ==> draw <= added.saves[i].draw
  }

  /** The machine, started in db under conn and ending in after with outcome out, agrees with m. */
  ghost predicate AgreesOn(db: Db, conn: Conn, after: Db, out: Outcome, m: Meaning) {
    && out == m.out
    && after.clock == m.clock
    && after.committed == db.committed + m.durable
    && WellFormed(after)
    && db.lastTx <= after.lastTx && db.nextSession <= after.nextSession && db.nextDraw <= after.nextDraw
    && after.txs.Keys == db.txs.Keys
    && (forall id :: id in db.txs && id != TransactionId(conn) ==> after.txs[id] == db.txs[id])
    && (if Active(conn) then
          TransactionId(conn) in db.txs
          && Extended(db.txs[TransactionId(conn)], after.txs[TransactionId(conn)], m.pending, db.nextDraw)
        else m.pending == [])
  }

  ghost predicate Agrees(db: Db, conn: Conn, r: Res, m: Meaning) { AgreesOn(db, conn, r.db, r.out, m) }

  lemma Steps(db: Db, conn: Conn)
    requires WellFormed(db) && Usable(db, conn)
    ensures WellFormed(Tick(db)) && Usable(Tick(db), conn)
    ensures forall after, out, m :: AgreesOn(Tick(db), conn, after, out, m) ==> AgreesOn(db, conn, after, out, m)
  {
  }

  /** What Agrees gives to the next call in the same context. */
  lemma Usables(db: Db, conn: Conn, r: Res, m: Meaning)
    requires Usable(db, conn) && Agrees(db, conn, r, m)
    ensures WellFormed(r.db) && Usable(r.db, conn) && r.db.clock == m.clock && r.out == m.out
  {
  }

  lemma Refused(db: Db, conn: Conn, out: Outcome)
    requires WellFormed(db) && Usable(db, conn)
    ensures AgreesOn(db, conn, db, out, Meaning(db.clock, out, [], []))
  {
  }

  lemma Joined(db: Db, conn: Conn, r: Res, m: Meaning, q: Res, n: Meaning)
    requires r.out == m.out
    requires Agrees(db, conn, After(r, q), Sequence(m, n))
    ensures AgreesOn(db, conn, q.db, Join(r.out, q.out), Sequence(m, n).(out := Join(m.out, n.out)))
  {
  }

  lemma Compose(db: Db, conn: Conn, r: Res, m: Meaning, q: Res, n: Meaning)
    requires Agrees(db, conn, r, m) && Agrees(r.db, conn, q, n)
    ensures Agrees(db, conn, After(r, q), Sequence(m, n))
  {
    if Active(conn) {
      var id := TransactionId(conn);
      var a, b, c := db.txs[id], r.db.txs[id], q.db.txs[id];
      assert a.log + (m.pending + n.pending) == c.log;
      forall i | |a.saves| <= i < |c.saves| ensures db.nextDraw <= c.saves[i].draw {
        if i < |b.saves| { assert c.saves[i] == b.saves[i]; }
      }
    }
    assert db.committed + (m.durable + n.durable) == q.db.committed;
  }

  /** The refinement theorem: for every caller tree, failure schedule and start state. */
  lemma {:induction false} Refines(env: Env, db: Db, ctx: Ctx, body: Body)
    requires FreshNames(env) && WellFormed(db) && Usable(db, ctx.conn)
    ensures Agrees(db, ctx.conn, Run(env, db, ctx, body), Mean(env, db.clock, ViewOf(ctx), body))
    decreases body, 0, 0
  {
    hide AgreesOn, WellFormed, Usable;
    hide RunTransaction, RunIsolated, RunSavepoint, RunAttempts, RunPinned;
    hide MeanTransaction, MeanRoot, MeanSavepoint, MeanAttempts, MeanPinned;
    Steps(db, ctx.conn);
    if body.Skip? || body.ExecStmt? || body.DriverCall? || body.Return? || body.Panic? {
      RefinesLeaf(env, db, ctx, body);
      return;
    }
    match body
    case Then(first, second) =>
      Refines(env, db, ctx, first);
      var r := Run(env, db, ctx, first);
      Usables(db, ctx.conn, r, Mean(env, db.clock, ViewOf(ctx), first));
      if r.out.Done? {
        Refines(env, r.db, ctx, second);
        Chain(env, db, ctx, first, second);
      }
    case Catch(b, handler) =>
      Refines(env, db, ctx, b);
      var r := Run(env, db, ctx, b);
      Usables(db, ctx.conn, r, Mean(env, db.clock, ViewOf(ctx), b));
      if r.out.Err? {
        Refines(env, r.db, ctx, handler);
        Chain(env, db, ctx, b, handler);
      }
    case Recover(b, handler) =>
      Refines(env, db, ctx, b);
      var r := Run(env, db, ctx, b);
      Usables(db, ctx.conn, r, Mean(env, db.clock, ViewOf(ctx), b));
      if r.out.Panicked? {
        Refines(env, r.db, ctx, handler);
        Chain(env, db, ctx, b, handler);
      }
    case Finally(b, cleanup) =>
      Refines(env, db, ctx, b);
      var r := Run(env, db, ctx, b);
      Usables(db, ctx.conn, r, Mean(env, db.clock, ViewOf(ctx), b));
      Refines(env, r.db, ctx, cleanup);
      Chain(env, db, ctx, b, cleanup);
      Joined(db, ctx.conn, r, Mean(env, db.clock, ViewOf(ctx), b), Run(env, r.db, ctx, cleanup), Mean(env, r.db.clock, ViewOf(ctx), cleanup));
    case Choose(left, right) =>
      if env.choose(db.clock) { Refines(env, Tick(db), ctx, left); } else { Refines(env, Tick(db), ctx, right); }
    case WithoutTransactions(b) => Refines(env, db, ctx.(noTx := true), b);
    case Transaction(opts, b) =>
      if ctx.noTx { Refines(env, db, ctx, b); } else { RefinesTransaction(env, db, ctx, opts, b); }
    case Isolated(opts, b) =>
      if ctx.noTx { Refines(env, db, ctx, b); } else { RefinesRoot(env, db, ctx, opts, b); }
    case SavepointTx(b) =>
      if ctx.noTx { Refines(env, db, ctx, b); }
      else if !Active(ctx.conn) { RefinesTransaction(env, db, ctx, None, b); }
      else { RefinesSavepoint(env, db, ctx, b); }
    case Serialized(b) =>
      if ctx.noTx { Refines(env, db, ctx, b); }
      else if Active(ctx.conn) {
        if ctx.serialized { Refines(env, db, ctx, b); } else { Refused(db, ctx.conn, Err(Error({NotSerialized}))); }
      } else {
        RefinesAttempts(env, db, ctx.(serialized := true), b, if env.retries < 0 then 0 else env.retries, Error({}));
      }
    case PinnedConn(b) =>
      if Active(ctx.conn) || ctx.conn.Pinned? { Refines(env, db, ctx, b); } else { RefinesPinned(env, db, ctx, b); }
  }

  lemma Chain(env: Env, db: Db, ctx: Ctx, a: Body, b: Body)
    requires Agrees(db, ctx.conn, Run(env, db, ctx, a), Mean(env, db.clock, ViewOf(ctx), a))
    requires
      var r := Run(env, db, ctx, a);
      Agrees(r.db, ctx.conn, Run(env, r.db, ctx, b), Mean(env, r.db.clock, ViewOf(ctx), b))
    ensures
      var r := Run(env, db, ctx, a);
      var m := Mean(env, db.clock, ViewOf(ctx), a);
      && m.clock == r.db.clock
      && Agrees(db, ctx.conn, After(r, Run(env, r.db, ctx, b)), Sequence(m, Mean(env, m.clock, ViewOf(ctx), b)))
  {
    var r := Run(env, db, ctx, a);
    Compose(db, ctx.conn, r, Mean(env, db.clock, ViewOf(ctx), a),
            Run(env, r.db, ctx, b), Mean(env, r.db.clock, ViewOf(ctx), b));
  }

  lemma RefinesLeaf(env: Env, db: Db, ctx: Ctx, body: Body)
    requires WellFormed(db) && Usable(db, ctx.conn)
    requires body.Skip? || body.ExecStmt? || body.DriverCall? || body.Return? || body.Panic?
    ensures Agrees(db, ctx.conn, Run(env, db, ctx, body), Mean(env, db.clock, ViewOf(ctx), body))
  {
  }

  lemma {:induction false} RefinesTransaction(env: Env, db: Db, ctx: Ctx, opts: Option<TxOptions>, body: Body)
    requires FreshNames(env) && WellFormed(db) && Usable(db, ctx.conn)
    ensures Agrees(db, ctx.conn, RunTransaction(env, db, ctx, opts, body),
                   MeanTransaction(env, db.clock, ViewOf(ctx), opts, body))
    decreases body, 2, 0
  {
    if Active(ctx.conn) { Refines(env, db, ctx, body); } else { RefinesRoot(env, db, ctx, opts, body); }
  }

  lemma {:induction false} RefinesRoot(env: Env, db: Db, ctx: Ctx, opts: Option<TxOptions>, body: Body)
    requires FreshNames(env) && WellFormed(db) && Usable(db, ctx.conn)
    ensures Agrees(db, ctx.conn, RunIsolated(env, db, ctx, opts, body),
                   MeanRoot(env, db.clock, ViewOf(ctx), opts, body))
    decreases body, 1, 0
  {
    hide *;
    if env.fault(db.clock).Some? {
      RootFails(env, db, ctx, opts, body);
    } else {
      RootBegins(env, db, ctx, opts);
      var id := db.lastTx + 1;
      var b := Begin(env, db.(lastTx := id), id, ctx.conn, opts);
      var inner := ctx.(conn := InTx(id, opts));
      Refines(env, b.db, inner, body);
      RootEnds(env, db, ctx.conn, b.db, inner.conn, Run(env, b.db, inner, body),
               Mean(env, b.db.clock, ViewOf(inner), body));
      RootUnfolds(env, db, ctx, opts, body);
    }
  }

  lemma RootFails(env: Env, db: Db, ctx: Ctx, opts: Option<TxOptions>, body: Body)
    requires WellFormed(db) && Usable(db, ctx.conn) && env.fault(db.clock).Some?
    ensures Agrees(db, ctx.conn, RunIsolated(env, db, ctx, opts, body),
                   MeanRoot(env, db.clock, ViewOf(ctx), opts, body))
  {
  }

  lemma RootUnfolds(env: Env, db: Db, ctx: Ctx, opts: Option<TxOptions>, body: Body)
    requires env.fault(db.clock).None?
    requires
      var id := db.lastTx + 1;
      var b := Begin(env, db.(lastTx := id), id, ctx.conn, opts);
      var inner := ctx.(conn := InTx(id, opts));
      var r := Run(env, b.db, inner, body);
      && b.db.clock == db.clock + 1
      && Agrees(db, ctx.conn, Finish(env, r.db, id, r.out), RootMeans(env, Mean(env, b.db.clock, ViewOf(inner), body)))
    ensures Agrees(db, ctx.conn, RunIsolated(env, db, ctx, opts, body),
                   MeanRoot(env, db.clock, ViewOf(ctx), opts, body))
  {
    hide AgreesOn, Run, Mean, Finish, RootMeans, RunIsolated, MeanRoot, Begin, ViewOf;
    RunIsolatedIs(env, db, ctx, opts, body);
    MeanRootIs(env, db, ctx, opts, body);
  }

  lemma RunIsolatedIs(env: Env, db: Db, ctx: Ctx, opts: Option<TxOptions>, body: Body)
    requires env.fault(db.clock).None?
    ensures
      var id := db.lastTx + 1;
      var b := Begin(env, db.(lastTx := id), id, ctx.conn, opts);
      var r := Run(env, b.db, ctx.(conn := InTx(id, opts)), body);
      var f := Finish(env, r.db, id, r.out);
      var q := RunIsolated(env, db, ctx, opts, body);
      q.db == f.db && q.out == f.out
  {
    hide Run, Finish;
  }

  lemma MeanRootIs(env: Env, db: Db, ctx: Ctx, opts: Option<TxOptions>, body: Body)
    requires env.fault(db.clock).None?
    ensures MeanRoot(env, db.clock, ViewOf(ctx), opts, body) ==
            RootMeans(env, Mean(env, db.clock + 1, ViewOf(ctx.(conn := InTx(db.lastTx + 1, opts))), body))
  {
    hide Mean, RootMeans;
  }

  /** The state in which the body of a new root transaction starts. */
  ghost predicate Begun(db: Db, start: Db, id: nat) {
    && id == db.lastTx + 1 == start.lastTx
    && WellFormed(start)
    && start.txs.Keys == db.txs.Keys + {id} && start.committed == db.committed
    && (forall i :: i in db.txs ==> start.txs[i] == db.txs[i])
    && start.txs[id].log == []
    && db.nextSession <= start.nextSession && db.nextDraw <= start.nextDraw
  }

  lemma RootBegins(env: Env, db: Db, ctx: Ctx, opts: Option<TxOptions>)
    requires WellFormed(db) && Usable(db, ctx.conn) && env.fault(db.clock).None?
    ensures
      var id := db.lastTx + 1;
      var b := Begin(env, db.(lastTx := id), id, ctx.conn, opts);
      && Begun(db, b.db, id) && WellFormed(b.db) && Usable(b.db, InTx(id, opts)) && b.db.clock == db.clock + 1
  {
  }

  /** Ending the root transaction removes it and leaves every other transaction alone. */
  lemma RootEnds(env: Env, db: Db, conn: Conn, start: Db, inner: Conn, r: Res, m: Meaning)
    requires WellFormed(db) && Usable(db, conn)
    requires inner.InTx? && Begun(db, start, inner.id)
    requires Agrees(start, inner, r, m)
    ensures Agrees(db, conn, Finish(env, r.db, inner.id, r.out), RootMeans(env, m))
  {
    hide AgreesOn, WellFormed;
    var fault := env.fault(r.db.clock);
    if r.out.Done? && fault.None? {
      RootGone(db, conn, start, inner, r, m, m.durable + m.pending, m.out);
      assert db.committed + (m.durable + m.pending) == (db.committed + m.durable) + m.pending;
    } else {
      RootGone(db, conn, start, inner, r, m, m.durable, RootMeans(env, m).out);
    }
  }

  lemma RootGone(db: Db, conn: Conn, start: Db, inner: Conn, r: Res, m: Meaning, durable: seq<Stmt>, out: Outcome)
    requires WellFormed(db) && Usable(db, conn)
    requires inner.InTx? && Begun(db, start, inner.id)
    requires Agrees(start, inner, r, m)
    ensures AgreesOn(db, conn, Tick(r.db).(txs := r.db.txs - {inner.id}, committed := db.committed + durable),
                     out, Meaning(m.clock + 1, out, durable, []))
    ensures
      && r.db.committed == db.committed + m.durable && r.db.clock == m.clock && r.out == m.out
      && inner.id in r.db.txs && r.db.txs[inner.id].log == m.pending
  {
    assert (r.db.txs - {inner.id}).Keys == db.txs.Keys;
  }

  lemma {:induction false} FindOwn(env: Env, before: seq<Save>, own: Save, inner: seq<Save>)
    requires FreshNames(env)
    requires forall i :: 0 <= i < |inner| ==> own.draw < inner[i].draw
    ensures FindSave(env, before + [own] + inner, env.name(own.draw)) == |before|
    decreases |inner|
  {
    var all := before + [own] + inner;
    if inner != [] {
      var rest := inner[..|inner| - 1];
      assert all[..|all| - 1] == before + [own] + rest;
      assert all[|all| - 1] == inner[|inner| - 1];
      FindOwn(env, before, own, rest);
    }
  }

  lemma {:induction false} RefinesSavepoint(env: Env, db: Db, ctx: Ctx, body: Body)
    requires FreshNames(env) && WellFormed(db) && Usable(db, ctx.conn) && Active(ctx.conn)
    ensures Agrees(db, ctx.conn, RunSavepoint(env, db, ctx, body),
                   MeanSavepoint(env, db.clock, ViewOf(ctx), body))
    decreases body, 1, 0
  {
    hide *;
    if env.fault(db.clock).Some? {
      SavepointFails(env, db, ctx, body);
    } else {
      SavepointSet(env, db, ctx.conn);
      var start := Entered(env, db, ctx.conn);
      Refines(env, start, ctx, body);
      SavepointCloses(env, db, ctx, body);
    }
  }

  lemma SavepointCloses(env: Env, db: Db, ctx: Ctx, body: Body)
    requires FreshNames(env) && WellFormed(db) && Usable(db, ctx.conn) && Active(ctx.conn)
    requires env.fault(db.clock).None?
    requires
      var start := Entered(env, db, ctx.conn);
      Agrees(start, ctx.conn, Run(env, start, ctx, body), Mean(env, start.clock, ViewOf(ctx), body))
    ensures Agrees(db, ctx.conn, RunSavepoint(env, db, ctx, body),
                   MeanSavepoint(env, db.clock, ViewOf(ctx), body))
  {
    hide *;
    SavepointSet(env, db, ctx.conn);
    var start := Entered(env, db, ctx.conn);
    var r := Run(env, start, ctx, body);
    var m := Mean(env, start.clock, ViewOf(ctx), body);
    SavepointFound(env, db, ctx.conn, r, m);
    SavepointReleased(env, db, ctx.conn, r, m);
    SavepointRolledBack(env, db, ctx.conn, r, m);
    SavepointUnfolds(env, db, ctx, body);
  }

  /** The state right after the savepoint statement succeeded. */
  function Entered(env: Env, db: Db, conn: Conn): Db {
    Savepoint(env, db.(nextDraw := db.nextDraw + 1), TransactionId(conn), db.nextDraw).db
  }

  /** The call's own savepoint is still found by its name, right above the entry stack. */
  ghost predicate SaveIntact(env: Env, db: Db, conn: Conn, after: Db) {
    var id := TransactionId(conn);
    && id in db.txs && id in after.txs
    && var before, now := db.txs[id], after.txs[id];
    && FindSave(env, now.saves, env.name(db.nextDraw)) == |before.saves| < |now.saves|
    && now.saves[..|before.saves|] == before.saves
    && now.saves[|before.saves|] == Save(db.nextDraw, before.log)
  }

  lemma SavepointFails(env: Env, db: Db, ctx: Ctx, body: Body)
    requires WellFormed(db) && Usable(db, ctx.conn) && Active(ctx.conn) && env.fault(db.clock).Some?
    ensures Agrees(db, ctx.conn, RunSavepoint(env, db, ctx, body),
                   MeanSavepoint(env, db.clock, ViewOf(ctx), body))
  {
  }

  lemma SavepointSet(env: Env, db: Db, conn: Conn)
    requires WellFormed(db) && Usable(db, conn) && Active(conn) && env.fault(db.clock).None?
    ensures
      var start := Entered(env, db, conn);
      WellFormed(start) && Usable(start, conn) && start.clock == db.clock + 1 && TransactionId(conn) in db.txs
  {
  }

  /** Whatever the body left on the stack, its savepoint is still the one its name finds. */
  lemma SavepointFound(env: Env, db: Db, conn: Conn, r: Res, m: Meaning)
    requires FreshNames(env) && WellFormed(db) && Usable(db, conn) && Active(conn)
    requires env.fault(db.clock).None?
    requires Agrees(Entered(env, db, conn), conn, r, m)
    ensures SaveIntact(env, db, conn, r.db)
    ensures Agrees(db, conn, r, m) && r.out == m.out && r.db.clock == m.clock
  {
    var before, after := db.txs[conn.id], r.db.txs[conn.id];
    var own := Save(db.nextDraw, before.log);
    var inner := after.saves[|before.saves| + 1..];
    assert Entered(env, db, conn).txs[conn.id].saves == before.saves + [own];
    assert after.saves == before.saves + [own] + inner;
    FindOwn(env, before.saves, own, inner);
  }

  lemma SavepointReleased(env: Env, db: Db, conn: Conn, r: Res, m: Meaning)
    requires WellFormed(db) && Usable(db, conn) && Active(conn)
    requires Agrees(db, conn, r, m) && SaveIntact(env, db, conn, r.db)
    ensures
      var c := Release(env, r.db, TransactionId(conn), db.nextDraw);
      AgreesOn(db, conn, c.db, AsOutcome(c.err), Meaning(m.clock + 1, AsOutcome(env.fault(m.clock)), m.durable, m.pending))
  {
  }

  lemma SavepointRolledBack(env: Env, db: Db, conn: Conn, r: Res, m: Meaning)
    requires WellFormed(db) && Usable(db, conn) && Active(conn)
    requires Agrees(db, conn, r, m) && SaveIntact(env, db, conn, r.db)
    ensures
      var c := RollbackTo(env, r.db, TransactionId(conn), db.nextDraw);
      AgreesOn(db, conn, c.db, r.out,
               Meaning(m.clock + 1, m.out, m.durable, if env.fault(m.clock).Some? then m.pending else []))
  {
    var before := db.txs[conn.id];
    assert before.log + [] == before.log;
  }

  lemma SavepointUnfolds(env: Env, db: Db, ctx: Ctx, body: Body)
    requires Active(ctx.conn) && env.fault(db.clock).None? && TransactionId(ctx.conn) in db.txs
    requires Entered(env, db, ctx.conn).clock == db.clock + 1
    requires
      var start := Entered(env, db, ctx.conn);
      var r := Run(env, start, ctx, body);
      var m := Mean(env, start.clock, ViewOf(ctx), body);
      var c := Release(env, r.db, TransactionId(ctx.conn), db.nextDraw);
      var d := RollbackTo(env, r.db, TransactionId(ctx.conn), db.nextDraw);
      && r.out == m.out && r.db.clock == m.clock
      && Agrees(db, ctx.conn, r, m)
      && AgreesOn(db, ctx.conn, c.db, AsOutcome(c.err), Meaning(m.clock + 1, AsOutcome(env.fault(m.clock)), m.durable, m.pending))
      && AgreesOn(db, ctx.conn, d.db, r.out,
                  Meaning(m.clock + 1, m.out, m.durable, if env.fault(m.clock).Some? then m.pending else []))
    ensures Agrees(db, ctx.conn, RunSavepoint(env, db, ctx, body),
                   MeanSavepoint(env, db.clock, ViewOf(ctx), body))
  {
    hide AgreesOn, Release, RollbackTo, Run, Mean, ViewOf;
  }

  /** What one TransactionSavepoint call does to the savepoint stack and the data: a nil
    * return restores the stack exactly; an error whose rollback succeeded restores the data
    * and leaves the entry stack with the call's own savepoint on top; in every other case the
    * entry stack is a prefix.
    */
  lemma {:induction false} SavepointRestores(env: Env, db: Db, ctx: Ctx, body: Body)
    requires FreshNames(env) && WellFormed(db) && Usable(db, ctx.conn) && Active(ctx.conn)
    ensures StackRestored(env, db, ctx, Run(env, Entered(env, db, ctx.conn), ctx, body), RunSavepoint(env, db, ctx, body))
  {
    hide *;
    if env.fault(db.clock).None? {
      SavepointSet(env, db, ctx.conn);
      var start := Entered(env, db, ctx.conn);
      Refines(env, start, ctx, body);
      SavepointFound(env, db, ctx.conn, Run(env, start, ctx, body), Mean(env, start.clock, ViewOf(ctx), body));
    }
    StackAtEnd(env, db, ctx, body);
  }

  /** q is the result of a savepoint call whose body, once started, gave r. */
  ghost predicate StackRestored(env: Env, db: Db, ctx: Ctx, r: Res, q: Res) {
    var id := TransactionId(ctx.conn);
    && id in db.txs && id in q.db.txs
    && var before, after := db.txs[id], q.db.txs[id];
    && before.saves <= after.saves
    && (q.out.Done? ==> after.saves == before.saves)
    && (env.fault(db.clock).None? && r.out.Err? && env.fault(r.db.clock).None? ==>
          after.log == before.log && after.saves == before.saves + [Save(db.nextDraw, before.log)])
  }

  lemma StackAtEnd(env: Env, db: Db, ctx: Ctx, body: Body)
    requires WellFormed(db) && Usable(db, ctx.conn) && Active(ctx.conn)
    requires env.fault(db.clock).None? ==> SaveIntact(env, db, ctx.conn, Run(env, Entered(env, db, ctx.conn), ctx, body).db)
    ensures StackRestored(env, db, ctx, Run(env, Entered(env, db, ctx.conn), ctx, body), RunSavepoint(env, db, ctx, body))
  {
    hide Run, FindSave, WellFormed;
    if env.fault(db.clock).None? {
      var saves := Run(env, Entered(env, db, ctx.conn), ctx, body).db.txs[TransactionId(ctx.conn)].saves;
      var n := |db.txs[TransactionId(ctx.conn)].saves|;
      assert saves[..n + 1] == saves[..n] + [saves[n]];
      assert saves == saves[..n] + saves[n..];
    }
  }

  lemma {:induction false} RefinesAttempts(env: Env, db: Db, ctx: Ctx, body: Body, n: nat, last: Error)
    requires FreshNames(env) && WellFormed(db) && Usable(db, ctx.conn)
    ensures Agrees(db, ctx.conn, RunAttempts(env, db, ctx, body, n, last),
                   MeanAttempts(env, db.clock, ViewOf(ctx), body, n, last))
    decreases body, 3, n
  {
    if n > 0 {
      var opts := Some(TxOptions(LEVEL_SERIALIZABLE, false));
      RefinesTransaction(env, db, ctx, opts, body);
      var r := RunTransaction(env, db, ctx, opts, body);
      var m := MeanTransaction(env, db.clock, ViewOf(ctx), opts, body);
      if r.out.Err? && Is(r.out.error, SerializationFailure) {
        RefinesAttempts(env, r.db, ctx, body, n - 1, r.out.error);
        Compose(db, ctx.conn, r, m, RunAttempts(env, r.db, ctx, body, n - 1, r.out.error),
                MeanAttempts(env, m.clock, ViewOf(ctx), body, n - 1, r.out.error));
      }
    }
  }

  lemma {:induction false} RefinesPinned(env: Env, db: Db, ctx: Ctx, body: Body)
    requires FreshNames(env) && WellFormed(db) && Usable(db, ctx.conn) && !Active(ctx.conn)
    ensures Agrees(db, ctx.conn, RunPinned(env, db, ctx, body), MeanPinned(env, db.clock, ViewOf(ctx), body))
    decreases body, 1, 0
  {
    hide Run, Mean;
    if env.canPin && env.fault(db.clock).None? {
      var s := db.nextSession;
      Refines(env, Tick(db).(nextSession := s + 1), ctx.(conn := Pinned(s)), body);
    }
  }
}
