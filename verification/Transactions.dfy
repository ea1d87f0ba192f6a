/** The helpers in the form of the Go code: statement by statement on one database object,
  * each proved to do exactly what its function in TxModel says.
  */
module Transactions {
  import opened Common
  import opened Sql
  import opened TxModel

  class Database {
    const env: Env
    var committed: seq<Stmt>
    var txs: map<nat, Tx>
    var txCounter: nat
    var nextSession: nat
    var savepointCounter: nat
    var clock: nat
    ghost var trace: seq<Event>

    constructor (env: Env)
      ensures this.env == env && State() == Db([], map[], 0, 0, 0, 0) && trace == []
    {
      this.env := env;
      committed, txs, txCounter, nextSession, savepointCounter, clock := [], map[], 0, 0, 0, 0;
      trace := [];
    }

    function State(): Db
      reads this
    {
      Db(committed, txs, txCounter, nextSession, savepointCounter, clock)
    }

    /** The state and trace are those of the specification result r, entered with trace before. */
    ghost predicate Did(before: seq<Event>, r: Res)
      reads this
    {
      State() == r.db && trace == before + r.evts
    }

    ghost predicate Called(before: seq<Event>, c: TxModel.Call)
      reads this
    {
      State() == c.db && trace == before + c.evts
    }

    // ---------- driver calls ----------

    method Fault() returns (err: Option<Error>)
      modifies this
      ensures State() == Tick(old(State())) && trace == old(trace) && err == env.fault(old(clock))
    {
      err := env.fault(clock);
      clock := clock + 1;
    }

    method NextTransactionID() returns (id: nat)
      modifies this
      ensures State() == old(State()).(lastTx := id) && id == old(txCounter) + 1 && trace == old(trace)
    {
      txCounter := txCounter + 1;
      id := txCounter;
    }

    method Begin(id: nat, conn: Conn, opts: Option<TxOptions>) returns (err: Option<Error>)
      modifies this
      ensures var c := TxModel.Begin(env, old(State()), id, conn, opts); Called(old(trace), c) && err == c.err
    {
      err := Fault();
      if err.Some? { return; }
      var session := nextSession;
      if conn.Pinned? { session := conn.session; } else { nextSession := nextSession + 1; }
      txs := txs[id := Tx(session, [], [])];
      trace := trace + [BeginEvt(id, session, conn, opts)];
    }

    method Commit(id: nat) returns (err: Option<Error>)
      modifies this
      ensures var c := TxModel.Commit(env, old(State()), id); Called(old(trace), c) && err == c.err
    {
      err := Fault();
      if id !in txs {
        trace := trace + [CommitEvt(id, [], false)];
        return Some(Error({TxDone}));
      }
      trace := trace + [CommitEvt(id, txs[id].log, err.None?)];
      if err.None? { committed := committed + txs[id].log; }
      txs := txs - {id};
    }

    method Rollback(id: nat) returns (err: Option<Error>)
      modifies this
      ensures var c := TxModel.Rollback(env, old(State()), id); Called(old(trace), c) && err == c.err
    {
      err := Fault();
      if id !in txs {
        trace := trace + [RollbackEvt(id, false)];
        return Some(Error({TxDone}));
      }
      trace := trace + [RollbackEvt(id, err.None?)];
      txs := txs - {id};
    }

    method Exec(conn: Conn, stmt: Stmt) returns (err: Option<Error>)
      modifies this
      ensures var c := TxModel.Exec(env, old(State()), conn, stmt); Called(old(trace), c) && err == c.err
    {
      err := Fault();
      match conn {
        case Pool =>
          trace := trace + [ExecEvt(nextSession, stmt, true, err.None?)];
          nextSession := nextSession + 1;
          if err.None? { committed := committed + [stmt]; }
        case Pinned(s) =>
          trace := trace + [ExecEvt(s, stmt, true, err.None?)];
          if err.None? { committed := committed + [stmt]; }
        case InTx(id, _) =>
          if id !in txs { return Some(Error({TxDone})); }
          trace := trace + [ExecEvt(txs[id].session, stmt, false, err.None?)];
          if err.None? { txs := txs[id := txs[id].(log := txs[id].log + [stmt])]; }
      }
    }

    /** Runs one of the three savepoint statements of a transaction. */
    method ExecSavepoint(id: nat, draw: nat) returns (err: Option<Error>)
      modifies this
      ensures var c := TxModel.Savepoint(env, old(State()), id, draw); Called(old(trace), c) && c.evts == [] && err == c.err
      ensures trace == old(trace)
    {
      err := Fault();
      if id !in txs { return Some(Error({TxDone})); }
      if err.Some? { return; }
      txs := txs[id := txs[id].(saves := txs[id].saves + [Save(draw, txs[id].log)])];
    }

    method ExecRollbackTo(id: nat, draw: nat) returns (err: Option<Error>)
      modifies this
      ensures var c := TxModel.RollbackTo(env, old(State()), id, draw); Called(old(trace), c) && c.evts == [] && err == c.err
      ensures trace == old(trace)
    {
      err := Fault();
      if id !in txs { return Some(Error({TxDone})); }
      if err.Some? { return; }
      var i := FindSave(env, txs[id].saves, env.name(draw));
      if i < 0 { return Some(Error({NoSuchSavepoint})); }
      txs := txs[id := txs[id].(log := txs[id].saves[i].log, saves := txs[id].saves[..i + 1])];
    }

    method ExecRelease(id: nat, draw: nat) returns (err: Option<Error>)
      modifies this
      ensures var c := TxModel.Release(env, old(State()), id, draw); Called(old(trace), c) && c.evts == [] && err == c.err
      ensures trace == old(trace)
    {
      err := Fault();
      if id !in txs { return Some(Error({TxDone})); }
      if err.Some? { return; }
      var i := FindSave(env, txs[id].saves, env.name(draw));
      if i < 0 { return Some(Error({NoSuchSavepoint})); }
      txs := txs[id := txs[id].(saves := txs[id].saves[..i])];
    }

    // ---------- helpers ----------

    /** sqldb.Transaction */
    method Transaction(ctx: Ctx, opts: Option<TxOptions>, body: Body) returns (err: Outcome)
      modifies this
      ensures var r := RunTransaction(env, old(State()), ctx, opts, body); Did(old(trace), r) && err == r.out
      decreases body, 2, 0
    {
      if Active(ctx.conn) {
        var e := CheckOptions(ctx.conn.opts, opts, env.defaultLevel);
        if e.Some? { return Err(e.value); }
        trace := trace + [BodyEvt(ctx.conn.id, opts)];
        err := RunBody(ctx, body);
        return;
      }
      err := IsolatedTransaction(ctx, opts, body);
    }

    /** sqldb.IsolatedTransaction, up to its deferred function. */
    method IsolatedTransaction(ctx: Ctx, opts: Option<TxOptions>, body: Body) returns (err: Outcome)
      modifies this
      ensures var r := RunIsolated(env, old(State()), ctx, opts, body); Did(old(trace), r) && err == r.out
      decreases body, 1, 0
    {
      hide Run, Finish;
      var id := NextTransactionID();
      var e := Begin(id, ctx.conn, opts);
      if e.Some? { return Err(e.value); }
      trace := trace + [BodyEvt(id, opts)];
      hide TxModel.Begin;
      err := RunBody(ctx.(conn := InTx(id, opts)), body);
      err := Deferred(id, err);
    }

    /** The deferred function of IsolatedTransaction. */
    method Deferred(id: nat, result: Outcome) returns (err: Outcome)
      modifies this
      ensures var r := Finish(env, old(State()), id, result); Did(old(trace), r) && err == r.out
    {
      err := result;
      if err.Panicked? {
        var e := Rollback(id);
        return;
      }
      if err.Err? {
        var e := Rollback(id);
        if e.Some? && !Is(e.value, TxDone) { err := Err(Wrap(e.value, err.error)); }
        return;
      }
      var e := Commit(id);
      if e.Some? { err := Err(e.value); }
    }

    /** db.SerializedTransaction */
    method SerializedTransaction(ctx: Ctx, body: Body) returns (err: Outcome)
      modifies this
      ensures var r := Run(env, old(State()), ctx, Serialized(body)); Did(old(trace), r) && err == r.out
      decreases body, 4, 0
    {
      if ctx.noTx {
        err := RunBody(ctx, body);
        return;
      }
      if Active(ctx.conn) {
        if !ctx.serialized { return Err(Error({NotSerialized})); }
        trace := trace + [SerialEvt(ctx.conn.id, ctx.conn.opts)];
        err := RunBody(ctx, body);
        return;
      }
      var inner := ctx.(serialized := true);
      var n := if env.retries < 0 then 0 else env.retries;
      err := Attempts(inner, body, n);
    }

    /** The retry loop. */
    method Attempts(inner: Ctx, body: Body, n: nat) returns (err: Outcome)
      modifies this
      ensures var r := RunAttempts(env, old(State()), inner, body, n, Error({})); Did(old(trace), r) && err == r.out
      decreases body, 3, 0
    {
      hide Run, RunTransaction;
      var last := Error({});
      ghost var spec := RunAttempts(env, State(), inner, body, n, last);
      for i := 0 to n
        invariant
          var rest := RunAttempts(env, State(), inner, body, n - i, last);
          spec.db == rest.db && spec.out == rest.out && old(trace) + spec.evts == trace + rest.evts
      {
        err := Transaction(inner, Some(TxOptions(LEVEL_SERIALIZABLE, false)), body);
        if err.Done? || err.Panicked? || !Is(err.error, SerializationFailure) { return; }
        last := err.error;
      }
      err := Err(Wrap(Error({RetriesExhausted}), last));
    }

    /** db.TransactionSavepoint */
    method TransactionSavepoint(ctx: Ctx, body: Body) returns (err: Outcome)
      modifies this
      ensures var r := Run(env, old(State()), ctx, SavepointTx(body)); Did(old(trace), r) && err == r.out
      decreases body, 4, 0
    {
      hide RunTransaction, RunIsolated, RunSavepoint, RunAttempts, RunPinned, RunNested, Finish;
      if ctx.noTx {
        err := RunBody(ctx, body);
        return;
      }
      if !Active(ctx.conn) {
        err := Transaction(ctx, None, body);
        return;
      }
      err := SavepointInTransaction(ctx, body);
    }

    method SavepointInTransaction(ctx: Ctx, body: Body) returns (err: Outcome)
      requires Active(ctx.conn)
      modifies this
      ensures var r := RunSavepoint(env, old(State()), ctx, body); Did(old(trace), r) && err == r.out
      decreases body, 1, 0
    {
      hide Run, TxModel.Release, TxModel.RollbackTo, TxModel.Savepoint;
      var savepoint := savepointCounter;
      savepointCounter := savepointCounter + 1;
      var e := ExecSavepoint(ctx.conn.id, savepoint);
      if e.Some? { return Err(e.value); }
      err := RunBody(ctx, body);
      if err.Panicked? { return; }
      if err.Err? {
        e := ExecRollbackTo(ctx.conn.id, savepoint);
        return;
      }
      e := ExecRelease(ctx.conn.id, savepoint);
      err := AsOutcome(e);
    }

    /** db.PinnedConn */
    method PinnedConn(ctx: Ctx, body: Body) returns (err: Outcome)
      modifies this
      ensures var r := Run(env, old(State()), ctx, TxModel.PinnedConn(body)); Did(old(trace), r) && err == r.out
      decreases body, 4, 0
    {
      hide RunTransaction, RunIsolated, RunSavepoint, RunAttempts, RunPinned, RunNested, Finish;
      if Active(ctx.conn) || ctx.conn.Pinned? {
        err := RunBody(ctx, body);
        return;
      }
      err := PinSession(ctx, body);
    }

    method PinSession(ctx: Ctx, body: Body) returns (err: Outcome)
      modifies this
      ensures var r := RunPinned(env, old(State()), ctx, body); Did(old(trace), r) && err == r.out
      decreases body, 1, 0
    {
      hide Run;
      if !env.canPin { return Err(Error({Unsupported})); }
      var e := Fault();
      if e.Some? { return Err(e.value); }
      var session := nextSession;
      nextSession := nextSession + 1;
      trace := trace + [PinEvt(session)];
      err := RunBody(ctx.(conn := Pinned(session)), body);
      trace := trace + [UnpinEvt(session, Busy(State(), session))];
      var closeErr := Fault();
      err := Join(err, AsOutcome(closeErr));
    }

    /** A caller. */
    method RunBody(ctx: Ctx, body: Body) returns (err: Outcome)
      modifies this
      ensures var r := Run(env, old(State()), ctx, body); Did(old(trace), r) && err == r.out
      decreases body, 0, 0
    {
      hide RunTransaction, RunIsolated, RunSavepoint, RunAttempts, RunPinned, RunNested;
      match body
      case Skip => err := Done;
      case ExecStmt(stmt) => var e := Exec(ctx.conn, stmt); err := AsOutcome(e);
      case DriverCall => var e := Fault(); err := AsOutcome(e);
      case Return(e) => err := Err(e);
      case Panic => err := Panicked;
      case Then(first, second) =>
        err := RunBody(ctx, first);
        if err.Done? { err := RunBody(ctx, second); }
      case Catch(b, handler) =>
        err := RunBody(ctx, b);
        if err.Err? { err := RunBody(ctx, handler); }
      case Recover(b, handler) =>
        err := RunBody(ctx, b);
        if err.Panicked? { err := RunBody(ctx, handler); }
      case Finally(b, cleanup) =>
        err := RunBody(ctx, b);
        var c := RunBody(ctx, cleanup);
        err := Join(err, c);
      case Choose(left, right) =>
        var goLeft := env.choose(clock);
        clock := clock + 1;
        if goLeft { err := RunBody(ctx, left); } else { err := RunBody(ctx, right); }
      case WithoutTransactions(b) => err := RunBody(ctx.(noTx := true), b);
      case Transaction(opts, b) =>
        if ctx.noTx { err := RunBody(ctx, b); } else { err := Transaction(ctx, opts, b); }
      case Isolated(opts, b) =>
        if ctx.noTx { err := RunBody(ctx, b); } else { err := IsolatedTransaction(ctx, opts, b); }
      case SavepointTx(b) => err := TransactionSavepoint(ctx, b);
      case Serialized(b) => err := SerializedTransaction(ctx, b);
      case PinnedConn(b) => err := PinnedConn(ctx, b);
    }
  }
}
