/** The nested transaction layer as a state machine.
  *
  * A database is a committed statement log and a table of open transactions, each with the
  * statements it has executed and its savepoint stack. Every driver call consumes one tick of
  * a clock, and the environment decides for each tick whether the call fails. Callers are
  * finite trees of nested helper calls. Run gives the exact state, outcome and event sequence
  * of any such tree; module Transactions has the statement-by-statement form.
  */
module TxModel {
  import opened Common
  import opened Sql

  // ---------- errors and options ----------

  /** What errors.Is can find in a wrapped error chain. */
  datatype Cause =
    | App(code: int) | Driver(code: int) | SerializationFailure | TxDone | Unsupported
    | OptionsTooStrict | NotSerialized | NoSuchSavepoint | RetriesExhausted

  datatype Error = Error(causes: set<Cause>)

  function Is(e: Error, c: Cause): bool { c in e.causes }

  function Wrap(e: Error, f: Error): Error { Error(e.causes + f.causes) }

  datatype Outcome = Done | Err(error: Error) | Panicked

  /** Isolation levels are ordered as in database/sql, with 0 for the default level. */
  datatype TxOptions = TxOptions(isolation: nat, readOnly: bool)

  const LEVEL_DEFAULT: nat := 0
  const LEVEL_SERIALIZABLE: nat := 6

  // ---------- the database machine ----------

  /** The three kinds of connection a context can hold. */
  datatype Conn = Pool | Pinned(session: nat) | InTx(id: nat, opts: Option<TxOptions>)

  /** A savepoint remembers which drawn name it carries and the log at its creation. */
  datatype Save = Save(draw: nat, log: seq<Stmt>)

  datatype Tx = Tx(session: nat, log: seq<Stmt>, saves: seq<Save>)

  datatype Db = Db(
    committed: seq<Stmt>,
    txs: map<nat, Tx>,
    lastTx: nat,
    nextSession: nat,
    nextDraw: nat,
    clock: nat)

  datatype Event =
    | BeginEvt(id: nat, session: nat, parent: Conn, opts: Option<TxOptions>)
    | BodyEvt(id: nat, requested: Option<TxOptions>)
    | SerialEvt(id: nat, opts: Option<TxOptions>)    // a nested serialized call runs its body in transaction id
    | CommitEvt(id: nat, log: seq<Stmt>, ok: bool)   // log: what the transaction had pending
    | RollbackEvt(id: nat, ok: bool)
    | ExecEvt(session: nat, stmt: Stmt, auto: bool, ok: bool)   // auto: outside a transaction
    | PinEvt(session: nat)
    | UnpinEvt(session: nat, busy: bool)

  /** What the outside world decides: whether the driver call at a tick fails, which way a
    * data dependent branch goes, and the savepoint names in the order they are drawn.
    */
  datatype Env = Env(
    fault: nat -> Option<Error>,
    choose: nat -> bool,
    name: nat -> string,
    retries: int,
    canPin: bool,
    defaultLevel: nat)

  /** The part of a context.Context that the helpers read. */
  datatype Ctx = Ctx(conn: Conn, noTx: bool, serialized: bool)

  function TransactionId(conn: Conn): nat { if conn.InTx? then conn.id else 0 }

  predicate Active(conn: Conn) { TransactionId(conn) != 0 }

  datatype Res = Res(db: Db, out: Outcome, evts: seq<Event>)

  datatype Call = Call(db: Db, err: Option<Error>, evts: seq<Event>)

  function Tick(db: Db): Db { db.(clock := db.clock + 1) }

  /** Connection.Begin on success and on failure; a transaction begun from a transaction
    * takes a session from the pool, one begun from a pinned connection stays on its session.
    */
  function Begin(env: Env, db: Db, id: nat, conn: Conn, opts: Option<TxOptions>): Call {
    var fault := env.fault(db.clock);
    if fault.Some? then Call(Tick(db), fault, [])
    else
      var session := if conn.Pinned? then conn.session else db.nextSession;
      var db' := Tick(db).(
        txs := db.txs[id := Tx(session, [], [])],
        nextSession := if conn.Pinned? then db.nextSession else db.nextSession + 1);
      Call(db', None, [BeginEvt(id, session, conn, opts)])
  }

  /** sql.Tx.Commit: a failed commit applies nothing, and the transaction is over either way. */
  function Commit(env: Env, db: Db, id: nat): Call {
    if id !in db.txs then Call(Tick(db), Some(Error({TxDone})), [CommitEvt(id, [], false)])
    else
      var fault := env.fault(db.clock);
      Call(Tick(db).(
             txs := db.txs - {id},
             committed := if fault.Some? then db.committed else db.committed + db.txs[id].log),
           fault,
           [CommitEvt(id, db.txs[id].log, fault.None?)])
  }

  function Rollback(env: Env, db: Db, id: nat): Call {
    if id !in db.txs then Call(Tick(db), Some(Error({TxDone})), [RollbackEvt(id, false)])
    else
      var fault := env.fault(db.clock);
      Call(Tick(db).(txs := db.txs - {id}), fault, [RollbackEvt(id, fault.None?)])
  }

  /** Executing a statement: outside a transaction it takes effect at once. */
  function Exec(env: Env, db: Db, conn: Conn, stmt: Stmt): Call {
    var fault := env.fault(db.clock);
    match conn
    case Pool =>
      Call(Tick(db).(nextSession := db.nextSession + 1,
                     committed := if fault.Some? then db.committed else db.committed + [stmt]),
           fault, [ExecEvt(db.nextSession, stmt, true, fault.None?)])
    case Pinned(s) =>
      Call(Tick(db).(committed := if fault.Some? then db.committed else db.committed + [stmt]),
           fault, [ExecEvt(s, stmt, true, fault.None?)])
    case InTx(id, _) =>
      if id !in db.txs then Call(Tick(db), Some(Error({TxDone})), [])
      else
        var tx := db.txs[id];
        Call(Tick(db).(txs := if fault.Some? then db.txs
                              else db.txs[id := tx.(log := tx.log + [stmt])]),
             fault, [ExecEvt(tx.session, stmt, false, fault.None?)])
  }

  // ---------- savepoint statements ----------

  /** Position of the most recent savepoint with the given name, or -1. */
  function FindSave(env: Env, saves: seq<Save>, name: string): (i: int)
    ensures -1 <= i < |saves|
  {
    if saves == [] then -1
    else if env.name(saves[|saves| - 1].draw) == name then |saves| - 1
    else FindSave(env, saves[..|saves| - 1], name)
  }

  function Savepoint(env: Env, db: Db, id: nat, draw: nat): Call {
    var fault := env.fault(db.clock);
    if id !in db.txs then Call(Tick(db), Some(Error({TxDone})), [])
    else if fault.Some? then Call(Tick(db), fault, [])
    else
      var tx := db.txs[id];
      Call(Tick(db).(txs := db.txs[id := tx.(saves := tx.saves + [Save(draw, tx.log)])]), None, [])
  }

  /** `rollback to`: restores the log, drops later savepoints and keeps the named one. */
  function RollbackTo(env: Env, db: Db, id: nat, draw: nat): Call {
    var fault := env.fault(db.clock);
    if id !in db.txs then Call(Tick(db), Some(Error({TxDone})), [])
    else if fault.Some? then Call(Tick(db), fault, [])
    else
      var tx := db.txs[id];
      var i := FindSave(env, tx.saves, env.name(draw));
      if i < 0 then Call(Tick(db), Some(Error({NoSuchSavepoint})), [])
      else Call(Tick(db).(txs := db.txs[id := tx.(log := tx.saves[i].log, saves := tx.saves[..i + 1])]), None, [])
  }

  /** `release savepoint`: drops the named savepoint and all later ones, keeps the data. */
  function Release(env: Env, db: Db, id: nat, draw: nat): Call {
    var fault := env.fault(db.clock);
    if id !in db.txs then Call(Tick(db), Some(Error({TxDone})), [])
    else if fault.Some? then Call(Tick(db), fault, [])
    else
      var tx := db.txs[id];
      var i := FindSave(env, tx.saves, env.name(draw));
      if i < 0 then Call(Tick(db), Some(Error({NoSuchSavepoint})), [])
      else Call(Tick(db).(txs := db.txs[id := tx.(saves := tx.saves[..i])]), None, [])
  }

  // ---------- callers ----------

  /** A caller of the helpers: any finite nesting of helper calls, statements, error handling
    * and panics. Choose stands for a branch on data read from the database.
    */
  datatype Body =
    | Skip
    | ExecStmt(stmt: Stmt)
    | DriverCall                                   // prepare, close or query: may fail, changes no data
    | Return(error: Error)
    | Panic
    | Then(first: Body, second: Body)              // second runs if first returned nil
    | Catch(body: Body, handler: Body)             // handler runs if body returned an error
    | Recover(body: Body, handler: Body)           // handler runs if body panicked
    | Finally(body: Body, cleanup: Body)           // deferred cleanup, errors joined
    | Choose(left: Body, right: Body)
    | WithoutTransactions(body: Body)
    | Transaction(opts: Option<TxOptions>, body: Body)
    | Isolated(opts: Option<TxOptions>, body: Body)
    | SavepointTx(body: Body)
    | Serialized(body: Body)
    | PinnedConn(body: Body)

  /** CheckTxOptionsCompatibility after resolving nil options and the default level. */
  function Level(opts: Option<TxOptions>, default: nat): nat {
    if opts.None? || opts.value.isolation == LEVEL_DEFAULT then default else opts.value.isolation
  }

  predicate ReadOnly(opts: Option<TxOptions>) { opts.Some? && opts.value.readOnly }

  function CheckOptions(parent: Option<TxOptions>, child: Option<TxOptions>, default: nat): Option<Error> {
    if ReadOnly(parent) && !ReadOnly(child) then Some(Error({OptionsTooStrict}))
    else if Level(parent, default) < Level(child, default) then Some(Error({OptionsTooStrict}))
    else None
  }

  function AsOutcome(err: Option<Error>): Outcome { if err.Some? then Err(err.value) else Done }

  /** errors.Join for a deferred cleanup: a panic wins over errors, errors are merged. */
  function Join(a: Outcome, b: Outcome): Outcome {
    if a.Panicked? || b.Panicked? then Panicked
    else if a.Done? then b
    else if b.Done? then a
    else Err(Wrap(a.error, b.error))
  }

  function Run(env: Env, db: Db, ctx: Ctx, body: Body): Res
    decreases body, 0, 0
  {
    match body
    case Skip => Res(db, Done, [])
    case ExecStmt(stmt) =>
      var c := Exec(env, db, ctx.conn, stmt);
      Res(c.db, AsOutcome(c.err), c.evts)
    case DriverCall => Res(Tick(db), AsOutcome(env.fault(db.clock)), [])
    case Return(e) => Res(db, Err(e), [])
    case Panic => Res(db, Panicked, [])
    case Then(first, second) =>
      var r := Run(env, db, ctx, first);
      if r.out.Done? then After(r, Run(env, r.db, ctx, second)) else r
    case Catch(b, handler) =>
      var r := Run(env, db, ctx, b);
      if r.out.Err? then After(r, Run(env, r.db, ctx, handler)) else r
    case Recover(b, handler) =>
      var r := Run(env, db, ctx, b);
      if r.out.Panicked? then After(r, Run(env, r.db, ctx, handler)) else r
    case Finally(b, cleanup) =>
      var r := Run(env, db, ctx, b);
      var q := Run(env, r.db, ctx, cleanup);
      Res(q.db, Join(r.out, q.out), r.evts + q.evts)
    case Choose(left, right) =>
      if env.choose(db.clock) then Run(env, Tick(db), ctx, left) else Run(env, Tick(db), ctx, right)
    case WithoutTransactions(b) => Run(env, db, ctx.(noTx := true), b)
    case Transaction(opts, b) =>
      if ctx.noTx then Run(env, db, ctx, b) else RunTransaction(env, db, ctx, opts, b)
    case Isolated(opts, b) =>
      if ctx.noTx then Run(env, db, ctx, b) else RunIsolated(env, db, ctx, opts, b)
    case SavepointTx(b) =>
      if ctx.noTx then Run(env, db, ctx, b)
      else if !Active(ctx.conn) then RunTransaction(env, db, ctx, None, b)
      else RunSavepoint(env, db, ctx, b)
    case Serialized(b) =>
      if ctx.noTx then Run(env, db, ctx, b)
      else if Active(ctx.conn) then
        if !ctx.serialized then Res(db, Err(Error({NotSerialized})), []) else RunNested(env, db, ctx, b)
      else RunAttempts(env, db, ctx.(serialized := true), b, if env.retries < 0 then 0 else env.retries, Error({}))
    case PinnedConn(b) =>
      if Active(ctx.conn) || ctx.conn.Pinned? then Run(env, db, ctx, b)
      else RunPinned(env, db, ctx, b)
  }

  function After(r: Res, q: Res): Res { Res(q.db, q.out, r.evts + q.evts) }

  /** SerializedTransaction inside a transaction that a context with the serialized mark holds. */
  function RunNested(env: Env, db: Db, ctx: Ctx, body: Body): Res
    requires Active(ctx.conn)
    decreases body, 1, 0
  {
    var r := Run(env, db, ctx, body);
    Res(r.db, r.out, [SerialEvt(ctx.conn.id, ctx.conn.opts)] + r.evts)
  }

  /** sqldb.Transaction: joins an active parent if its options suffice, else begins a root. */
  function RunTransaction(env: Env, db: Db, ctx: Ctx, opts: Option<TxOptions>, body: Body): Res
    decreases body, 2, 0
  {
    if Active(ctx.conn) then
      var err := CheckOptions(ctx.conn.opts, opts, env.defaultLevel);
      if err.Some? then Res(db, Err(err.value), [])
      else
        var r := Run(env, db, ctx, body);
        Res(r.db, r.out, [BodyEvt(ctx.conn.id, opts)] + r.evts)
    else RunIsolated(env, db, ctx, opts, body)
  }

  /** sqldb.IsolatedTransaction up to the deferred function. */
  function RunIsolated(env: Env, db: Db, ctx: Ctx, opts: Option<TxOptions>, body: Body): Res
    decreases body, 1, 0
  {
    var id := db.lastTx + 1;
    var b := Begin(env, db.(lastTx := id), id, ctx.conn, opts);
    if b.err.Some? then Res(b.db, Err(b.err.value), b.evts)
    else
      var r := Run(env, b.db, ctx.(conn := InTx(id, opts)), body);
      var f := Finish(env, r.db, id, r.out);
      Res(f.db, f.out, b.evts + [BodyEvt(id, opts)] + r.evts + f.evts)
  }

  /** The deferred function of IsolatedTransaction. */
  function Finish(env: Env, db: Db, id: nat, out: Outcome): Res {
    match out
    case Panicked =>
      var c := Rollback(env, db, id);
      Res(c.db, Panicked, c.evts)
    case Err(e) =>
      var c := Rollback(env, db, id);
      Res(c.db, Err(if c.err.Some? && !Is(c.err.value, TxDone) then Wrap(c.err.value, e) else e), c.evts)
    case Done =>
      var c := Commit(env, db, id);
      Res(c.db, AsOutcome(c.err), c.evts)
  }

  /** TransactionSavepoint within an active transaction. */
  function RunSavepoint(env: Env, db: Db, ctx: Ctx, body: Body): Res
    decreases body, 1, 0
  {
    var draw := db.nextDraw;
    var id := TransactionId(ctx.conn);
    var s := Savepoint(env, db.(nextDraw := draw + 1), id, draw);
    if s.err.Some? then Res(s.db, Err(s.err.value), s.evts)
    else
      var r := Run(env, s.db, ctx, body);
      match r.out
      case Panicked => r
      case Err(e) =>
        // a rollback error is only printed into the message, so the error chain stays that of e
        var c := RollbackTo(env, r.db, id, draw);
        Res(c.db, Err(e), r.evts)
      case Done =>
        var c := Release(env, r.db, id, draw);
        Res(c.db, AsOutcome(c.err), r.evts)
  }

  /** The retry loop of SerializedTransaction with n attempts left; last is the latest error. */
  function RunAttempts(env: Env, db: Db, ctx: Ctx, body: Body, n: nat, last: Error): Res
    decreases body, 3, n
  {
    if n == 0 then Res(db, Err(Wrap(Error({RetriesExhausted}), last)), [])
    else
      var r := RunTransaction(env, db, ctx, Some(TxOptions(LEVEL_SERIALIZABLE, false)), body);
      if r.out.Err? && Is(r.out.error, SerializationFailure)
      then After(r, RunAttempts(env, r.db, ctx, body, n - 1, r.out.error))
      else r
  }

  /** True if some open transaction runs on the session. */
  predicate Busy(db: Db, session: nat) {
    exists id :: id in db.txs && db.txs[id].session == session
  }

  /** PinnedConn outside a transaction and on an unpinned connection. */
  function RunPinned(env: Env, db: Db, ctx: Ctx, body: Body): Res
    decreases body, 1, 0
  {
    if !env.canPin then Res(db, Err(Error({Unsupported})), [])
    else
      var fault := env.fault(db.clock);
      if fault.Some? then Res(Tick(db), Err(fault.value), [])
      else
        var s := db.nextSession;
        var r := Run(env, Tick(db).(nextSession := s + 1), ctx.(conn := Pinned(s)), body);
        var closeErr := env.fault(r.db.clock);
        Res(Tick(r.db), Join(r.out, AsOutcome(closeErr)),
            [PinEvt(s)] + r.evts + [UnpinEvt(s, Busy(r.db, s))])
  }
}
