/** A compositional meaning for caller trees that knows no transaction ids, no transaction
  * table, no savepoint names and no savepoint stacks: it only says which statements a tree
  * makes durable and which it leaves pending in the enclosing transaction.
  */
module TxSemantics {
  import opened Common
  import opened Sql
  import opened TxModel

  /** What a tree sees of its context. */
  datatype View = View(active: bool, opts: Option<TxOptions>, pinned: bool, noTx: bool, serialized: bool)

  function ViewOf(ctx: Ctx): View {
    View(Active(ctx.conn), if ctx.conn.InTx? then ctx.conn.opts else None, ctx.conn.Pinned?, ctx.noTx, ctx.serialized)
  }

  datatype Meaning = Meaning(clock: nat, out: Outcome, durable: seq<Stmt>, pending: seq<Stmt>)

  function Sequence(m: Meaning, n: Meaning): Meaning {
    Meaning(n.clock, n.out, m.durable + n.durable, m.pending + n.pending)
  }

  function Mean(env: Env, clock: nat, v: View, body: Body): Meaning
    decreases body, 0, 0
  {
    match body
    case Skip => Meaning(clock, Done, [], [])
    case ExecStmt(stmt) =>
      var fault := env.fault(clock);
      if fault.Some? then Meaning(clock + 1, Err(fault.value), [], [])
      else if v.active then Meaning(clock + 1, Done, [], [stmt])
      else Meaning(clock + 1, Done, [stmt], [])
    case DriverCall => Meaning(clock + 1, AsOutcome(env.fault(clock)), [], [])
    case Return(e) => Meaning(clock, Err(e), [], [])
    case Panic => Meaning(clock, Panicked, [], [])
    case Then(first, second) =>
      var m := Mean(env, clock, v, first);
      if m.out.Done? then Sequence(m, Mean(env, m.clock, v, second)) else m
    case Catch(b, handler) =>
      var m := Mean(env, clock, v, b);
      if m.out.Err? then Sequence(m, Mean(env, m.clock, v, handler)) else m
    case Recover(b, handler) =>
      var m := Mean(env, clock, v, b);
      if m.out.Panicked? then Sequence(m, Mean(env, m.clock, v, handler)) else m
    case Finally(b, cleanup) =>
      var m := Mean(env, clock, v, b);
      var n := Mean(env, m.clock, v, cleanup);
      Sequence(m, n).(out := Join(m.out, n.out))
    case Choose(left, right) =>
      if env.choose(clock) then Mean(env, clock + 1, v, left) else Mean(env, clock + 1, v, right)
    case WithoutTransactions(b) => Mean(env, clock, v.(noTx := true), b)
    case Transaction(opts, b) =>
      if v.noTx then Mean(env, clock, v, b) else MeanTransaction(env, clock, v, opts, b)
    case Isolated(opts, b) =>
      if v.noTx then Mean(env, clock, v, b) else MeanRoot(env, clock, v, opts, b)
    case SavepointTx(b) =>
      if v.noTx then Mean(env, clock, v, b)
      else if !v.active then MeanTransaction(env, clock, v, None, b)
      else MeanSavepoint(env, clock, v, b)
    case Serialized(b) =>
      if v.noTx then Mean(env, clock, v, b)
      else if v.active then
        if !v.serialized then Meaning(clock, Err(Error({NotSerialized})), [], []) else Mean(env, clock, v, b)
      else MeanAttempts(env, clock, v.(serialized := true), b, if env.retries < 0 then 0 else env.retries, Error({}))
    case PinnedConn(b) =>
      if v.active || v.pinned then Mean(env, clock, v, b) else MeanPinned(env, clock, v, b)
  }

  function MeanTransaction(env: Env, clock: nat, v: View, opts: Option<TxOptions>, body: Body): Meaning
    decreases body, 2, 0
  {
    if v.active then
      var err := CheckOptions(v.opts, opts, env.defaultLevel);
      if err.Some? then Meaning(clock, Err(err.value), [], []) else Mean(env, clock, v, body)
    else MeanRoot(env, clock, v, opts, body)
  }

  /** All or nothing: the pending statements of the body become durable exactly if the body
    * returned nil and the commit succeeded.
    */
  function MeanRoot(env: Env, clock: nat, v: View, opts: Option<TxOptions>, body: Body): Meaning
    decreases body, 1, 0
  {
    var fault := env.fault(clock);
    if fault.Some? then Meaning(clock + 1, Err(fault.value), [], [])
    else
      RootMeans(env, Mean(env, clock + 1, v.(active := true, opts := opts, pinned := false), body))
  }

  function RootMeans(env: Env, m: Meaning): Meaning {
    var end := env.fault(m.clock);
    match m.out
    case Panicked => Meaning(m.clock + 1, Panicked, m.durable, [])
    case Err(e) =>
      Meaning(m.clock + 1, Err(if end.Some? && !Is(end.value, TxDone) then Wrap(end.value, e) else e), m.durable, [])
    case Done =>
      if end.Some? then Meaning(m.clock + 1, Err(end.value), m.durable, [])
      else Meaning(m.clock + 1, Done, m.durable + m.pending, [])
  }

  /** A savepoint drops the pending statements of its body exactly if the body returned an
    * error and the rollback to the savepoint succeeded.
    */
  function MeanSavepoint(env: Env, clock: nat, v: View, body: Body): Meaning
    decreases body, 1, 0
  {
    var fault := env.fault(clock);
    if fault.Some? then Meaning(clock + 1, Err(fault.value), [], [])
    else
      var m := Mean(env, clock + 1, v, body);
      match m.out
      case Panicked => m
      case Err(e) => Meaning(m.clock + 1, Err(e), m.durable, if env.fault(m.clock).Some? then m.pending else [])
      case Done => Meaning(m.clock + 1, AsOutcome(env.fault(m.clock)), m.durable, m.pending)
  }

  function MeanAttempts(env: Env, clock: nat, v: View, body: Body, n: nat, last: Error): Meaning
    decreases body, 3, n
  {
    if n == 0 then Meaning(clock, Err(Wrap(Error({RetriesExhausted}), last)), [], [])
    else
      var m := MeanTransaction(env, clock, v, Some(TxOptions(LEVEL_SERIALIZABLE, false)), body);
      if m.out.Err? && Is(m.out.error, SerializationFailure)
      then Sequence(m, MeanAttempts(env, m.clock, v, body, n - 1, m.out.error))
      else m
  }

  function MeanPinned(env: Env, clock: nat, v: View, body: Body): Meaning
    decreases body, 1, 0
  {
    if !env.canPin then Meaning(clock, Err(Error({Unsupported})), [], [])
    else
      var fault := env.fault(clock);
      if fault.Some? then Meaning(clock + 1, Err(fault.value), [], [])
      else
        var m := Mean(env, clock + 1, v.(pinned := true), body);
        Meaning(m.clock + 1, Join(m.out, AsOutcome(env.fault(m.clock))), m.durable, m.pending)
  }
}
