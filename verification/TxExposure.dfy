/** When every nested serialized body runs in a serializable transaction: a condition on the tree alone. */
module TxExposure {
  import opened Common
  import opened Sql
  import opened TxModel
  import opened TxSemantics
  import opened TxRefinement
  import opened TxTraces
  import opened TxTheorems

  /** The level of the options, or the driver's default where they leave it open, is below serializable. */
  predicate Low(opts: Option<TxOptions>, default: nat) {
    (if opts.Some? && opts.value.isolation != 0 then opts.value.isolation else default) < LEVEL_SERIALIZABLE
  }

  /** A nested serialized call ran its body in a transaction that is not serializable. */
  predicate Lost(evts: seq<Event>, default: nat) {
    exists e :: e in evts && e.SerialEvt? && Low(e.opts, default)
  }

  // ---------- how a tree can end, and what it can expose ----------

  datatype Kind = Nil | Failed | Panics

  function KindOf(out: Outcome): Kind {
    match out
    case Done => Nil
    case Err(_) => Failed
    case Panicked => Panics
  }

  function JoinKind(a: Kind, b: Kind): Kind {
    if a.Panics? || b.Panics? then Panics else if a.Nil? then b else if b.Nil? then a else Failed
  }

  function InRoot(v: View, opts: Option<TxOptions>): View { v.(active := true, opts := opts, pinned := false) }

  /** A helper that makes a driver call of its own before it runs the body. */
  datatype Wrapper = Root(opts: Option<TxOptions>) | Restorable | Pin

  function Inside(w: Wrapper, v: View): View {
    match w
    case Root(opts) => InRoot(v, opts)
    case Restorable => v
    case Pin => v.(pinned := true)
  }

  /** What the context alone decides about a helper call: it runs the body as it is, refuses it, or goes through one
    * of the wrappers.
    */
  datatype Route = Pass(view: View, body: Body) | Refuse | Through(wrapper: Wrapper, view: View, body: Body)

  predicate Helper(body: Body) {
    body.WithoutTransactions? || body.Transaction? || body.Isolated? || body.SavepointTx? || body.Serialized? || body.PinnedConn?
  }

  function RouteOf(v: View, body: Body, default: nat): (r: Route)
    requires Helper(body)
    ensures !r.Refuse? ==> r.body < body
  {
    match body
    case WithoutTransactions(b) => Pass(v.(noTx := true), b)
    case Transaction(opts, b) =>
      if v.noTx then Pass(v, b)
      else if !v.active then Through(Root(opts), v, b)
      else if CheckOptions(v.opts, opts, default).Some? then Refuse
      else Pass(v, b)
    case Isolated(opts, b) => if v.noTx then Pass(v, b) else Through(Root(opts), v, b)
    case SavepointTx(b) => if v.noTx then Pass(v, b) else if v.active then Through(Restorable, v, b) else Through(Root(None), v, b)
    case Serialized(b) =>
      if v.noTx then Pass(v, b)
      else if v.active then if v.serialized then Pass(v, b) else Refuse
      else Through(Root(SERIALIZABLE), v.(serialized := true), b)
    case PinnedConn(b) => if v.active || v.pinned then Pass(v, b) else Through(Pin, v, b)
  }

  /** The ways in which the tree can end, over all failures and branches. */
  function Endings(v: View, body: Body, default: nat): set<Kind>
    decreases body
  {
    if Helper(body) then
      match RouteOf(v, body, default)
      case Pass(u, b) => Endings(u, b, default)
      case Refuse => {Failed}
      case Through(w, u, b) => {Failed} + Endings(Inside(w, u), b, default)
    else
      match body
      case Skip => {Nil}
      case ExecStmt(_) => {Nil, Failed}
      case DriverCall => {Nil, Failed}
      case Return(_) => {Failed}
      case Panic => {Panics}
      case Then(a, b) => Continued(Endings(v, a, default), Nil, Endings(v, b, default))
      case Catch(a, b) => Continued(Endings(v, a, default), Failed, Endings(v, b, default))
      case Recover(a, b) => Continued(Endings(v, a, default), Panics, Endings(v, b, default))
      case Finally(a, b) => set x, y | x in Endings(v, a, default) && y in Endings(v, b, default) :: JoinKind(x, y)
      case Choose(a, b) => Endings(v, a, default) + Endings(v, b, default)
      case _ => {}
  }

  function Continued(first: set<Kind>, on: Kind, second: set<Kind>): set<Kind> {
    if on in first then (first - {on}) + second else first
  }

  /** A nested serialized call in a transaction whose options are below serializable. */
  predicate Weak(v: View, body: Body, default: nat) {
    body.Serialized? && !v.noTx && v.active && v.serialized && Low(v.opts, default)
  }

  /** Such a call can be reached. */
  predicate Exposes(v: View, body: Body, default: nat)
    decreases body
  {
    if Helper(body) then
      Weak(v, body, default) ||
      match RouteOf(v, body, default)
      case Pass(u, b) => Exposes(u, b, default)
      case Refuse => false
      case Through(w, u, b) => Exposes(Inside(w, u), b, default)
    else
      match body
      case Then(a, b) => Exposes(v, a, default) || (Nil in Endings(v, a, default) && Exposes(v, b, default))
      case Catch(a, b) => Exposes(v, a, default) || (Failed in Endings(v, a, default) && Exposes(v, b, default))
      case Recover(a, b) => Exposes(v, a, default) || (Panics in Endings(v, a, default) && Exposes(v, b, default))
      case Finally(a, b) => Exposes(v, a, default) || Exposes(v, b, default)
      case Choose(a, b) => Exposes(v, a, default) || Exposes(v, b, default)
      case _ => false
  }

  // ---------- the same for one environment ----------

  /** Under the environment, a nested serialized call runs its body below serializable. */
  predicate Hits(env: Env, clock: nat, v: View, body: Body)
    decreases body, 0, 0
  {
    match body
    case Then(a, b) =>
      var m := Mean(env, clock, v, a);
      Hits(env, clock, v, a) || (m.out.Done? && Hits(env, m.clock, v, b))
    case Catch(a, b) =>
      var m := Mean(env, clock, v, a);
      Hits(env, clock, v, a) || (m.out.Err? && Hits(env, m.clock, v, b))
    case Recover(a, b) =>
      var m := Mean(env, clock, v, a);
      Hits(env, clock, v, a) || (m.out.Panicked? && Hits(env, m.clock, v, b))
    case Finally(a, b) => Hits(env, clock, v, a) || Hits(env, Mean(env, clock, v, a).clock, v, b)
    case Choose(a, b) => if env.choose(clock) then Hits(env, clock + 1, v, a) else Hits(env, clock + 1, v, b)
    case WithoutTransactions(b) => Hits(env, clock, v.(noTx := true), b)
    case Transaction(opts, b) => if v.noTx then Hits(env, clock, v, b) else HitsTransaction(env, clock, v, opts, b)
    case Isolated(opts, b) => if v.noTx then Hits(env, clock, v, b) else HitsNext(env, clock, InRoot(v, opts), b)
    case SavepointTx(b) =>
      if v.noTx then Hits(env, clock, v, b)
      else if v.active then HitsNext(env, clock, v, b)
      else HitsTransaction(env, clock, v, None, b)
    case Serialized(b) =>
      if v.noTx then Hits(env, clock, v, b)
      else if v.active then v.serialized && (Low(v.opts, env.defaultLevel) || Hits(env, clock, v, b))
      else HitsAttempts(env, clock, v.(serialized := true), b, if env.retries < 0 then 0 else env.retries)
    case PinnedConn(b) =>
      if v.active || v.pinned then Hits(env, clock, v, b)
      else env.canPin && HitsNext(env, clock, v.(pinned := true), b)
    case _ => false
  }

  /** The body starts if the driver call before it does not fail. */
  predicate HitsNext(env: Env, clock: nat, v: View, body: Body)
    decreases body, 1, 0
  {
    env.fault(clock).None? && Hits(env, clock + 1, v, body)
  }

  predicate HitsTransaction(env: Env, clock: nat, v: View, opts: Option<TxOptions>, body: Body)
    decreases body, 2, 0
  {
    if v.active then CheckOptions(v.opts, opts, env.defaultLevel).None? && Hits(env, clock, v, body)
    else HitsNext(env, clock, InRoot(v, opts), body)
  }

  predicate HitsAttempts(env: Env, clock: nat, v: View, body: Body, n: nat)
    decreases body, 3, n
  {
    n > 0 &&
    (HitsTransaction(env, clock, v, SERIALIZABLE, body) ||
     (var m := MeanTransaction(env, clock, v, SERIALIZABLE, body);
      m.out.Err? && Is(m.out.error, SerializationFailure) && HitsAttempts(env, m.clock, v, body, n - 1)))
  }

  // ---------- Hits is what the events show ----------

  lemma LostConcat(a: seq<Event>, b: seq<Event>, default: nat)
    ensures Lost(a + b, default) <==> Lost(a, default) || Lost(b, default)
  {
    if Lost(a, default) {
      var e :| e in a && e.SerialEvt? && Low(e.opts, default);
      assert e in a + b;
    }
    if Lost(b, default) {
      var e :| e in b && e.SerialEvt? && Low(e.opts, default);
      assert e in a + b;
    }
  }

  lemma LostOne(e: Event, default: nat)
    ensures Lost([e], default) <==> e.SerialEvt? && Low(e.opts, default)
  {
    assert e in [e];
  }

  lemma {:induction false} LostIffHits(env: Env, db: Db, ctx: Ctx, body: Body)
    requires FreshNames(env) && WellFormed(db) && Usable(db, ctx.conn)
    ensures Lost(Run(env, db, ctx, body).evts, env.defaultLevel) <==> Hits(env, db.clock, ViewOf(ctx), body)
    decreases body, 0, 0
  {
    hide Lost, WellFormed, Usable, AgreesOn, Mean, RunTransaction, RunIsolated, RunSavepoint, RunAttempts, RunPinned, Exec;
    hide HitsTransaction, HitsAttempts, HitsNext;
    assert !Lost([], env.defaultLevel) by { NoneLost(env.defaultLevel); }
    Ticks(db, ctx.conn);
    match body
    case ExecStmt(stmt) => ExecLost(env, db, ctx.conn, stmt);
    case Then(a, b) => LostIffHits(env, db, ctx, a); LostNext(env, db, ctx, a, b);
    case Catch(a, b) => LostIffHits(env, db, ctx, a); LostNext(env, db, ctx, a, b);
    case Recover(a, b) => LostIffHits(env, db, ctx, a); LostNext(env, db, ctx, a, b);
    case Finally(a, b) => LostIffHits(env, db, ctx, a); LostNext(env, db, ctx, a, b);
    case Choose(a, b) => LostIffHits(env, Tick(db), ctx, a); LostIffHits(env, Tick(db), ctx, b);
    case WithoutTransactions(b) => LostIffHits(env, db, ctx.(noTx := true), b);
    case Transaction(opts, b) => LostIffHits(env, db, ctx, b); LostTransaction(env, db, ctx, opts, b);
    case Isolated(opts, b) => LostIffHits(env, db, ctx, b); LostRoot(env, db, ctx, opts, b);
    case SavepointTx(b) =>
      LostIffHits(env, db, ctx, b);
      if Active(ctx.conn) { LostSavepoint(env, db, ctx, b); } else { LostTransaction(env, db, ctx, None, b); }
    case Serialized(b) =>
      LostIffHits(env, db, ctx, b);
      if Active(ctx.conn) {
        LostOne(SerialEvt(ctx.conn.id, ctx.conn.opts), env.defaultLevel);
        LostConcat([SerialEvt(ctx.conn.id, ctx.conn.opts)], Run(env, db, ctx, b).evts, env.defaultLevel);
      } else {
        LostAttempts(env, db, ctx.(serialized := true), b, if env.retries < 0 then 0 else env.retries, Error({}));
      }
    case PinnedConn(b) =>
      LostIffHits(env, db, ctx, b);
      if !Active(ctx.conn) && !ctx.conn.Pinned? { LostPinned(env, db, ctx, b); }
    case _ =>
  }

  lemma NoneLost(default: nat)
    ensures !Lost([], default)
  {
  }

  lemma Ticks(db: Db, conn: Conn)
    requires WellFormed(db) && Usable(db, conn)
    ensures WellFormed(Tick(db)) && Usable(Tick(db), conn)
  {
  }

  lemma ExecLost(env: Env, db: Db, conn: Conn, stmt: Stmt)
    ensures !Lost(Exec(env, db, conn, stmt).evts, env.defaultLevel)
  {
  }

  /** The second of two parts starts where the meaning of the first one ends. */
  lemma {:induction false} LostNext(env: Env, db: Db, ctx: Ctx, a: Body, b: Body)
    requires FreshNames(env) && WellFormed(db) && Usable(db, ctx.conn)
    ensures
      var r, m := Run(env, db, ctx, a), Mean(env, db.clock, ViewOf(ctx), a);
      && r.out == m.out
      && (Lost(r.evts + Run(env, r.db, ctx, b).evts, env.defaultLevel)
          <==> Lost(r.evts, env.defaultLevel) || Hits(env, m.clock, ViewOf(ctx), b))
    decreases b, 4, 0
  {
    hide *;
    Refines(env, db, ctx, a);
    var r, m := Run(env, db, ctx, a), Mean(env, db.clock, ViewOf(ctx), a);
    Usables(db, ctx.conn, r, m);
    LostIffHits(env, r.db, ctx, b);
    LostConcat(r.evts, Run(env, r.db, ctx, b).evts, env.defaultLevel);
  }

  lemma {:induction false} LostTransaction(env: Env, db: Db, ctx: Ctx, opts: Option<TxOptions>, body: Body)
    requires FreshNames(env) && WellFormed(db) && Usable(db, ctx.conn)
    ensures Lost(RunTransaction(env, db, ctx, opts, body).evts, env.defaultLevel)
      <==> HitsTransaction(env, db.clock, ViewOf(ctx), opts, body)
    decreases body, 2, 0
  {
    hide Lost, Run, RunIsolated, HitsNext, Hits, WellFormed, Usable;
    NoneLost(env.defaultLevel);
    if Active(ctx.conn) {
      LostIffHits(env, db, ctx, body);
      LostOne(BodyEvt(ctx.conn.id, opts), env.defaultLevel);
      LostConcat([BodyEvt(ctx.conn.id, opts)], Run(env, db, ctx, body).evts, env.defaultLevel);
    } else {
      LostRoot(env, db, ctx, opts, body);
    }
  }

  lemma {:induction false} LostRoot(env: Env, db: Db, ctx: Ctx, opts: Option<TxOptions>, body: Body)
    requires FreshNames(env) && WellFormed(db) && Usable(db, ctx.conn)
    ensures Lost(RunIsolated(env, db, ctx, opts, body).evts, env.defaultLevel)
      <==> HitsNext(env, db.clock, InRoot(ViewOf(ctx), opts), body)
    decreases body, 1, 0
  {
    hide Lost, Run, RunIsolated, Hits, Finish, WellFormed, Usable, Begun;
    NoneLost(env.defaultLevel);
    if env.fault(db.clock).Some? {
      NoRootRun(env, db, ctx, opts, body);
    } else {
      var id := db.lastTx + 1;
      var b := Begin(env, db.(lastTx := id), id, ctx.conn, opts);
      var inner := ctx.(conn := InTx(id, opts));
      RootBegins(env, db, ctx, opts);
      LostIffHits(env, b.db, inner, body);
      assert ViewOf(inner) == InRoot(ViewOf(ctx), opts);
      var r := Run(env, b.db, inner, body);
      RootEvents(env, db, ctx, opts, body);
      FinishLost(env, r.db, id, r.out);
      WrappedLost(b.evts[0], BodyEvt(id, opts), r.evts, Finish(env, r.db, id, r.out).evts, env.defaultLevel);
    }
  }

  lemma NoRootRun(env: Env, db: Db, ctx: Ctx, opts: Option<TxOptions>, body: Body)
    requires env.fault(db.clock).Some?
    ensures RunIsolated(env, db, ctx, opts, body).evts == []
  {
    hide Run, Finish;
  }

  lemma FinishLost(env: Env, db: Db, id: nat, out: Outcome)
    ensures !Lost(Finish(env, db, id, out).evts, env.defaultLevel)
  {
  }

  lemma WrappedLost(open: Event, mark: Event, evts: seq<Event>, close: seq<Event>, default: nat)
    requires !open.SerialEvt? && !mark.SerialEvt? && !Lost(close, default)
    ensures Lost([open] + ([mark] + evts) + close, default) <==> Lost(evts, default)
  {
    hide Lost;
    LostOne(open, default);
    LostOne(mark, default);
    LostConcat([mark], evts, default);
    LostConcat([open], [mark] + evts, default);
    LostConcat([open] + ([mark] + evts), close, default);
  }

  lemma {:induction false} LostSavepoint(env: Env, db: Db, ctx: Ctx, body: Body)
    requires FreshNames(env) && WellFormed(db) && Usable(db, ctx.conn) && Active(ctx.conn)
    ensures Lost(RunSavepoint(env, db, ctx, body).evts, env.defaultLevel) <==> HitsNext(env, db.clock, ViewOf(ctx), body)
    decreases body, 1, 0
  {
    hide Lost, Run, Hits, FindSave, WellFormed;
    NoneLost(env.defaultLevel);
    if env.fault(db.clock).None? {
      SavepointSet(env, db, ctx.conn);
      LostIffHits(env, Entered(env, db, ctx.conn), ctx, body);
    }
  }

  lemma {:induction false} LostAttempts(env: Env, db: Db, ctx: Ctx, body: Body, n: nat, last: Error)
    requires FreshNames(env) && WellFormed(db) && Usable(db, ctx.conn)
    ensures Lost(RunAttempts(env, db, ctx, body, n, last).evts, env.defaultLevel)
      <==> HitsAttempts(env, db.clock, ViewOf(ctx), body, n)
    decreases body, 3, n
  {
    hide Lost, RunTransaction, MeanTransaction, HitsTransaction, WellFormed, Usable, AgreesOn;
    NoneLost(env.defaultLevel);
    if n > 0 {
      LostTransaction(env, db, ctx, SERIALIZABLE, body);
      RefinesTransaction(env, db, ctx, SERIALIZABLE, body);
      var r := RunTransaction(env, db, ctx, SERIALIZABLE, body);
      Usables(db, ctx.conn, r, MeanTransaction(env, db.clock, ViewOf(ctx), SERIALIZABLE, body));
      if Retryable(r) {
        LostAttempts(env, r.db, ctx, body, n - 1, r.out.error);
        LostConcat(r.evts, RunAttempts(env, r.db, ctx, body, n - 1, r.out.error).evts, env.defaultLevel);
      }
    }
  }

  lemma {:induction false} LostPinned(env: Env, db: Db, ctx: Ctx, body: Body)
    requires FreshNames(env) && WellFormed(db) && Usable(db, ctx.conn) && !Active(ctx.conn)
    ensures Lost(RunPinned(env, db, ctx, body).evts, env.defaultLevel)
      <==> env.canPin && HitsNext(env, db.clock, ViewOf(ctx).(pinned := true), body)
    decreases body, 1, 0
  {
    hide Lost, Run, Hits, RunPinned;
    NoneLost(env.defaultLevel);
    if !env.canPin || env.fault(db.clock).Some? {
      NoPinRun(env, db, ctx, body);
    } else {
      var s := db.nextSession;
      CheckedOut(db);
      var inner := ctx.(conn := Pinned(s));
      LostIffHits(env, Checkout(db), inner, body);
      var r := Run(env, Checkout(db), inner, body);
      PinEvents(env, db, ctx, body);
      LostOne(PinEvt(s), env.defaultLevel);
      LostOne(UnpinEvt(s, Busy(r.db, s)), env.defaultLevel);
      LostConcat([PinEvt(s)], r.evts, env.defaultLevel);
      LostConcat([PinEvt(s)] + r.evts, [UnpinEvt(s, Busy(r.db, s))], env.defaultLevel);
    }
  }

  lemma NoPinRun(env: Env, db: Db, ctx: Ctx, body: Body)
    requires !env.canPin || env.fault(db.clock).Some?
    ensures RunPinned(env, db, ctx, body).evts == []
  {
  }

  // ---------- what one environment does, the tree allows ----------

  lemma {:induction false} EndsInside(env: Env, clock: nat, v: View, body: Body)
    ensures KindOf(Mean(env, clock, v, body).out) in Endings(v, body, env.defaultLevel)
    decreases body, 0, 1
  {
    hide MeanTransaction, MeanRoot, MeanSavepoint, MeanAttempts, MeanPinned, RouteOf;
    match body
    case Then(a, b) => EndsInside(env, clock, v, a); EndsInside(env, Mean(env, clock, v, a).clock, v, b);
    case Catch(a, b) => EndsInside(env, clock, v, a); EndsInside(env, Mean(env, clock, v, a).clock, v, b);
    case Recover(a, b) => EndsInside(env, clock, v, a); EndsInside(env, Mean(env, clock, v, a).clock, v, b);
    case Finally(a, b) =>
      EndsInside(env, clock, v, a);
      EndsInside(env, Mean(env, clock, v, a).clock, v, b);
      JoinedKind(Mean(env, clock, v, a).out, Mean(env, Mean(env, clock, v, a).clock, v, b).out);
    case Choose(a, b) => EndsInside(env, clock + 1, v, a); EndsInside(env, clock + 1, v, b);
    case _ => if Helper(body) { HelperEnds(env, clock, v, body); }
  }

  lemma {:induction false} HelperEnds(env: Env, clock: nat, v: View, body: Body)
    requires Helper(body)
    ensures KindOf(Mean(env, clock, v, body).out) in Endings(v, body, env.defaultLevel)
    decreases body, 0, 0
  {
    hide MeanRoot, MeanSavepoint, MeanAttempts, MeanPinned;
    match body
    case WithoutTransactions(b) => EndsInside(env, clock, v.(noTx := true), b);
    case Transaction(opts, b) => EndsInside(env, clock, v, b); BegunEnds(env, clock, v, opts, b);
    case Isolated(opts, b) => EndsInside(env, clock, v, b); BegunEnds(env, clock, v, opts, b);
    case SavepointTx(b) =>
      EndsInside(env, clock, v, b);
      if v.active { SavepointEnds(env, clock, v, b); } else { BegunEnds(env, clock, v, None, b); }
    case Serialized(b) =>
      EndsInside(env, clock, v, b);
      if !v.active {
        AttemptsEnd(env, clock, v.(serialized := true), b, if env.retries < 0 then 0 else env.retries, Error({}));
      }
    case PinnedConn(b) => EndsInside(env, clock, v, b); PinnedEnds(env, clock, v, b);
  }

  lemma JoinedKind(a: Outcome, b: Outcome)
    ensures KindOf(Join(a, b)) == JoinKind(KindOf(a), KindOf(b))
  {
  }

  lemma {:induction false} BegunEnds(env: Env, clock: nat, v: View, opts: Option<TxOptions>, body: Body)
    ensures KindOf(MeanRoot(env, clock, v, opts, body).out) in {Failed} + Endings(InRoot(v, opts), body, env.defaultLevel)
    decreases body, 1, 0
  {
    hide Mean, Endings;
    EndsInside(env, clock + 1, InRoot(v, opts), body);
  }

  lemma {:induction false} SavepointEnds(env: Env, clock: nat, v: View, body: Body)
    ensures KindOf(MeanSavepoint(env, clock, v, body).out) in {Failed} + Endings(v, body, env.defaultLevel)
    decreases body, 1, 0
  {
    hide Mean, Endings;
    EndsInside(env, clock + 1, v, body);
  }

  lemma {:induction false} AttemptsEnd(env: Env, clock: nat, v: View, body: Body, n: nat, last: Error)
    requires !v.active
    ensures KindOf(MeanAttempts(env, clock, v, body, n, last).out) in {Failed} + Endings(InRoot(v, SERIALIZABLE), body, env.defaultLevel)
    decreases body, 3, n
  {
    hide MeanRoot, Endings;
    if n > 0 {
      BegunEnds(env, clock, v, SERIALIZABLE, body);
      var m := MeanTransaction(env, clock, v, SERIALIZABLE, body);
      if m.out.Err? { AttemptsEnd(env, m.clock, v, body, n - 1, m.out.error); }
    }
  }

  lemma {:induction false} PinnedEnds(env: Env, clock: nat, v: View, body: Body)
    ensures KindOf(MeanPinned(env, clock, v, body).out) in {Failed} + Endings(v.(pinned := true), body, env.defaultLevel)
    decreases body, 1, 0
  {
    hide Mean, Endings;
    EndsInside(env, clock + 1, v.(pinned := true), body);
  }

  lemma {:induction false} HitsAreExposed(env: Env, clock: nat, v: View, body: Body)
    requires Hits(env, clock, v, body)
    ensures Exposes(v, body, env.defaultLevel)
    decreases body, 0, 0
  {
    hide HitsAttempts, HitsNext, Endings, Mean, Level;
    match body
    case Then(a, b) =>
      EndsInside(env, clock, v, a);
      if Hits(env, clock, v, a) { HitsAreExposed(env, clock, v, a); }
      else { HitsAreExposed(env, Mean(env, clock, v, a).clock, v, b); }
    case Catch(a, b) =>
      EndsInside(env, clock, v, a);
      if Hits(env, clock, v, a) { HitsAreExposed(env, clock, v, a); }
      else { HitsAreExposed(env, Mean(env, clock, v, a).clock, v, b); }
    case Recover(a, b) =>
      EndsInside(env, clock, v, a);
      if Hits(env, clock, v, a) { HitsAreExposed(env, clock, v, a); }
      else { HitsAreExposed(env, Mean(env, clock, v, a).clock, v, b); }
    case Finally(a, b) =>
      if Hits(env, clock, v, a) { HitsAreExposed(env, clock, v, a); }
      else { HitsAreExposed(env, Mean(env, clock, v, a).clock, v, b); }
    case Choose(a, b) =>
      if env.choose(clock) { HitsAreExposed(env, clock + 1, v, a); } else { HitsAreExposed(env, clock + 1, v, b); }
    case WithoutTransactions(b) => HitsAreExposed(env, clock, v.(noTx := true), b);
    case Transaction(opts, b) =>
      if v.noTx || v.active { HitsAreExposed(env, clock, v, b); } else { NextExposed(env, clock, InRoot(v, opts), b); }
    case Isolated(opts, b) =>
      if v.noTx { HitsAreExposed(env, clock, v, b); } else { NextExposed(env, clock, InRoot(v, opts), b); }
    case SavepointTx(b) =>
      if v.noTx { HitsAreExposed(env, clock, v, b); }
      else if v.active { NextExposed(env, clock, v, b); }
      else { NextExposed(env, clock, InRoot(v, None), b); }
    case Serialized(b) =>
      if v.noTx { HitsAreExposed(env, clock, v, b); }
      else if v.active { if Hits(env, clock, v, b) { HitsAreExposed(env, clock, v, b); } }
      else { AttemptsExposed(env, clock, v.(serialized := true), b, if env.retries < 0 then 0 else env.retries); }
    case PinnedConn(b) =>
      if v.active || v.pinned { HitsAreExposed(env, clock, v, b); } else { NextExposed(env, clock, v.(pinned := true), b); }
    case _ =>
  }

  lemma {:induction false} NextExposed(env: Env, clock: nat, v: View, body: Body)
    requires HitsNext(env, clock, v, body)
    ensures Exposes(v, body, env.defaultLevel)
    decreases body, 1, 0
  {
    hide Exposes, Hits;
    HitsAreExposed(env, clock + 1, v, body);
  }

  lemma {:induction false} AttemptsExposed(env: Env, clock: nat, v: View, body: Body, n: nat)
    requires HitsAttempts(env, clock, v, body, n) && !v.active
    ensures Exposes(InRoot(v, SERIALIZABLE), body, env.defaultLevel)
    decreases body, 3, n
  {
    hide Exposes, HitsNext, MeanTransaction;
    if HitsTransaction(env, clock, v, SERIALIZABLE, body) {
      NextExposed(env, clock, InRoot(v, SERIALIZABLE), body);
    } else {
      AttemptsExposed(env, MeanTransaction(env, clock, v, SERIALIZABLE, body).clock, v, body, n - 1);
    }
  }

  // ---------- a rule for callers ----------

  /** Every IsolatedTransaction call of the tree asks for at least the serializable level. */
  predicate IsolatedHigh(body: Body, default: nat) {
    match body
    case Then(a, b) => IsolatedHigh(a, default) && IsolatedHigh(b, default)
    case Catch(a, b) => IsolatedHigh(a, default) && IsolatedHigh(b, default)
    case Recover(a, b) => IsolatedHigh(a, default) && IsolatedHigh(b, default)
    case Finally(a, b) => IsolatedHigh(a, default) && IsolatedHigh(b, default)
    case Choose(a, b) => IsolatedHigh(a, default) && IsolatedHigh(b, default)
    case WithoutTransactions(b) => IsolatedHigh(b, default)
    case Transaction(_, b) => IsolatedHigh(b, default)
    case Isolated(opts, b) => !Low(opts, default) && IsolatedHigh(b, default)
    case SavepointTx(b) => IsolatedHigh(b, default)
    case Serialized(b) => IsolatedHigh(b, default)
    case PinnedConn(b) => IsolatedHigh(b, default)
    case _ => true
  }

  /** A context that carries the serialized mark only within a serializable transaction. */
  predicate MarkedHigh(v: View, default: nat) { v.serialized ==> v.active && !Low(v.opts, default) }

  /** IsolatedTransaction is the only way to lose the level: without a call of it that asks for less, no tree exposes. */
  lemma {:induction false} OnlyIsolatedExposes(v: View, body: Body, default: nat)
    requires MarkedHigh(v, default) && IsolatedHigh(body, default)
    ensures !Exposes(v, body, default)
    decreases body
  {
    hide Endings;
    if Helper(body) {
      match RouteOf(v, body, default)
      case Pass(u, b) => OnlyIsolatedExposes(u, b, default);
      case Refuse =>
      case Through(w, u, b) => OnlyIsolatedExposes(Inside(w, u), b, default);
    } else {
      match body
      case Then(a, b) => OnlyIsolatedExposes(v, a, default); OnlyIsolatedExposes(v, b, default);
      case Catch(a, b) => OnlyIsolatedExposes(v, a, default); OnlyIsolatedExposes(v, b, default);
      case Recover(a, b) => OnlyIsolatedExposes(v, a, default); OnlyIsolatedExposes(v, b, default);
      case Finally(a, b) => OnlyIsolatedExposes(v, a, default); OnlyIsolatedExposes(v, b, default);
      case Choose(a, b) => OnlyIsolatedExposes(v, a, default); OnlyIsolatedExposes(v, b, default);
      case _ =>
    }
  }
}
