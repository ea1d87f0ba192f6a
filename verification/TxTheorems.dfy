/** The promises of the transaction helpers, for every caller tree and failure schedule. */
module TxTheorems {
  import opened Common
  import opened Sql
  import opened TxModel
  import opened TxSemantics
  import opened TxRefinement
  import opened TxTraces

  // ---------- all or nothing ----------

  /** A tree run outside any transaction leaves no transaction behind and changes the committed
    * store by exactly the effects of its committed transactions, in commit order, which are
    * exactly the statements its compositional meaning calls durable.
    */
  lemma AllOrNothing(env: Env, db: Db, ctx: Ctx, body: Body)
    requires FreshNames(env) && WellFormed(db) && Usable(db, ctx.conn) && !Active(ctx.conn)
    ensures
      var r := Run(env, db, ctx, body);
      var m := Mean(env, db.clock, ViewOf(ctx), body);
      && r.out == m.out
      && r.db.committed == db.committed + Effects(r.evts) == db.committed + m.durable
      && r.db.txs == db.txs
      && Balanced(r.evts)
  {
    Refines(env, db, ctx, body);
    Traced(env, db, ctx, body);
    hide Run, Mean, Balanced, Effects;
  }

  function CountBegins(evts: seq<Event>, id: nat): nat {
    if evts == [] then 0 else (if evts[0].BeginEvt? && evts[0].id == id then 1 else 0) + CountBegins(evts[1..], id)
  }

  function CountEnds(evts: seq<Event>, id: nat): nat {
    if evts == [] then 0 else (if Ends(evts[0], id) then 1 else 0) + CountEnds(evts[1..], id)
  }

  function CountOpen(stack: seq<Bracket>, id: nat): nat {
    if stack == [] then 0 else (if stack[0] == TxOpen(id) then 1 else 0) + CountOpen(stack[1..], id)
  }

  lemma {:induction false} ScanCounts(evts: seq<Event>, stack: seq<Bracket>, id: nat)
    requires Scan(evts, stack).Some?
    ensures CountOpen(Scan(evts, stack).value, id) + CountEnds(evts, id) == CountOpen(stack, id) + CountBegins(evts, id)
    decreases |evts|
  {
    if evts != [] {
      ScanOne(evts, stack);
      var next := Scan([evts[0]], stack).value;
      assert [evts[0]][1..] == [];
      match evts[0] {
        case BeginEvt(x, _, _, _) => assert next[1..] == stack;
        case PinEvt(s) => assert next[1..] == stack;
        case _ =>
      }
      ScanCounts(evts[1..], next, id);
    }
  }

  lemma {:induction false} CountsConcat(a: seq<Event>, b: seq<Event>, id: nat)
    ensures CountBegins(a + b, id) == CountBegins(a, id) + CountBegins(b, id)
    ensures CountEnds(a + b, id) == CountEnds(a, id) + CountEnds(b, id)
    decreases |a|
  {
    if a == [] {
      assert a + b == b;
    } else {
      assert (a + b)[0] == a[0] && (a + b)[1..] == a[1..] + b;
      CountsConcat(a[1..], b, id);
    }
  }

  lemma {:induction false} NoCounts(evts: seq<Event>, lo: nat, hi: nat, id: nat)
    requires IdsIn(evts, lo, hi) && id <= lo
    ensures CountBegins(evts, id) == CountEnds(evts, id) == 0
    ensures forall e :: e in evts ==> !Ends(e, id)
    decreases |evts|
  {
    if evts != [] {
      assert forall e :: e in evts[1..] ==> e in evts;
      NoCounts(evts[1..], lo, hi, id);
    }
  }

  /** IsolatedTransaction makes exactly one commit or rollback attempt after a successful begin
    * and none otherwise, returns nil exactly when its commit succeeded, and re-panics exactly
    * when the body panicked.
    */
  lemma IsolatedEndsOnce(env: Env, db: Db, ctx: Ctx, opts: Option<TxOptions>, body: Body)
    requires FreshNames(env) && WellFormed(db) && Usable(db, ctx.conn)
    ensures
      var id := db.lastTx + 1;
      var q := RunIsolated(env, db, ctx, opts, body);
      && CountBegins(q.evts, id) == CountEnds(q.evts, id) == (if env.fault(db.clock).None? then 1 else 0)
      && (q.out.Done? <==> exists log :: CommitEvt(id, log, true) in q.evts)
  {
    var id := db.lastTx + 1;
    var q := RunIsolated(env, db, ctx, opts, body);
    if env.fault(db.clock).Some? {
      assert q.evts == [] && q.out.Err?;
    } else {
      var b := Begin(env, db.(lastTx := id), id, ctx.conn, opts);
      var inner := ctx.(conn := InTx(id, opts));
      RootBegins(env, db, ctx, opts);
      Traced(env, b.db, inner, body);
      Moves(env, b.db, inner, body);
      RootEvents(env, db, ctx, opts, body);
      var r := Run(env, b.db, inner, body);
      NoCounts(r.evts, id, r.db.lastTx, id);
      OutOfRoot(env, db, ctx, opts, body);
      hide Run, RunIsolated, Balanced, Honoured, Located, Effects, WellFormed, AgreesOn, IdsIn;
      IsolatedCounts(env, b.evts[0], [BodyEvt(id, opts)] + r.evts, r, id);
    }
  }

  lemma OutOfRoot(env: Env, db: Db, ctx: Ctx, opts: Option<TxOptions>, body: Body)
    requires env.fault(db.clock).None?
    ensures
      var id := db.lastTx + 1;
      var b := Begin(env, db.(lastTx := id), id, ctx.conn, opts);
      var r := Run(env, b.db, ctx.(conn := InTx(id, opts)), body);
      RunIsolated(env, db, ctx, opts, body).out == Finish(env, r.db, id, r.out).out
    ensures
      var id := db.lastTx + 1;
      var b := Begin(env, db.(lastTx := id), id, ctx.conn, opts);
      |b.evts| == 1 && b.evts[0].BeginEvt? && b.evts[0].id == id
  {
    hide Run, Finish;
  }

  lemma IsolatedCounts(env: Env, open: Event, evts: seq<Event>, r: Res, id: nat)
    requires open.BeginEvt? && open.id == id
    requires evts != [] && evts[0].BodyEvt? && evts[1..] == r.evts
    requires CountBegins(r.evts, id) == CountEnds(r.evts, id) == 0
    requires forall e :: e in r.evts ==> !Ends(e, id)
    ensures
      var f := Finish(env, r.db, id, r.out);
      var all := [open] + evts + f.evts;
      && CountBegins(all, id) == CountEnds(all, id) == 1
      && (f.out.Done? <==> exists log :: CommitEvt(id, log, true) in all)
  {
    var f := Finish(env, r.db, id, r.out);
    var all := [open] + evts + f.evts;
    var close := f.evts[0];
    assert f.evts == [close] && [close][1..] == [] && [open][1..] == [];
    CountsConcat([open], evts, id);
    CountsConcat([open] + evts, f.evts, id);
    assert CountBegins(all, id) == CountEnds(all, id) == 1;
    hide CountBegins, CountEnds, Finish;
    forall e | e in evts ensures !Ends(e, id) { if e != evts[0] { assert e in evts[1..]; } }
    if f.out.Done? {
      assert close.CommitEvt? && close.ok && close in all;
      assert CommitEvt(id, close.log, true) in all;
    }
    forall log | CommitEvt(id, log, true) in all ensures f.out.Done? {
      assert CommitEvt(id, log, true) == close;
    }
  }

  // ---------- serialized transactions ----------

  /** No IsolatedTransaction call anywhere in the tree. */
  predicate NoIsolated(body: Body) {
    match body
    case Then(a, b) => NoIsolated(a) && NoIsolated(b)
    case Catch(a, b) => NoIsolated(a) && NoIsolated(b)
    case Recover(a, b) => NoIsolated(a) && NoIsolated(b)
    case Finally(a, b) => NoIsolated(a) && NoIsolated(b)
    case Choose(a, b) => NoIsolated(a) && NoIsolated(b)
    case WithoutTransactions(b) => NoIsolated(b)
    case Transaction(_, b) => NoIsolated(b)
    case Isolated(_, _) => false
    case SavepointTx(b) => NoIsolated(b)
    case Serialized(b) => NoIsolated(b)
    case PinnedConn(b) => NoIsolated(b)
    case _ => true
  }

  /** Inside a transaction, a tree without IsolatedTransaction begins and ends nothing. */
  predicate Quiet(evts: seq<Event>) { forall e :: e in evts ==> e.BodyEvt? || e.SerialEvt? || (e.ExecEvt? && !e.auto) }

  lemma {:induction false} InsideIsQuiet(env: Env, db: Db, ctx: Ctx, body: Body)
    requires Active(ctx.conn) && NoIsolated(body)
    ensures Quiet(Run(env, db, ctx, body).evts)
    decreases body
  {
    match body
    case Then(a, b) => InsideIsQuiet(env, db, ctx, a); InsideIsQuiet(env, Run(env, db, ctx, a).db, ctx, b);
    case Catch(a, b) => InsideIsQuiet(env, db, ctx, a); InsideIsQuiet(env, Run(env, db, ctx, a).db, ctx, b);
    case Recover(a, b) => InsideIsQuiet(env, db, ctx, a); InsideIsQuiet(env, Run(env, db, ctx, a).db, ctx, b);
    case Finally(a, b) => InsideIsQuiet(env, db, ctx, a); InsideIsQuiet(env, Run(env, db, ctx, a).db, ctx, b);
    case Choose(a, b) => InsideIsQuiet(env, Tick(db), ctx, a); InsideIsQuiet(env, Tick(db), ctx, b);
    case WithoutTransactions(b) => InsideIsQuiet(env, db, ctx.(noTx := true), b);
    case Transaction(opts, b) => InsideIsQuiet(env, db, ctx, b);
    case SavepointTx(b) =>
      InsideIsQuiet(env, db, ctx, b);
      InsideIsQuiet(env, Entered(env, db, ctx.conn), ctx, b);
      SavepointQuiet(env, db, ctx, b);
    case Serialized(b) => InsideIsQuiet(env, db, ctx, b);
    case PinnedConn(b) => InsideIsQuiet(env, db, ctx, b);
    case _ =>
  }

  lemma SavepointQuiet(env: Env, db: Db, ctx: Ctx, body: Body)
    requires Active(ctx.conn) && Quiet(Run(env, Entered(env, db, ctx.conn), ctx, body).evts)
    ensures Quiet(RunSavepoint(env, db, ctx, body).evts)
  {
    hide Run;
  }

  /** The same on the meaning side: nothing becomes durable before the enclosing commit. */
  lemma {:induction false} InsideIsPending(env: Env, clock: nat, v: View, body: Body)
    requires v.active && NoIsolated(body)
    ensures Mean(env, clock, v, body).durable == []
    decreases body
  {
    match body
    case Then(a, b) => InsideIsPending(env, clock, v, a); InsideIsPending(env, Mean(env, clock, v, a).clock, v, b);
    case Catch(a, b) => InsideIsPending(env, clock, v, a); InsideIsPending(env, Mean(env, clock, v, a).clock, v, b);
    case Recover(a, b) => InsideIsPending(env, clock, v, a); InsideIsPending(env, Mean(env, clock, v, a).clock, v, b);
    case Finally(a, b) => InsideIsPending(env, clock, v, a); InsideIsPending(env, Mean(env, clock, v, a).clock, v, b);
    case Choose(a, b) => InsideIsPending(env, clock + 1, v, a); InsideIsPending(env, clock + 1, v, b);
    case WithoutTransactions(b) => InsideIsPending(env, clock, v.(noTx := true), b);
    case Transaction(opts, b) => InsideIsPending(env, clock, v, b);
    case SavepointTx(b) => InsideIsPending(env, clock, v, b); InsideIsPending(env, clock + 1, v, b);
    case Serialized(b) => InsideIsPending(env, clock, v, b);
    case PinnedConn(b) => InsideIsPending(env, clock, v, b);
    case _ =>
  }

  const SERIALIZABLE: Option<TxOptions> := Some(TxOptions(LEVEL_SERIALIZABLE, false))

  function Begins(evts: seq<Event>): nat {
    if evts == [] then 0 else (if evts[0].BeginEvt? then 1 else 0) + Begins(evts[1..])
  }

  function Commits(evts: seq<Event>): nat {
    if evts == [] then 0 else (if evts[0].CommitEvt? && evts[0].ok then 1 else 0) + Commits(evts[1..])
  }

  lemma {:induction false} TotalsConcat(a: seq<Event>, b: seq<Event>)
    ensures Begins(a + b) == Begins(a) + Begins(b) && Commits(a + b) == Commits(a) + Commits(b)
    decreases |a|
  {
    if a == [] {
      assert a + b == b;
    } else {
      assert (a + b)[0] == a[0] && (a + b)[1..] == a[1..] + b;
      TotalsConcat(a[1..], b);
    }
  }

  lemma {:induction false} QuietTotals(evts: seq<Event>)
    requires Quiet(evts)
    ensures Begins(evts) == Commits(evts) == 0
    decreases |evts|
  {
    if evts != [] {
      assert evts[0] in evts && forall e :: e in evts[1..] ==> e in evts;
      QuietTotals(evts[1..]);
    }
  }

  /** What one attempt of a serialized transaction contributes. */
  ghost predicate OneAttempt(r: Res) {
    && Begins(r.evts) <= 1
    && Commits(r.evts) == (if r.out.Done? then 1 else 0)
    && (forall e :: e in r.evts && e.BeginEvt? ==> e.opts == SERIALIZABLE)
  }

  lemma AttemptOnce(env: Env, db: Db, ctx: Ctx, body: Body)
    requires !Active(ctx.conn) && NoIsolated(body)
    ensures OneAttempt(RunTransaction(env, db, ctx, SERIALIZABLE, body))
  {
    var id := db.lastTx + 1;
    if env.fault(db.clock).None? {
      var b := Begin(env, db.(lastTx := id), id, ctx.conn, SERIALIZABLE);
      var inner := ctx.(conn := InTx(id, SERIALIZABLE));
      InsideIsQuiet(env, b.db, inner, body);
      var r := Run(env, b.db, inner, body);
      QuietTotals(r.evts);
      RootEvents(env, db, ctx, SERIALIZABLE, body);
      OutOfRoot(env, db, ctx, SERIALIZABLE, body);
      hide Run;
      AttemptTotals(env, b.evts[0], r, id);
    }
  }

  lemma AttemptTotals(env: Env, open: Event, r: Res, id: nat)
    requires open.BeginEvt? && open.opts == SERIALIZABLE
    requires Quiet(r.evts) && Begins(r.evts) == Commits(r.evts) == 0
    ensures
      var f := Finish(env, r.db, id, r.out);
      OneAttempt(Res(f.db, f.out, [open] + ([BodyEvt(id, SERIALIZABLE)] + r.evts) + f.evts))
  {
    hide Begins, Commits;
    var f := Finish(env, r.db, id, r.out);
    var body := [BodyEvt(id, SERIALIZABLE)];
    assert f.evts == [f.evts[0]];
    OneTotals(body[0]);
    OneTotals(open);
    OneTotals(f.evts[0]);
    TotalsConcat(body, r.evts);
    TotalsConcat([open], body + r.evts);
    TotalsConcat([open] + (body + r.evts), f.evts);
  }

  lemma OneTotals(e: Event)
    ensures Begins([e]) == (if e.BeginEvt? then 1 else 0) && Commits([e]) == (if e.CommitEvt? && e.ok then 1 else 0)
  {
    assert [e][1..] == [];
  }

  /** The retry loop: bounded begins, all serializable, at most one commit, nil iff committed. */
  lemma {:induction false} AttemptsBounded(env: Env, db: Db, ctx: Ctx, body: Body, n: nat, last: Error)
    requires !Active(ctx.conn) && NoIsolated(body)
    ensures
      var r := RunAttempts(env, db, ctx, body, n, last);
      && Begins(r.evts) <= n
      && Commits(r.evts) == (if r.out.Done? then 1 else 0)
      && (forall e :: e in r.evts && e.BeginEvt? ==> e.opts == SERIALIZABLE)
    decreases n
  {
    if n > 0 {
      AttemptOnce(env, db, ctx, body);
      var r := RunTransaction(env, db, ctx, SERIALIZABLE, body);
      if r.out.Err? && Is(r.out.error, SerializationFailure) {
        AttemptsBounded(env, r.db, ctx, body, n - 1, r.out.error);
        TotalsConcat(r.evts, RunAttempts(env, r.db, ctx, body, n - 1, r.out.error).evts);
      }
    }
  }

  /** The state in which attempt k begins, counted from 0, when all attempts before it were made. */
  function BeforeAttempt(env: Env, db: Db, ctx: Ctx, body: Body, k: nat): Db
    decreases k, 0
  {
    if k == 0 then db else NthAttempt(env, db, ctx, body, k - 1).db
  }

  function NthAttempt(env: Env, db: Db, ctx: Ctx, body: Body, k: nat): Res
    decreases k, 1
  {
    RunTransaction(env, BeforeAttempt(env, db, ctx, body, k), ctx, SERIALIZABLE, body)
  }

  predicate Retryable(r: Res) { r.out.Err? && Is(r.out.error, SerializationFailure) }

  lemma {:induction false} LaterAttempts(env: Env, db: Db, ctx: Ctx, body: Body, k: nat)
    ensures NthAttempt(env, db, ctx, body, k + 1) == NthAttempt(env, NthAttempt(env, db, ctx, body, 0).db, ctx, body, k)
  {
    hide RunTransaction;
    if k > 0 { LaterAttempts(env, db, ctx, body, k - 1); }
  }

  /** The loop goes on exactly as long as attempts fail on serialization: it ends with the first attempt that does
    * not, or with the last one allowed, whose error it then wraps.
    */
  lemma {:induction false} RetriesUntilDecided(env: Env, db: Db, ctx: Ctx, body: Body, n: nat, last: Error) returns (k: nat)
    requires n > 0
    ensures k < n && forall i :: 0 <= i < k ==> Retryable(NthAttempt(env, db, ctx, body, i))
    ensures
      var a := NthAttempt(env, db, ctx, body, k);
      var r := RunAttempts(env, db, ctx, body, n, last);
      && r.db == a.db
      && (if Retryable(a) then k == n - 1 && r.out == Err(Wrap(Error({RetriesExhausted}), a.out.error)) else r.out == a.out)
    decreases n
  {
    hide RunTransaction;
    var a := NthAttempt(env, db, ctx, body, 0);
    k := 0;
    if Retryable(a) && n > 1 {
      var m := RetriesUntilDecided(env, a.db, ctx, body, n - 1, a.out.error);
      k := m + 1;
      forall i | 0 <= i < k ensures Retryable(NthAttempt(env, db, ctx, body, i)) {
        if i > 0 { LaterAttempts(env, db, ctx, body, i - 1); }
      }
      LaterAttempts(env, db, ctx, body, m);
    }
  }

  /** The durable effect of the retry loop is that of one single attempt, or nothing. */
  lemma {:induction false} LastAttemptAlone(env: Env, clock: nat, v: View, body: Body, n: nat, last: Error)
    requires !v.active && NoIsolated(body)
    ensures
      var m := MeanAttempts(env, clock, v, body, n, last);
      if m.out.Done? then
        exists c: nat :: c >= clock && ByOneAttempt(env, c, v, body, m.durable)
      else m.durable == []
    decreases n
  {
    if n > 0 {
      var m := MeanTransaction(env, clock, v, SERIALIZABLE, body);
      InsideIsPending(env, clock + 1, v.(active := true, opts := SERIALIZABLE, pinned := false), body);
      assert m == MeanRoot(env, clock, v, SERIALIZABLE, body);
      AttemptEffect(env, clock, v, body);
      if m.out.Err? && Is(m.out.error, SerializationFailure) {
        MeanGrows(env, clock, v, body);
        LastAttemptAlone(env, m.clock, v, body, n - 1, m.out.error);
        var q := MeanAttempts(env, m.clock, v, body, n - 1, m.out.error);
        assert MeanAttempts(env, clock, v, body, n, last) == Sequence(m, q);
        assert [] + q.durable == q.durable;
      } else if m.out.Done? {
        assert ByOneAttempt(env, clock, v, body, m.durable);
      }
    }
  }

  lemma AttemptEffect(env: Env, clock: nat, v: View, body: Body)
    requires Mean(env, clock + 1, v.(active := true, opts := SERIALIZABLE, pinned := false), body).durable == []
    ensures
      var m := MeanRoot(env, clock, v, SERIALIZABLE, body);
      if m.out.Done? then ByOneAttempt(env, clock, v, body, m.durable) else m.durable == []
  {
    hide Mean;
    var m := Mean(env, clock + 1, v.(active := true, opts := SERIALIZABLE, pinned := false), body);
    assert [] + m.pending == m.pending;
  }

  /** An attempt that begins at the given tick, runs the whole body to a nil return and leaves
    * exactly the given statements to its commit.
    */
  ghost predicate ByOneAttempt(env: Env, clock: nat, v: View, body: Body, effect: seq<Stmt>) {
    var m := Mean(env, clock + 1, v.(active := true, opts := SERIALIZABLE, pinned := false), body);
    env.fault(clock).None? && m.out.Done? && env.fault(m.clock).None? && effect == m.pending
  }

  lemma {:induction false} MeanLater(env: Env, clock: nat, v: View, body: Body)
    ensures Mean(env, clock, v, body).clock >= clock
    decreases body, 0, 0
  {
    match body
    case Then(a, b) => MeanLater(env, clock, v, a); MeanLater(env, Mean(env, clock, v, a).clock, v, b);
    case Catch(a, b) => MeanLater(env, clock, v, a); MeanLater(env, Mean(env, clock, v, a).clock, v, b);
    case Recover(a, b) => MeanLater(env, clock, v, a); MeanLater(env, Mean(env, clock, v, a).clock, v, b);
    case Finally(a, b) => MeanLater(env, clock, v, a); MeanLater(env, Mean(env, clock, v, a).clock, v, b);
    case Choose(a, b) => MeanLater(env, clock + 1, v, a); MeanLater(env, clock + 1, v, b);
    case WithoutTransactions(b) => MeanLater(env, clock, v.(noTx := true), b);
    case Transaction(opts, b) => MeanLater(env, clock, v, b); RootLater(env, clock, v, opts, b);
    case Isolated(opts, b) => MeanLater(env, clock, v, b); RootLater(env, clock, v, opts, b);
    case SavepointTx(b) => MeanLater(env, clock, v, b); MeanLater(env, clock + 1, v, b); RootLater(env, clock, v, None, b);
    case Serialized(b) =>
      MeanLater(env, clock, v, b);
      AttemptsLater(env, clock, v.(serialized := true), b, if env.retries < 0 then 0 else env.retries, Error({}));
    case PinnedConn(b) => MeanLater(env, clock, v, b); MeanLater(env, clock + 1, v.(pinned := true), b);
    case _ =>
  }

  lemma {:induction false} RootLater(env: Env, clock: nat, v: View, opts: Option<TxOptions>, body: Body)
    ensures MeanRoot(env, clock, v, opts, body).clock >= clock
    decreases body, 1, 0
  {
    MeanLater(env, clock + 1, v.(active := true, opts := opts, pinned := false), body);
  }

  lemma {:induction false} AttemptsLater(env: Env, clock: nat, v: View, body: Body, n: nat, last: Error)
    ensures MeanAttempts(env, clock, v, body, n, last).clock >= clock
    decreases body, 3, n
  {
    if n > 0 {
      MeanLater(env, clock, v, body);
      RootLater(env, clock, v, SERIALIZABLE, body);
      var m := MeanTransaction(env, clock, v, SERIALIZABLE, body);
      if m.out.Err? { AttemptsLater(env, m.clock, v, body, n - 1, m.out.error); }
    }
  }

  lemma MeanGrows(env: Env, clock: nat, v: View, body: Body)
    ensures MeanTransaction(env, clock, v, SERIALIZABLE, body).clock >= clock
  {
    MeanLater(env, clock, v, body);
    RootLater(env, clock, v, SERIALIZABLE, body);
  }

  /** SerializedTransaction called outside a transaction. */
  lemma SerializedOnce(env: Env, db: Db, ctx: Ctx, body: Body)
    requires FreshNames(env) && WellFormed(db) && Usable(db, ctx.conn)
    requires !Active(ctx.conn) && !ctx.noTx && NoIsolated(body)
    ensures
      var r := Run(env, db, ctx, Serialized(body));
      var v := ViewOf(ctx.(serialized := true));
      && Begins(r.evts) <= (if env.retries < 0 then 0 else env.retries)
      && (forall e :: e in r.evts && e.BeginEvt? ==> e.opts == SERIALIZABLE)
      && Commits(r.evts) == (if r.out.Done? then 1 else 0)
      && (!r.out.Done? ==> r.db.committed == db.committed)
      && (r.out.Done? ==> exists c: nat, effect ::
            c >= db.clock && ByOneAttempt(env, c, v, body, effect) && r.db.committed == db.committed + effect)
  {
    hide Mean, MeanAttempts, NoIsolated, WellFormed, Usable, Begins, Commits, ByOneAttempt;
    var n := if env.retries < 0 then 0 else env.retries;
    var inner := ctx.(serialized := true);
    assert Run(env, db, ctx, Serialized(body)) == RunAttempts(env, db, inner, body, n, Error({}));
    hide Run, RunAttempts;
    RefinesAttempts(env, db, inner, body, n, Error({}));
    AttemptsBounded(env, db, inner, body, n, Error({}));
    LastAttemptAlone(env, db.clock, ViewOf(inner), body, n, Error({}));
    assert db.committed + [] == db.committed;
  }

  function Calm(name: nat -> string): Env { Env(_ => None, _ => true, name, 10, true, 2) }

  /** The limit of the guarantee: across an IsolatedTransaction, a nested SerializedTransaction
    * runs its body in a transaction begun with default options, because the context still
    * carries the serialized mark.
    */
  lemma IsolatedLosesSerializable(name: nat -> string, stmt: Stmt)
    ensures
      var r := Run(Calm(name), Db([], map[], 0, 0, 0, 0), Ctx(Pool, false, false),
                   Serialized(Isolated(None, Serialized(ExecStmt(stmt)))));
      && r.out == Done
      && BeginEvt(2, 1, InTx(1, SERIALIZABLE), None) in r.evts
      && SerialEvt(2, None) in r.evts
      && ExecEvt(1, stmt, false, true) in r.evts
      && r.db.committed == [stmt]
  {
    hide Run, RunIsolated, RunAttempts, Finish;
    var env, ctx := Calm(name), Ctx(Pool, false, true);
    var db := Db([], map[], 0, 0, 0, 0);
    var inner := Isolated(None, Serialized(ExecStmt(stmt)));
    var db1 := Db([], map[1 := Tx(0, [], [])], 1, 1, 0, 1);
    var ctx1 := Ctx(InTx(1, SERIALIZABLE), false, true);
    InnerIsolated(name, stmt);
    var y := Run(env, db1, ctx1, inner);
    var z := RunIsolated(env, db, ctx, SERIALIZABLE, inner);
    OuterIsolated(name, inner, y);
    assert forall e :: e in y.evts ==> e in z.evts;
    SerializedUnfolds(name, inner, z);
  }

  lemma InnermostSerialized(name: nat -> string, stmt: Stmt)
    ensures
      var db2 := Db([], map[1 := Tx(0, [], []), 2 := Tx(1, [], [])], 2, 2, 0, 2);
      Run(Calm(name), db2, Ctx(InTx(2, None), false, true), Serialized(ExecStmt(stmt)))
      == Res(db2.(clock := 3, txs := db2.txs[2 := Tx(1, [stmt], [])]), Done, [SerialEvt(2, None), ExecEvt(1, stmt, false, true)])
  {
    var db2 := Db([], map[1 := Tx(0, [], []), 2 := Tx(1, [], [])], 2, 2, 0, 2);
    var ctx := Ctx(InTx(2, None), false, true);
    assert Run(Calm(name), db2, ctx, Serialized(ExecStmt(stmt))) == RunNested(Calm(name), db2, ctx, ExecStmt(stmt));
    assert [] + [stmt] == [stmt];
  }

  lemma InnerIsolated(name: nat -> string, stmt: Stmt)
    ensures
      var db1 := Db([], map[1 := Tx(0, [], [])], 1, 1, 0, 1);
      Run(Calm(name), db1, Ctx(InTx(1, SERIALIZABLE), false, true), Isolated(None, Serialized(ExecStmt(stmt))))
      == Res(Db([stmt], map[1 := Tx(0, [], [])], 2, 2, 0, 4), Done,
             [BeginEvt(2, 1, InTx(1, SERIALIZABLE), None), BodyEvt(2, None), SerialEvt(2, None),
              ExecEvt(1, stmt, false, true), CommitEvt(2, [stmt], true)])
  {
    InnermostSerialized(name, stmt);
    var env := Calm(name);
    var db1 := Db([], map[1 := Tx(0, [], [])], 1, 1, 0, 1);
    var ctx1 := Ctx(InTx(1, SERIALIZABLE), false, true);
    var inner := Serialized(ExecStmt(stmt));
    assert Run(env, db1, ctx1, Isolated(None, inner)) == RunIsolated(env, db1, ctx1, None, inner);
    hide Run;
    var db2 := Db([], map[1 := Tx(0, [], []), 2 := Tx(1, [], [])], 2, 2, 0, 2);
    assert Begin(env, db1.(lastTx := 2), 2, ctx1.conn, None).db == db2;
    assert map[1 := Tx(0, [], []), 2 := Tx(1, [stmt], [])] - {2} == map[1 := Tx(0, [], [])];
    assert db2.txs[2 := Tx(1, [stmt], [])] - {2} == map[1 := Tx(0, [], [])];
    assert [] + [stmt] == [stmt];
  }

  lemma OuterIsolated(name: nat -> string, inner: Body, y: Res)
    requires y == Run(Calm(name), Db([], map[1 := Tx(0, [], [])], 1, 1, 0, 1), Ctx(InTx(1, SERIALIZABLE), false, true), inner)
    requires y.out == Done && 1 in y.db.txs && y.db.txs[1].log == []
    ensures
      var z := RunIsolated(Calm(name), Db([], map[], 0, 0, 0, 0), Ctx(Pool, false, true), SERIALIZABLE, inner);
      && z.out == Done && z.db.committed == y.db.committed
      && forall e :: e in y.evts ==> e in z.evts
  {
    hide Run;
    var env, db := Calm(name), Db([], map[], 0, 0, 0, 0);
    assert Begin(env, db.(lastTx := 1), 1, Pool, SERIALIZABLE).db == Db([], map[1 := Tx(0, [], [])], 1, 1, 0, 1);
    assert y.db.committed + [] == y.db.committed;
  }

  lemma SerializedUnfolds(name: nat -> string, inner: Body, z: Res)
    requires z == RunIsolated(Calm(name), Db([], map[], 0, 0, 0, 0), Ctx(Pool, false, true), SERIALIZABLE, inner) && z.out == Done
    ensures Run(Calm(name), Db([], map[], 0, 0, 0, 0), Ctx(Pool, false, false), Serialized(inner)) == z
  {
    hide RunIsolated;
    var env, db := Calm(name), Db([], map[], 0, 0, 0, 0);
    assert RunAttempts(env, db, Ctx(Pool, false, true), inner, 10, Error({})) == z;
  }

  // ---------- helpers without a transaction around them ----------

  /** Below ContextWithoutTransactions no helper begins, ends or joins a transaction, or sets a savepoint: the tree only
    * executes statements, and checks sessions out and in.
    */
  lemma {:induction false} WithoutIsPlain(env: Env, db: Db, ctx: Ctx, body: Body)
    requires ctx.noTx
    ensures
      var r := Run(env, db, ctx, body);
      && (forall e :: e in r.evts ==> e.ExecEvt? || e.PinEvt? || e.UnpinEvt?)
      && r.db.lastTx == db.lastTx && r.db.nextDraw == db.nextDraw
    decreases body
  {
    hide RunTransaction, RunIsolated, RunSavepoint, RunAttempts, RunNested;
    match body
    case Then(a, b) => WithoutIsPlain(env, db, ctx, a); WithoutIsPlain(env, Run(env, db, ctx, a).db, ctx, b);
    case Catch(a, b) => WithoutIsPlain(env, db, ctx, a); WithoutIsPlain(env, Run(env, db, ctx, a).db, ctx, b);
    case Recover(a, b) => WithoutIsPlain(env, db, ctx, a); WithoutIsPlain(env, Run(env, db, ctx, a).db, ctx, b);
    case Finally(a, b) => WithoutIsPlain(env, db, ctx, a); WithoutIsPlain(env, Run(env, db, ctx, a).db, ctx, b);
    case Choose(a, b) => WithoutIsPlain(env, Tick(db), ctx, a); WithoutIsPlain(env, Tick(db), ctx, b);
    case WithoutTransactions(b) => WithoutIsPlain(env, db, ctx.(noTx := true), b);
    case Transaction(_, b) => WithoutIsPlain(env, db, ctx, b);
    case Isolated(_, b) => WithoutIsPlain(env, db, ctx, b);
    case SavepointTx(b) => WithoutIsPlain(env, db, ctx, b);
    case Serialized(b) => WithoutIsPlain(env, db, ctx, b);
    case PinnedConn(b) =>
      WithoutIsPlain(env, db, ctx, b);
      WithoutIsPlain(env, Checkout(db), ctx.(conn := Pinned(db.nextSession)), b);
    case _ =>
  }

  /** ContextWithoutTransactions puts its body into such a context, in a transaction or not. */
  lemma WithoutTransactionsIsPlain(env: Env, db: Db, ctx: Ctx, body: Body)
    ensures
      var r := Run(env, db, ctx, WithoutTransactions(body));
      && (forall e :: e in r.evts ==> e.ExecEvt? || e.PinEvt? || e.UnpinEvt?)
      && r.db.lastTx == db.lastTx && r.db.nextDraw == db.nextDraw
  {
    WithoutIsPlain(env, db, ctx.(noTx := true), body);
  }

  /** Called outside a transaction, each of the four helpers is all or nothing: a nil return has committed exactly once,
    * and anything else has left the store as it was.
    */
  lemma HelperIsAtomic(env: Env, db: Db, ctx: Ctx, call: Body)
    requires FreshNames(env) && WellFormed(db) && Usable(db, ctx.conn) && !Active(ctx.conn) && !ctx.noTx
    requires (call.Transaction? || call.Isolated? || call.SavepointTx? || call.Serialized?) && NoIsolated(call.body)
    ensures
      var r := Run(env, db, ctx, call);
      && Commits(r.evts) == (if r.out.Done? then 1 else 0)
      && (!r.out.Done? ==> r.db.committed == db.committed)
  {
    if call.Serialized? {
      hide Run, Mean;
      SerializedOnce(env, db, ctx, call.body);
    } else {
      var opts := if call.SavepointTx? then None else call.opts;
      assert Run(env, db, ctx, call) == RunIsolated(env, db, ctx, opts, call.body);
      RootIsAtomic(env, db, ctx, opts, call.body);
    }
  }

  lemma RootIsAtomic(env: Env, db: Db, ctx: Ctx, opts: Option<TxOptions>, body: Body)
    requires FreshNames(env) && WellFormed(db) && Usable(db, ctx.conn) && NoIsolated(body)
    ensures
      var r := RunIsolated(env, db, ctx, opts, body);
      && Commits(r.evts) == (if r.out.Done? then 1 else 0)
      && (!r.out.Done? ==> r.db.committed == db.committed)
  {
    hide Run, RunIsolated, Finish, Mean, WellFormed, Usable, AgreesOn, Commits, Begins, NoIsolated, Quiet;
    RootKeepsStore(env, db, ctx, opts, body);
    if env.fault(db.clock).Some? {
      FailedRoot(env, db, ctx, opts, body);
    } else {
      var id := db.lastTx + 1;
      var b := Begin(env, db.(lastTx := id), id, ctx.conn, opts);
      var inner := ctx.(conn := InTx(id, opts));
      InsideIsQuiet(env, b.db, inner, body);
      var r := Run(env, b.db, inner, body);
      QuietTotals(r.evts);
      RootEvents(env, db, ctx, opts, body);
      OutOfRoot(env, db, ctx, opts, body);
      RootTotals(env, b.evts[0], opts, r, id);
    }
  }

  lemma FailedRoot(env: Env, db: Db, ctx: Ctx, opts: Option<TxOptions>, body: Body)
    requires env.fault(db.clock).Some?
    ensures var r := RunIsolated(env, db, ctx, opts, body); r.out.Err? && Commits(r.evts) == 0
  {
    hide Run, Finish;
  }

  lemma RootKeepsStore(env: Env, db: Db, ctx: Ctx, opts: Option<TxOptions>, body: Body)
    requires FreshNames(env) && WellFormed(db) && Usable(db, ctx.conn) && NoIsolated(body)
    ensures var r := RunIsolated(env, db, ctx, opts, body); !r.out.Done? ==> r.db.committed == db.committed
  {
    hide RunIsolated, Mean;
    RefinesRoot(env, db, ctx, opts, body);
    InsideIsPending(env, db.clock + 1, ViewOf(ctx).(active := true, opts := opts, pinned := false), body);
    assert db.committed + [] == db.committed;
  }

  lemma RootTotals(env: Env, open: Event, opts: Option<TxOptions>, r: Res, id: nat)
    requires open.BeginEvt? && Quiet(r.evts) && Begins(r.evts) == Commits(r.evts) == 0
    ensures
      var f := Finish(env, r.db, id, r.out);
      Commits([open] + ([BodyEvt(id, opts)] + r.evts) + f.evts) == (if f.out.Done? then 1 else 0)
  {
    hide Begins, Commits;
    var f := Finish(env, r.db, id, r.out);
    var body := [BodyEvt(id, opts)];
    assert f.evts == [f.evts[0]];
    OneTotals(body[0]);
    OneTotals(open);
    OneTotals(f.evts[0]);
    TotalsConcat(body, r.evts);
    TotalsConcat([open], body + r.evts);
    TotalsConcat([open] + (body + r.evts), f.evts);
  }
}
