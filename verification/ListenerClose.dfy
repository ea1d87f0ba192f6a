/** What a close of the listener promises: that every unlisten callback is called. */
module ListenerClose {
  import opened Common
  import opened Listener
  import opened ListenerRaces

  /** A listen call with an unlisten callback, past its isStopped test and not yet in its critical section. */
  predicate Carries(c: Call) { c.op.Listen? && c.op.onUnlisten.Some? && (c.phase.Start? || c.phase.Answered?) }

  predicate NoneCarry(s: State) { forall i :: 0 <= i < |s.calls| ==> !Carries(s.calls[i]) }

  predicate Emptied(s: State, channel: string) { Bucket(s.tables.unlisten, channel) == [] }

  /** The listener is stopped, no call is about to register an unlisten callback, and after the cleanup none is left. */
  ghost predicate Sealed(s: State) { s.stopped && NoneCarry(s) && (Clears(s.log) > 0 ==> forall ch :: Emptied(s, ch)) }

  /** The state before the last of the later actions. */
  lemma Before(run: seq<Action>, post: seq<Action>, t: State) returns (s: State)
    requires After(run + post) == Some(t) && post != []
    ensures After(run + post[..|post| - 1]) == Some(s) && Apply(s, post[|post| - 1]) == Some(t)
  {
    hide Apply;
    var n := |post| - 1;
    assert (run + post)[..|run + post| - 1] == run + post[..n] && (run + post)[|run + post| - 1] == post[n];
    s := After(run + post[..n]).value;
  }

  // ---------- without such a call, nothing is left ----------

  lemma LockSealed(s: State, op: Op)
    requires Clears(s.log) > 0 ==> forall ch :: Emptied(s, ch)
    requires op.Listen? ==> op.onUnlisten.None?
    ensures var t := s.(tables := LockedTables(op, s.tables), log := s.log + Logged(op));
            && Registered(t.log) == Registered(s.log)
            && (Clears(t.log) > 0 ==> forall ch :: Emptied(t, ch))
  {
    var t := s.(tables := LockedTables(op, s.tables), log := s.log + Logged(op));
    if op.Resubscribe? {
      assert t.log == s.log;
    } else {
      Grow(s.log, Logged(op)[0]);
      if Clears(s.log) > 0 { forall ch ensures Emptied(t, ch) { assert Emptied(s, ch); } }
    }
  }

  lemma CallSealed(s: State, i: nat, act: Act, t: State)
    requires Sealed(s) && Apply(s, By(i, act)) == Some(t)
    ensures Sealed(t) && Registered(t.log) == Registered(s.log)
  {
    hide Registered, Clears, LockedTables, Logged, Subscribed, Answers, Local;
    var c, d := s.calls[i], t.calls[i];
    OnlyCalls(s, i, act, t);
    LocalCarries(c, act, s.tables, s.once.Finished?, d);
    if act.Lock? {
      LockSealed(s, c.op);
      var u := s.(tables := LockedTables(c.op, s.tables), log := s.log + Logged(c.op));
      forall ch | Clears(t.log) > 0 ensures Emptied(t, ch) { assert Emptied(u, ch); }
    } else {
      forall ch | Clears(t.log) > 0 ensures Emptied(t, ch) { assert Emptied(s, ch); }
    }
  }

  lemma LocalCarries(c: Call, act: Act, t: Tables, cleaned: bool, d: Call)
    requires Local(c, act, t, cleaned) == Some(d)
    ensures Carries(d) ==> Carries(c)
    ensures act.Lock? && !Carries(c) ==> (c.op.Listen? ==> c.op.onUnlisten.None?)
  {
    hide Drained, Taking;
  }

  lemma StepSealed(s: State, a: Action, t: State)
    requires Sealed(s) && Apply(s, a) == Some(t)
    ensures Sealed(t) && Registered(t.log) == Registered(s.log)
  {
    if a.By? {
      hide Sealed;
      CallSealed(s, a.i, a.act, t);
    } else {
      hide Deliveries, Clears, Registered;
      forall ch | Clears(t.log) > 0 ensures Emptied(t, ch) { assert Emptied(s, ch); }
    }
  }

  /** Nothing that happens later registers another unlisten callback. */
  lemma {:induction false} StaysSealed(run: seq<Action>, s: State, post: seq<Action>, t: State)
    requires After(run) == Some(s) && Sealed(s) && After(run + post) == Some(t)
    ensures Sealed(t) && Registered(t.log) == Registered(s.log)
    decreases |post|
  {
    hide Apply, Sealed, Registered;
    if post == [] {
      assert run + post == run;
    } else {
      var before := Before(run, post, t);
      StaysSealed(run, s, post[..|post| - 1], before);
      StepSealed(before, post[|post| - 1], t);
    }
  }

  lemma SealedRunsAll(run: seq<Action>, s: State)
    requires After(run) == Some(s) && Sealed(s) && Quiet(s)
    ensures AllRan(s)
  {
    Reachable(run, s);
    hide After, Conserved, CallsOk, Clears, LiveNotify, LiveUnlisten;
    assert Clears(s.log) == 1;
    forall ch ensures LiveUnlisten(s.log, ch) == [] { assert Emptied(s, ch) && Mirrors(s, ch); }
    ExactlyOnceIff(run, s);
  }

  // ---------- with one, a schedule that leaves its callback ----------

  function Rank(p: Phase): nat {
    match p
    case Start => 5
    case Stopping => 4
    case Answered => 3
    case Starting => 2
    case Pending(_) => 2
    case Blocked => 1
    case Returned(_) => 0
  }

  function Slots(m: Buckets): set<(string, int)> {
    set ch, i | ch in m && 0 <= i < |m[ch]| :: (ch, i)
  }

  function Channels(p: Phase): set<string> { if p.Pending? then p.channels else {} }

  /** d has less left to do than c. */
  predicate Nearer(d: Call, c: Call) {
    || Rank(d.phase) < Rank(c.phase)
    || (Rank(d.phase) == Rank(c.phase)
        && (Slots(d.todo) < Slots(c.todo)
            || (Slots(d.todo) == Slots(c.todo)
                && (|d.ready| < |c.ready|
                    || (|d.ready| == |c.ready|
                        && (|d.active| < |c.active| || (|d.active| == |c.active| && Channels(d.phase) < Channels(c.phase))))))))
  }

  lemma SpawnShrinks(m: Buckets, ch: string)
    requires Bucket(m, ch) != []
    ensures Slots(m[ch := Bucket(m, ch)[1..]]) < Slots(m)
  {
    var left := Bucket(m, ch);
    var rest := m[ch := left[1..]];
    forall p | p in Slots(rest) ensures p in Slots(m) {
      assert p.0 in m && 0 <= p.1 < |m[p.0]|;
    }
    assert (ch, |left| - 1) in Slots(m) && (ch, |left| - 1) !in Slots(rest);
  }

  /** A call that is not blocked can take a step towards its return. */
  lemma Progress(c: Call, t: Tables, cleaned: bool) returns (act: Act)
    requires CallOk(c) && OnPath(c) && !c.phase.Returned? && (c.phase.Blocked? ==> cleaned)
    ensures Local(c, act, t, cleaned).Some? && Nearer(Local(c, act, t, cleaned).value, c)
  {
    hide Taking, Slots;
    match c.phase
    case Start => act := if c.op.Close? then CloseStop else if c.op.Resubscribe? then Lock else Talk(true);
    case Stopping => act := Talk(true);
    case Answered => act := Lock;
    case Pending(channels) =>
      act := Return;
      if channels != {} {
        var ch :| ch in channels;
        act := SubscribeAgain(ch, true);
      }
    case Starting => act := StartingProgress(c, t, cleaned);
    case _ => act := Return;
  }

  lemma SpawnProgress(c: Call, ch: string, t: Tables, cleaned: bool)
    requires c.phase.Starting? && Bucket(c.todo, ch) != []
    ensures Local(c, Spawn(ch), t, cleaned).Some? && Nearer(Local(c, Spawn(ch), t, cleaned).value, c)
  {
    hide Slots, Bucket;
    SpawnShrinks(c.todo, ch);
  }

  lemma GoroutineProgress(c: Call, r: Registration, t: Tables, cleaned: bool)
    requires c.phase.Starting?
    ensures r in c.ready ==> Local(c, Begin(r), t, cleaned).Some? && Nearer(Local(c, Begin(r), t, cleaned).value, c)
    ensures r in c.active && c.ready == multiset{} ==>
              Local(c, End(r), t, cleaned).Some? && Nearer(Local(c, End(r), t, cleaned).value, c)
  {
    hide Slots;
    if r in c.ready { assert c.ready == (c.ready - multiset{r}) + multiset{r}; }
    if r in c.active { assert c.active == (c.active - multiset{r}) + multiset{r}; }
  }

  lemma StartingProgress(c: Call, t: Tables, cleaned: bool) returns (act: Act)
    requires CallOk(c) && c.phase.Starting?
    ensures Local(c, act, t, cleaned).Some? && Nearer(Local(c, act, t, cleaned).value, c)
  {
    hide Slots, Accounts, Local, Nearer;
    if !Drained(c.todo) {
      var ch := SomeBucket(c.todo);
      SpawnProgress(c, ch, t, cleaned);
      act := Spawn(ch);
    } else if c.ready != multiset{} {
      var r :| r in c.ready;
      GoroutineProgress(c, r, t, cleaned);
      act := Begin(r);
    } else if c.active != multiset{} {
      var r :| r in c.active;
      GoroutineProgress(c, r, t, cleaned);
      act := End(r);
    } else {
      ReturnProgress(c, t, cleaned);
      act := Return;
    }
  }

  lemma ReturnProgress(c: Call, t: Tables, cleaned: bool)
    requires CallOk(c) && c.phase.Starting? && Drained(c.todo) && c.ready == multiset{} && c.active == multiset{}
    ensures Local(c, Return, t, cleaned).Some? && Nearer(Local(c, Return, t, cleaned).value, c)
  {
    hide Accounts;
  }

  /** Runs one call to its return, leaving all others where they are. */
  lemma {:induction false} Finishes(run: seq<Action>, s: State, j: nat) returns (post: seq<Action>, t: State)
    requires After(run) == Some(s) && j < |s.calls| && (s.calls[j].phase.Blocked? ==> s.once.Finished?)
    ensures After(run + post) == Some(t) && |t.calls| == |s.calls|
    ensures t.calls[j].phase.Returned? && t.calls[j].op == s.calls[j].op
    ensures forall k :: 0 <= k < |s.calls| && k != j ==> t.calls[k] == s.calls[k]
    decreases Rank(s.calls[j].phase), Slots(s.calls[j].todo), |s.calls[j].ready|, |s.calls[j].active|, Channels(s.calls[j].phase)
  {
    hide After, Apply, Local, Shared, Slots, CallOk, OnPath, Clears, Conserved, TablesAreLog;
    post, t := [], s;
    assert run + post == run;
    if !s.calls[j].phase.Returned? {
      Reachable(run, s);
      var c := s.calls[j];
      assert CallOk(c) && OnPath(c);
      var act := Progress(c, s.tables, s.once.Finished?);
      var d := Local(c, act, s.tables, s.once.Finished?).value;
      LocalKeepsOp(c, act, s.tables, s.once.Finished?, d);
      var u := CallThen(run, s, j, act, d);
      StaysUnblocked(s, j, act, d);
      var more;
      more, t := Finishes(run + [By(j, act)], u, j);
      post := [By(j, act)] + more;
      assert run + post == run + [By(j, act)] + more;
    }
  }

  /** A step does not make a call wait for stopOnce, and does not undo stopOnce. */
  lemma StaysUnblocked(s: State, j: nat, act: Act, d: Call)
    requires j < |s.calls| && Local(s.calls[j], act, s.tables, s.once.Finished?) == Some(d)
    ensures d.phase.Blocked? ==> s.calls[j].phase.Blocked?
    ensures s.once.Finished? ==> Shared(s, j, s.calls[j], act).once.Finished?
  {
    hide Drained, Taking, LockedTables, Subscribed, Answers, Logged;
  }

  /** Lets the cleanup finish, if it has begun. */
  lemma FinishesCleanup(run: seq<Action>, s: State, i: nat) returns (post: seq<Action>, t: State)
    requires After(run) == Some(s) && s.stopped && i < |s.calls| && !s.calls[i].op.Close?
    ensures After(run + post) == Some(t) && |t.calls| == |s.calls| && t.calls[i] == s.calls[i] && t.once.Finished?
  {
    hide After, Conserved, CallsOk, TablesAreLog, Clears;
    Reachable(run, s);
    post, t := [], s;
    assert run + post == run;
    if s.once.Busy? {
      post, t := Finishes(run, s, s.once.winner);
      Reachable(run + post, t);
    }
  }

  /** Lets the first n calls return, all but one. */
  lemma {:induction false} FinishesOthers(run: seq<Action>, s: State, i: nat, n: nat) returns (post: seq<Action>, t: State)
    requires After(run) == Some(s) && s.once.Finished? && n <= |s.calls| && i < |s.calls|
    ensures After(run + post) == Some(t) && |t.calls| == |s.calls| && t.calls[i] == s.calls[i]
    ensures forall k :: 0 <= k < n && k != i ==> t.calls[k].phase.Returned?
  {
    hide After;
    post, t := [], s;
    assert run + post == run;
    if n > 0 {
      post, t := FinishesOthers(run, s, i, n - 1);
      if n - 1 != i {
        OnceStays(run, s, post, t);
        var more, u := Finishes(run + post, t, n - 1);
        assert run + (post + more) == run + post + more;
        post, t := post + more, u;
      }
    }
  }

  lemma OnceStep(s: State, a: Action, t: State)
    requires Apply(s, a) == Some(t) && s.once.Finished?
    ensures t.once.Finished?
  {
    hide Local, Deliveries, LockedTables, Logged, Subscribed, Answers;
  }

  /** stopOnce is never used again. */
  lemma {:induction false} OnceStays(run: seq<Action>, s: State, post: seq<Action>, t: State)
    requires After(run) == Some(s) && After(run + post) == Some(t) && s.once.Finished?
    ensures t.once.Finished?
    decreases |post|
  {
    hide Apply;
    if post == [] {
      assert run + post == run;
    } else {
      var before := Before(run, post, t);
      OnceStays(run, s, post[..|post| - 1], before);
      OnceStep(before, post[|post| - 1], t);
    }
  }

  /** Lets the connection agree to the listen call, if it has not yet. */
  lemma AsksFirst(run: seq<Action>, s: State, i: nat) returns (post: seq<Action>, t: State)
    requires After(run) == Some(s) && i < |s.calls| && Carries(s.calls[i])
    ensures After(run + post) == Some(t) && t.stopped == s.stopped && |t.calls| == |s.calls|
    ensures t.calls[i].op == s.calls[i].op && t.calls[i].phase.Answered?
  {
    hide After;
    var c := s.calls[i];
    post, t := [], s;
    assert run + post == run;
    if c.phase.Start? {
      t := CallThen(run, s, i, Talk(true), c.(phase := Answered));
      post := [By(i, Talk(true))];
    }
  }

  /** Lets the listen call register its callback, after everybody else has returned. */
  lemma RegistersLast(run: seq<Action>, s: State, i: nat) returns (post: seq<Action>, t: State)
    requires After(run) == Some(s) && i < |s.calls| && Carries(s.calls[i]) && s.calls[i].phase.Answered?
    requires forall k :: 0 <= k < |s.calls| && k != i ==> s.calls[k].phase.Returned?
    ensures After(run + post) == Some(t) && Quiet(t) && t.stopped == s.stopped && t.once == s.once
    ensures |t.log| > 0 && t.log[|t.log| - 1] == Logged(s.calls[i].op)[0]
  {
    hide After, Added, Taking;
    t := CallThen(run, s, i, Lock, s.calls[i].(phase := Returned(true)));
    post := [By(i, Lock)];
  }

  /** Nothing can happen any more but calls that return at once. */
  predicate Settled(s: State) {
    s.stopped && s.once.Finished? && forall i :: 0 <= i < |s.calls| ==> s.calls[i].phase.Returned? || s.calls[i].phase.Blocked?
  }

  lemma StepSettled(s: State, a: Action, t: State)
    requires Settled(s) && CallsOk(s) && Apply(s, a) == Some(t)
    ensures Settled(t) && t.log == s.log && t.begun == s.begun && t.finished == s.finished
  {
    hide Accounts, Deliveries, Drained, InLock, LockedTables, Logged;
    if a.By? {
      OnlyCalls(s, a.i, a.act, t);
      var c := s.calls[a.i];
      assert CallOk(c);
      Nothing(c.ready);
      Nothing(c.active);
      NoLock(c, s.tables);
    }
  }

  lemma NoLock(c: Call, t: Tables)
    requires c.phase.Returned? || c.phase.Blocked?
    ensures InLock(c, t).None?
  {
  }

  /** What is left when the listener has settled is left for good. */
  lemma {:induction false} StaysSettled(run: seq<Action>, s: State, post: seq<Action>, t: State)
    requires After(run) == Some(s) && Settled(s) && After(run + post) == Some(t)
    ensures Settled(t) && t.log == s.log && t.begun == s.begun && t.finished == s.finished
    decreases |post|
  {
    hide Apply, Settled, CallsOk;
    if post == [] {
      assert run + post == run;
    } else {
      var before := Before(run, post, t);
      hide After;
      StaysSettled(run, s, post[..|post| - 1], before);
      Reachable(run + post[..|post| - 1], before);
      StepSettled(before, post[|post| - 1], t);
    }
  }

  /** However the run goes on, one of the registrations has not been run. */
  ghost predicate NeverRun(run: seq<Action>, r: Registration) {
    forall post :: After(run + post).Some? ==>
      var t := After(run + post).value;
      t.begun[r] < Registered(t.log)[r]
  }

  /** After a close has closed the stop channel, a listen call that is past its isStopped test can still register its
    * unlisten callback when everybody has returned, and then nothing ever runs it.
    */
  lemma LeavesOne(run: seq<Action>, s: State, i: nat) returns (post: seq<Action>, t: State)
    requires After(run) == Some(s) && s.stopped && i < |s.calls| && Carries(s.calls[i])
    ensures After(run + post) == Some(t) && Quiet(t)
    ensures NeverRun(run + post, Registration(s.calls[i].op.channel, s.calls[i].op.onUnlisten.value))
  {
    hide After, Registered, Quiet;
    var r := Registration(s.calls[i].op.channel, s.calls[i].op.onUnlisten.value);
    var post0, t0 := AsksFirst(run, s, i);
    var post1, t1 := FinishesCleanup(run + post0, t0, i);
    var post2, t2 := FinishesOthers(run + post0 + post1, t1, i, |t1.calls|);
    OnceStays(run + post0 + post1, t1, post2, t2);
    var post3, t3 := RegistersLast(run + post0 + post1 + post2, t2, i);
    post, t := post0 + post1 + post2 + post3, t3;
    assert run + post == run + post0 + post1 + post2 + post3;
    LastNotRun(run + post, t, s.calls[i].op);
  }

  lemma LastNotRun(run: seq<Action>, s: State, op: Op)
    requires After(run) == Some(s) && Quiet(s) && s.once.Finished?
    requires op.Listen? && op.onUnlisten.Some? && |s.log| > 0 && s.log[|s.log| - 1] == Logged(op)[0]
    ensures NeverRun(run, Registration(op.channel, op.onUnlisten.value))
  {
    hide After, Registered, LiveUnlisten;
    var r := Registration(op.channel, op.onUnlisten.value);
    NotRunYet(run, s, r);
    assert Settled(s) by { Reachable(run, s); hide Conserved, CallsOk, TablesAreLog, Clears; }
    forall post | After(run + post).Some?
      ensures After(run + post).value.begun[r] < Registered(After(run + post).value.log)[r]
    {
      StaysSettled(run, s, post, After(run + post).value);
    }
  }

  lemma NotRunYet(run: seq<Action>, s: State, r: Registration)
    requires After(run) == Some(s) && |s.log| > 0
    requires s.log[|s.log| - 1].Add? && s.log[|s.log| - 1].channel == r.channel && s.log[|s.log| - 1].onUnlisten == Some(r.callback)
    ensures s.begun[r] < Registered(s.log)[r]
  {
    hide After, Registered, LiveNotify, Clears, Held, Active, CallsOk, OnceOk;
    Reachable(run, s);
    assert Mirrors(s, r.channel) && Conserves(s, r);
    var live := LiveUnlisten(s.log, r.channel);
    assert live[|live| - 1] == r.callback;
  }

  // ---------- when close keeps its promise ----------

  /** However the run goes on, when all calls have returned every registered unlisten callback has run exactly once. */
  ghost predicate AlwaysRunsAll(run: seq<Action>) {
    forall post :: After(run + post).Some? && Quiet(After(run + post).value) ==> AllRan(After(run + post).value)
  }

  /** However the run goes on, no further unlisten callback is registered. */
  ghost predicate NoneRegisters(run: seq<Action>, s: State) {
    forall post :: After(run + post).Some? ==> Registered(After(run + post).value.log) == Registered(s.log)
  }

  lemma StopSeals(run: seq<Action>, s: State, w: nat, t: State)
    requires After(run) == Some(s) && Apply(s, By(w, CloseStop)) == Some(t)
    ensures After(run + [By(w, CloseStop)]) == Some(t) && t.stopped
    ensures |t.calls| == |s.calls| && forall i :: 0 <= i < |s.calls| ==> t.calls[i].op == s.calls[i].op
    ensures forall i :: 0 <= i < |s.calls| ==> (Carries(t.calls[i]) <==> Carries(s.calls[i]))
    ensures NoneCarry(s) ==> Sealed(t)
    ensures t.log == s.log
  {
    hide After, Conserved, CallsOk, TablesAreLog, Clears, Deliveries;
    Then(run, s, By(w, CloseStop), t);
    Reachable(run, s);
    Reachable(run + [By(w, CloseStop)], t);
  }

  /** The call that closes the stop channel gets every unlisten callback run, whatever happens afterwards, if and only if
    * at that moment no listen call with an unlisten callback is between its isStopped test and its critical section.
    * LateRegistration is the shortest schedule of the other case.
    */
  lemma CloseRunsAllIff(run: seq<Action>, s: State, w: nat)
    requires After(run) == Some(s) && Apply(s, By(w, CloseStop)).Some?
    ensures AlwaysRunsAll(run + [By(w, CloseStop)]) <==> NoneCarry(s)
    ensures NoneCarry(s) ==> NoneRegisters(run + [By(w, CloseStop)], s)
  {
    hide After, Apply, Sealed, Quiet, AllRan, Carries, Registered;
    var closed := run + [By(w, CloseStop)];
    var t := Apply(s, By(w, CloseStop)).value;
    StopSeals(run, s, w, t);
    if NoneCarry(s) {
      forall post | After(closed + post).Some?
        ensures Registered(After(closed + post).value.log) == Registered(s.log)
        ensures Quiet(After(closed + post).value) ==> AllRan(After(closed + post).value)
      {
        StaysSealed(closed, t, post, After(closed + post).value);
        if Quiet(After(closed + post).value) { SealedRunsAll(closed + post, After(closed + post).value); }
      }
    } else {
      var i :| 0 <= i < |s.calls| && Carries(s.calls[i]);
      LeftOver(closed, t, i);
    }
  }

  lemma LeftOver(run: seq<Action>, s: State, i: nat)
    requires After(run) == Some(s) && s.stopped && i < |s.calls| && Carries(s.calls[i])
    ensures !AlwaysRunsAll(run)
  {
    hide After, Quiet, Registered;
    var post, t := LeavesOne(run, s, i);
    var r := Registration(s.calls[i].op.channel, s.calls[i].op.onUnlisten.value);
    assert run + post + [] == run + post;
    assert t.begun[r] < Registered(t.log)[r];
    NoneLostNoneTwice(run + post, t, r);
  }
}
