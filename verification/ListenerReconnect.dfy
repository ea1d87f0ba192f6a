/** resubscribeChannels: what it asks the connection for, and what that restores after a lost connection. */
module ListenerReconnect {
  import opened Common
  import opened Listener
  import opened ListenerRaces
  import opened ListenerClose

  // ---------- the channels that the maps have are those in use ----------

  predicate NoneEmpty(m: Buckets) { forall ch :: ch in m ==> m[ch] != [] }

  predicate Filled(t: Tables) { NoneEmpty(t.notify) && NoneEmpty(t.unlisten) }

  lemma LockFilled(op: Op, t: Tables)
    requires Filled(t)
    ensures Filled(LockedTables(op, t))
  {
  }

  lemma {:induction false} KeptFilled(run: seq<Action>, s: State)
    requires After(run) == Some(s)
    ensures Filled(s.tables)
  {
    hide Apply, Filled;
    if run == [] {
      NothingFilled();
    } else {
      var before := After(run[..|run| - 1]).value;
      KeptFilled(run[..|run| - 1], before);
      StepFilled(before, run[|run| - 1], s);
    }
  }

  lemma StepFilled(s: State, a: Action, t: State)
    requires Filled(s.tables) && Apply(s, a) == Some(t)
    ensures Filled(t.tables)
  {
    hide Local, LockedTables, Logged, Subscribed, Answers, Deliveries, Filled;
    if a.By? && a.act.Lock? { LockFilled(s.calls[a.i].op, s.tables); }
  }

  lemma NothingFilled()
    ensures Filled(NO_TABLES)
  {
  }

  /** The channel has callbacks, by the history of the lock. */
  predicate Used(log: seq<Entry>, channel: string) { LiveNotify(log, channel) != [] || LiveUnlisten(log, channel) != [] }

  lemma KeysAreUsed(run: seq<Action>, s: State, channel: string)
    requires After(run) == Some(s)
    ensures channel in InMaps(s.tables) <==> Used(s.log, channel)
    ensures InUse(s.tables, channel) <==> Used(s.log, channel)
  {
    hide After, LiveNotify, LiveUnlisten, Conserved, CallsOk, OnceOk;
    Reachable(run, s);
    KeptFilled(run, s);
    assert Mirrors(s, channel);
  }

  // ---------- a resubscribe call asks once for each of them ----------

  predicate AsksFor(a: Action, i: nat, channel: string) {
    a.By? && a.i == i && a.act.SubscribeAgain? && a.act.channel == channel
  }

  /** How often call i has asked for the channel. */
  function Asked(run: seq<Action>, i: nat, channel: string): nat {
    if run == [] then 0 else Asked(run[..|run| - 1], i, channel) + if AsksFor(run[|run| - 1], i, channel) then 1 else 0
  }

  /** The call still has to ask for the channel. */
  predicate ToAsk(c: Call, channel: string) { c.phase.Pending? && channel in c.phase.channels }

  /** Call i was in its critical section at step k, and since then asks for the channels then in use. */
  ghost predicate AsksSince(run: seq<Action>, c: Call, i: nat, k: nat) {
    && k < |run| && run[k] == By(i, Lock) && After(run[..k]).Some?
    && forall ch :: Asked(run, i, ch) + (if ToAsk(c, ch) then 1 else 0) == if Used(After(run[..k]).value.log, ch) then 1 else 0
  }

  ghost predicate AsksNone(run: seq<Action>, i: nat) { forall ch :: Asked(run, i, ch) == 0 }

  /** What is known of call i after the run, k being the step at which it was in its critical section. */
  ghost predicate AsksOk(run: seq<Action>, s: State, i: nat, k: nat) {
    if |s.calls| <= i then AsksNone(run, i)
    else
      var c := s.calls[i];
      c.op.Resubscribe? ==>
        if c.phase.Pending? || c.phase == Returned(true) then AsksSince(run, c, i, k)
        else (c.phase.Start? || c.phase == Returned(false)) && AsksNone(run, i)
  }

  lemma SameAsked(run: seq<Action>, a: Action, i: nat)
    requires run != [] && run[|run| - 1] == a && !(a.By? && a.i == i && a.act.SubscribeAgain?)
    ensures forall ch :: Asked(run, i, ch) == Asked(run[..|run| - 1], i, ch)
  {
  }

  lemma SinceGrows(run: seq<Action>, c: Call, d: Call, i: nat, k: nat)
    requires run != [] && AsksSince(run[..|run| - 1], c, i, k)
    requires forall ch :: Asked(run, i, ch) + (if ToAsk(d, ch) then 1 else 0)
                       == Asked(run[..|run| - 1], i, ch) + if ToAsk(c, ch) then 1 else 0
    ensures AsksSince(run, d, i, k)
  {
    hide After, Asked, Used, ToAsk;
    assert run[..|run| - 1][..k] == run[..k];
  }

  /** Any action but a step of call i. */
  lemma OtherAsks(run: seq<Action>, before: State, s: State, i: nat, k: nat)
    requires run != [] && AsksOk(run[..|run| - 1], before, i, k) && Apply(before, run[|run| - 1]) == Some(s)
    requires !(run[|run| - 1].By? && run[|run| - 1].i == i)
    ensures AsksOk(run, s, i, k)
  {
    hide Local, Shared, Deliveries, Asked, ToAsk, After, Used;
    SameAsked(run, run[|run| - 1], i);
    if i < |before.calls| {
      assert s.calls[i] == before.calls[i];
      var c := before.calls[i];
      if c.op.Resubscribe? && (c.phase.Pending? || c.phase == Returned(true)) { SinceGrows(run, c, c, i, k); }
    }
  }

  /** What a resubscribe call can do. */
  lemma ResubscribeSteps(c: Call, act: Act, t: Tables, cleaned: bool, d: Call)
    requires c.op.Resubscribe? && Local(c, act, t, cleaned) == Some(d)
    requires c.phase.Start? || c.phase.Pending? || c.phase.Returned?
    ensures d.op == c.op
    ensures act.Lock? ==> c.phase.Start? && d.phase == Pending(InMaps(t))
    ensures act.SubscribeAgain? ==> c.phase.Pending? && ToAsk(c, act.channel) && d.phase == Pending(c.phase.channels - {act.channel})
    ensures act.Return? ==> c.phase == Pending({}) && d.phase == Returned(true)
    ensures !act.Lock? && !act.SubscribeAgain? && !act.Return? ==> d.phase == c.phase
  {
    hide Drained, Taking;
  }

  lemma LockAsks(run: seq<Action>, before: State, i: nat, d: Call)
    requires run != [] && After(run[..|run| - 1]) == Some(before) && AsksNone(run[..|run| - 1], i)
    requires run[|run| - 1] == By(i, Lock) && d.phase == Pending(InMaps(before.tables))
    ensures AsksSince(run, d, i, |run| - 1)
  {
    SameAsked(run, By(i, Lock), i);
    hide After, Asked, Used;
    forall ch ensures Asked(run, i, ch) + (if ToAsk(d, ch) then 1 else 0) == if Used(before.log, ch) then 1 else 0 {
      assert Asked(run[..|run| - 1], i, ch) == 0;
      KeysAreUsed(run[..|run| - 1], before, ch);
    }
  }

  lemma OneAsk(run: seq<Action>, c: Call, d: Call, i: nat, k: nat, channel: string, ok: bool)
    requires run != [] && run[|run| - 1] == By(i, SubscribeAgain(channel, ok)) && AsksSince(run[..|run| - 1], c, i, k)
    requires ToAsk(c, channel) && d.phase == Pending(c.phase.channels - {channel})
    ensures AsksSince(run, d, i, k)
  {
    hide AsksSince;
    SinceGrows(run, c, d, i, k);
  }

  lemma OwnAsks(run: seq<Action>, before: State, s: State, i: nat, act: Act, k: nat) returns (m: nat)
    requires run != [] && After(run[..|run| - 1]) == Some(before) && AsksOk(run[..|run| - 1], before, i, k)
    requires run[|run| - 1] == By(i, act) && Apply(before, By(i, act)) == Some(s)
    ensures AsksOk(run, s, i, m)
  {
    hide Local, Shared, Asked, ToAsk, After, Used, AsksSince;
    m := k;
    OnlyCalls(before, i, act, s);
    var c, d := before.calls[i], s.calls[i];
    LocalKeepsOp(c, act, before.tables, before.once.Finished?, d);
    if c.op.Resubscribe? {
      ResubscribeSteps(c, act, before.tables, before.once.Finished?, d);
      if act.SubscribeAgain? {
        OneAsk(run, c, d, i, k, act.channel, act.ok);
      } else {
        SameAsked(run, By(i, act), i);
        if act.Lock? {
          LockAsks(run, before, i, d);
          m := |run| - 1;
        } else if c.phase.Pending? || c.phase == Returned(true) {
          NoneToAsk(c, d);
          SinceGrows(run, c, d, i, k);
        }
      }
    }
  }

  lemma NoneToAsk(c: Call, d: Call)
    requires d.phase == c.phase || (c.phase == Pending({}) && d.phase.Returned?)
    ensures forall ch :: ToAsk(c, ch) <==> ToAsk(d, ch)
  {
  }

  lemma {:induction false} AskedSoFar(run: seq<Action>, s: State, i: nat) returns (k: nat)
    requires After(run) == Some(s)
    ensures AsksOk(run, s, i, k)
  {
    hide Apply, AsksOk;
    if run == [] {
      k := 0;
      NoneAsked(i, k);
    } else {
      var before, a := After(run[..|run| - 1]).value, run[|run| - 1];
      k := AskedSoFar(run[..|run| - 1], before, i);
      if a.By? && a.i == i {
        k := OwnAsks(run, before, s, i, a.act, k);
      } else {
        OtherAsks(run, before, s, i, k);
      }
    }
  }

  lemma NoneAsked(i: nat, k: nat)
    ensures AsksOk([], INIT, i, k)
  {
  }

  /** A resubscribe call that has come to its end has asked the connection once for each channel that had callbacks when
    * it held the lock, by the history of the lock, and for no other.
    */
  lemma ResubscribesEach(run: seq<Action>, s: State, i: nat) returns (k: nat)
    requires After(run) == Some(s) && i < |s.calls| && s.calls[i].op.Resubscribe? && s.calls[i].phase == Returned(true)
    ensures k < |run| && run[k] == By(i, Lock) && After(run[..k]).Some?
    ensures forall ch :: Asked(run, i, ch) == if Used(After(run[..k]).value.log, ch) then 1 else 0
  {
    hide After, Asked, Used;
    k := AskedSoFar(run, s, i);
  }

  // ---------- what it restores after a lost connection ----------

  /** An answer after which the channel is not subscribed. */
  predicate Ends(a: Answer, channel: string) { a == Closed(channel) || a == Disconnected || a == Dropped }

  /** An entry after which the channel has no callbacks. */
  predicate Removes(e: Entry, channel: string) { e == Remove(channel) || e == Clear }

  /** Since s0 the connection was not lost again, and neither it nor the maps have dropped the channel. */
  predicate Undisturbed(s0: State, s: State, channel: string) {
    && s0.answers <= s.answers && s0.log <= s.log
    && (forall k :: |s0.answers| <= k < |s.answers| ==> !Ends(s.answers[k], channel))
    && (forall k :: |s0.log| <= k < |s.log| ==> !Removes(s.log[k], channel))
  }

  /** A listen call that the connection has agreed to, with a callback that it has not registered yet. */
  predicate Carrying(c: Call, channel: string) {
    Agreed(c, channel) && (c.op.onNotify.Some? || c.op.onUnlisten.Some?)
  }

  /** A resubscribe call that began after s0 has come to its end, and the connection has agreed whenever it asked for the
    * channel.
    */
  ghost predicate Resubscribed(run: seq<Action>, s0: State, mid: seq<Action>, s: State, i: nat, channel: string) {
    && After(run + mid) == Some(s) && Undisturbed(s0, s, channel)
    && |s0.calls| <= i < |s.calls| && s.calls[i].op.Resubscribe? && s.calls[i].phase == Returned(true)
    && By(i, SubscribeAgain(channel, false)) !in mid
  }

  /** However the run goes on, such a call leaves the channel subscribed if it has callbacks. */
  ghost predicate AlwaysRestored(run: seq<Action>, s0: State, channel: string) {
    forall mid, s, i :: Resubscribed(run, s0, mid, s, i, channel) ==> (InUse(s.tables, channel) ==> channel in s.subscribed)
  }

  /** Histories only grow. */
  lemma HistoriesGrow(s: State, a: Action, t: State)
    requires Apply(s, a) == Some(t)
    ensures s.answers <= t.answers && s.log <= t.log && |s.calls| <= |t.calls|
    ensures s.stopped ==> t.stopped
    ensures forall j :: 0 <= j < |s.calls| ==> t.calls[j].op == s.calls[j].op
  {
    hide Local, Answers, Logged, LockedTables, Subscribed, Deliveries;
    if a.By? { LocalKeepsOp(s.calls[a.i], a.act, s.tables, s.once.Finished?, t.calls[a.i]); }
  }

  lemma UndisturbedBefore(s0: State, s: State, a: Action, t: State, channel: string)
    requires Apply(s, a) == Some(t) && Undisturbed(s0, t, channel) && s0.answers <= s.answers && s0.log <= s.log
    ensures Undisturbed(s0, s, channel)
    ensures forall k :: |s.answers| <= k < |t.answers| ==> !Ends(t.answers[k], channel)
    ensures forall k :: |s.log| <= k < |t.log| ==> !Removes(t.log[k], channel)
  {
    hide Apply;
    HistoriesGrow(s, a, t);
    forall k | |s0.answers| <= k < |s.answers| ensures !Ends(s.answers[k], channel) { assert s.answers[k] == t.answers[k]; }
    forall k | |s0.log| <= k < |s.log| ensures !Removes(s.log[k], channel) { assert s.log[k] == t.log[k]; }
  }

  /** What stays true of the channel as long as it is undisturbed since s0. */
  ghost predicate Steady(s0: State, s: State, channel: string) {
    && |s0.calls| <= |s.calls| && s0.answers <= s.answers && s0.log <= s.log
    && (forall j :: 0 <= j < |s0.calls| ==> s.calls[j].op == s0.calls[j].op)
    && (InUse(s0.tables, channel) ==> InUse(s.tables, channel))
    && (channel !in s.subscribed ==> AgreedBefore(s0, s, channel))
    && (channel !in s.subscribed && InUse(s.tables, channel) ==> InUse(s0.tables, channel) || SomeCarrying(s0, channel))
  }

  predicate AgreedBefore(s0: State, s: State, channel: string)
    requires |s0.calls| <= |s.calls|
  {
    forall j :: 0 <= j < |s.calls| && Agreed(s.calls[j], channel) ==> j < |s0.calls| && Agreed(s0.calls[j], channel)
  }

  predicate SomeCarrying(s: State, channel: string) { exists j :: 0 <= j < |s.calls| && Carrying(s.calls[j], channel) }

  /** No answer of the step ends the subscription, and no entry of it removes the callbacks. */
  predicate Leaves(s: State, t: State, channel: string)
  {
    && (forall k :: |s.answers| <= k < |t.answers| ==> !Ends(t.answers[k], channel))
    && (forall k :: |s.log| <= k < |t.log| ==> !Removes(t.log[k], channel))
  }

  lemma TalkSteady(s0: State, s: State, i: nat, ok: bool, t: State, channel: string)
    requires Steady(s0, s, channel) && Apply(s, By(i, Talk(ok))) == Some(t) && Leaves(s, t, channel)
    ensures channel in s.subscribed ==> channel in t.subscribed
    ensures Steady(s0, t, channel)
  {
    hide Local, InUse, Carrying;
    var c, d := s.calls[i], t.calls[i];
    OnlyCalls(s, i, Talk(ok), t);
    LocalKeepsOp(c, Talk(ok), s.tables, s.once.Finished?, d);
    TalkedPhase(c, ok, s.tables, s.once.Finished?, d);
    HistoriesGrow(s, By(i, Talk(ok)), t);
    if Answers(c.op, ok) != [] { assert t.answers[|s.answers|] == Answers(c.op, ok)[0]; }
  }

  lemma LockSteady(s0: State, s: State, i: nat, t: State, channel: string)
    requires Steady(s0, s, channel) && Apply(s, By(i, Lock)) == Some(t) && Leaves(s, t, channel)
    ensures t.subscribed == s.subscribed
    ensures Steady(s0, t, channel)
  {
    hide Local;
    var c, d := s.calls[i], t.calls[i];
    OnlyCalls(s, i, Lock, t);
    LocalKeepsOp(c, Lock, s.tables, s.once.Finished?, d);
    HistoriesGrow(s, By(i, Lock), t);
    if Logged(c.op) != [] { assert t.log[|s.log|] == Logged(c.op)[0]; }
    LockedInUse(c.op, s.tables, channel);
    hide InUse, LockedTables;
    if channel !in s.subscribed && InUse(t.tables, channel) && !InUse(s.tables, channel) {
      assert Agreed(c, channel) && Agreed(s0.calls[i], channel);
      assert Carrying(s0.calls[i], channel);
    }
  }

  /** What a critical section does to a channel's callbacks. */
  lemma LockedInUse(op: Op, t: Tables, channel: string)
    ensures !(op == Unlisten(channel) || op.Close?) && InUse(t, channel) ==> InUse(LockedTables(op, t), channel)
    ensures InUse(LockedTables(op, t), channel) && !InUse(t, channel) ==>
              op.Listen? && op.channel == channel && (op.onNotify.Some? || op.onUnlisten.Some?)
  {
  }

  lemma CallSteady(s0: State, s: State, i: nat, act: Act, t: State, channel: string)
    requires Steady(s0, s, channel) && Apply(s, By(i, act)) == Some(t) && !act.Talk? && !act.Lock?
    ensures channel in s.subscribed ==> channel in t.subscribed
    ensures act == SubscribeAgain(channel, true) ==> channel in t.subscribed
    ensures Steady(s0, t, channel)
  {
    hide Local, InUse, Carrying;
    OnlyCalls(s, i, act, t);
    LocalKeepsOp(s.calls[i], act, s.tables, s.once.Finished?, t.calls[i]);
    HistoriesGrow(s, By(i, act), t);
  }

  lemma StepSteady(s0: State, s: State, a: Action, t: State, channel: string)
    requires Steady(s0, s, channel) && Apply(s, a) == Some(t) && Leaves(s, t, channel)
    ensures channel in s.subscribed ==> channel in t.subscribed
    ensures (exists i :: a == By(i, SubscribeAgain(channel, true))) ==> channel in t.subscribed
    ensures Steady(s0, t, channel)
  {
    match a
    case By(i, act) =>
      hide Apply, Steady, Leaves;
      if act.Talk? { TalkSteady(s0, s, i, act.ok, t, channel); }
      else if act.Lock? { LockSteady(s0, s, i, t, channel); }
      else { CallSteady(s0, s, i, act, t, channel); }
    case Enter(op) => hide InUse, Carrying; EnterSteady(s0, s, op, channel);
    case Reconnect => ReconnectEnds(s, t, channel);
    case _ => hide InUse, Carrying, Deliveries; HistoriesGrow(s, a, t);
  }

  lemma ReconnectEnds(s: State, t: State, channel: string)
    requires Apply(s, Reconnect) == Some(t)
    ensures !Leaves(s, t, channel)
  {
    assert t.answers[|s.answers|] == Dropped;
  }

  lemma EnterSteady(s0: State, s: State, op: Op, channel: string)
    requires Steady(s0, s, channel)
    ensures Steady(s0, DoEnter(s, op), channel)
  {
    hide InUse, Carrying;
    var t := DoEnter(s, op);
    forall j | 0 <= j < |t.calls| && Agreed(t.calls[j], channel) ensures j < |s.calls| && Agreed(s.calls[j], channel) {}
  }

  lemma StartsSteady(s: State, channel: string)
    ensures Steady(s, s, channel)
  {
  }

  /** As long as the channel is undisturbed since s0, it is steady, and it is subscribed once it was asked for. */
  lemma {:induction false} StaysSteady(run: seq<Action>, s0: State, mid: seq<Action>, s: State, channel: string)
    requires After(run) == Some(s0) && After(run + mid) == Some(s) && Undisturbed(s0, s, channel)
    ensures Steady(s0, s, channel)
    ensures forall i :: By(i, SubscribeAgain(channel, true)) in mid ==> channel in s.subscribed
    decreases |mid|
  {
    hide Apply, Steady, Undisturbed;
    if mid == [] {
      assert run + mid == run;
      StartsSteady(s0, channel);
    } else {
      var n := |mid| - 1;
      var before := Before(run, mid, s);
      AllGrow(run, s0, mid[..n], before);
      UndisturbedBefore(s0, before, mid[n], s, channel);
      hide After;
      StaysSteady(run, s0, mid[..n], before, channel);
      assert Leaves(before, s, channel);
      StepSteady(s0, before, mid[n], s, channel);
      assert mid == mid[..n] + [mid[n]];
    }
  }

  lemma {:induction false} AllGrow(run: seq<Action>, s0: State, mid: seq<Action>, s: State)
    requires After(run) == Some(s0) && After(run + mid) == Some(s)
    ensures s0.answers <= s.answers && s0.log <= s.log && |s0.calls| <= |s.calls|
    ensures s0.stopped ==> s.stopped && forall j :: |s0.calls| <= j < |s.calls| && s.calls[j].op.Resubscribe? ==> s.calls[j].phase == Returned(false)
    decreases |mid|
  {
    hide Apply;
    if mid == [] {
      assert run + mid == run;
    } else {
      var n := |mid| - 1;
      var before := Before(run, mid, s);
      hide After;
      AllGrow(run, s0, mid[..n], before);
      HistoriesGrow(before, mid[n], s);
      if s0.stopped { RefusedStay(before, mid[n], s, |s0.calls|); }
    }
  }

  /** A resubscribe call that begins after the stop does nothing. */
  lemma RefusedStay(s: State, a: Action, t: State, n: nat)
    requires Apply(s, a) == Some(t) && s.stopped && n <= |s.calls|
    requires forall j :: n <= j < |s.calls| && s.calls[j].op.Resubscribe? ==> s.calls[j].phase == Returned(false)
    ensures forall j :: n <= j < |t.calls| && t.calls[j].op.Resubscribe? ==> t.calls[j].phase == Returned(false)
  {
    hide Local, Shared, Deliveries;
    if a.By? {
      OnlyCalls(s, a.i, a.act, t);
      LocalKeepsOp(s.calls[a.i], a.act, s.tables, s.once.Finished?, t.calls[a.i]);
      if s.calls[a.i].op.Resubscribe? && n <= a.i { ResubscribeSteps(s.calls[a.i], a.act, s.tables, s.once.Finished?, t.calls[a.i]); }
    }
  }

  // ---------- the exact condition ----------

  lemma {:induction false} AskedJoin(a: seq<Action>, b: seq<Action>, i: nat, channel: string)
    ensures Asked(a + b, i, channel) == Asked(a, i, channel) + Asked(b, i, channel)
    decreases |b|
  {
    if b == [] {
      assert a + b == a;
    } else {
      var n := |b| - 1;
      assert (a + b)[..|a + b| - 1] == a + b[..n] && (a + b)[|a + b| - 1] == b[n];
      AskedJoin(a, b[..n], i, channel);
    }
  }

  lemma {:induction false} AskedFinds(mid: seq<Action>, i: nat, channel: string)
    requires Asked(mid, i, channel) > 0
    ensures By(i, SubscribeAgain(channel, true)) in mid || By(i, SubscribeAgain(channel, false)) in mid
    decreases |mid|
  {
    var n := |mid| - 1;
    if AsksFor(mid[n], i, channel) {
      assert mid[n] == By(i, SubscribeAgain(channel, mid[n].act.ok));
    } else {
      AskedFinds(mid[..n], i, channel);
    }
  }

  /** A call has taken a step only if it had begun. */
  lemma {:induction false} StepsHaveCalls(run: seq<Action>, s: State, k: nat)
    requires After(run) == Some(s) && k < |run| && run[k].By?
    ensures run[k].i < |s.calls|
    decreases |run|
  {
    hide Local, Shared, Deliveries;
    var n := |run| - 1;
    if k < n { StepsHaveCalls(run[..n], After(run[..n]).value, k); }
  }

  /** If the channel had callbacks when the connection came back, the call has asked for it, with success. */
  lemma UsedIsAsked(run: seq<Action>, s0: State, mid: seq<Action>, s: State, i: nat, channel: string)
    requires After(run) == Some(s0) && Resubscribed(run, s0, mid, s, i, channel) && InUse(s0.tables, channel)
    ensures channel in s.subscribed
  {
    hide After, Apply, Asked, Used, InUse, Undisturbed, Steady;
    var all := run + mid;
    var k := ResubscribesEach(all, s, i);
    if k < |run| {
      assert run[k] == By(i, Lock);
      StepsHaveCalls(run, s0, k);
    }
    var m := k - |run|;
    assert all[..k] == run + mid[..m] && all == run + mid[..m] + mid[m..];
    var at := After(run + mid[..m]).value;
    AllGrow(run, s0, mid[..m], at);
    AllGrow(run + mid[..m], at, mid[m..], s);
    PrefixUndisturbed(s0, at, s, channel);
    StaysSteady(run, s0, mid[..m], at, channel);
    assert InUse(at.tables, channel) by { SteadyUses(s0, at, channel); }
    KeysAreUsed(all[..k], at, channel);
    AskedJoin(run, mid, i, channel);
    var unused := AskedSoFar(run, s0, i);
    assert Asked(run, i, channel) == 0;
    AskedFinds(mid, i, channel);
    StaysSteady(run, s0, mid, s, channel);
  }

  lemma SteadyUses(s0: State, s: State, channel: string)
    requires Steady(s0, s, channel) && InUse(s0.tables, channel)
    ensures InUse(s.tables, channel)
  {
  }

  lemma PrefixUndisturbed(s0: State, at: State, s: State, channel: string)
    requires s0.answers <= at.answers <= s.answers && s0.log <= at.log <= s.log && Undisturbed(s0, s, channel)
    ensures Undisturbed(s0, at, channel)
  {
    forall k | |s0.answers| <= k < |at.answers| ensures !Ends(at.answers[k], channel) { assert at.answers[k] == s.answers[k]; }
    forall k | |s0.log| <= k < |at.log| ensures !Removes(at.log[k], channel) { assert at.log[k] == s.log[k]; }
  }

  /** A resubscribe call asks for what it still has to, and is told that all is well. */
  lemma {:induction false} AsksAll(run: seq<Action>, s: State, i: nat, channel: string) returns (post: seq<Action>, t: State)
    requires After(run) == Some(s) && i < |s.calls| && s.calls[i].op.Resubscribe? && s.calls[i].phase.Pending?
    requires channel !in s.subscribed && channel !in s.calls[i].phase.channels
    ensures After(run + post) == Some(t) && t.calls == s.calls[i := s.calls[i].(phase := Returned(true))]
    ensures t.tables == s.tables && t.log == s.log
    ensures channel !in t.subscribed && Undisturbed(s, t, channel) && By(i, SubscribeAgain(channel, false)) !in post
    decreases |s.calls[i].phase.channels|
  {
    hide After;
    var c := s.calls[i];
    if c.phase.channels == {} {
      t := CallThen(run, s, i, Return, c.(phase := Returned(true)));
      post := [By(i, Return)];
    } else {
      var ch :| ch in c.phase.channels;
      var d := c.(phase := Pending(c.phase.channels - {ch}));
      var u := CallThen(run, s, i, SubscribeAgain(ch, true), d);
      var more;
      more, t := AsksAll(run + [By(i, SubscribeAgain(ch, true))], u, i, channel);
      post := [By(i, SubscribeAgain(ch, true))] + more;
      assert run + post == run + [By(i, SubscribeAgain(ch, true))] + more;
      assert s.answers <= u.answers <= t.answers && u.answers[|s.answers|] == Opened(ch);
    }
  }

  /** A resubscribe call from its beginning to its end, next to everything else standing still. */
  lemma ResubscribesAlone(run: seq<Action>, s0: State, channel: string) returns (mid: seq<Action>, s: State)
    requires After(run) == Some(s0) && s0.subscribed == {} && !s0.stopped && !InUse(s0.tables, channel)
    ensures After(run + mid) == Some(s) && s.calls == s0.calls + [NewCall(Resubscribe, Returned(true))]
    ensures s.tables == s0.tables && s.log == s0.log && channel !in s.subscribed && Undisturbed(s0, s, channel)
    ensures By(|s0.calls|, SubscribeAgain(channel, false)) !in mid
  {
    hide After, DoEnter;
    var i := |s0.calls|;
    EntersAgain(s0);
    var s1 := EnterThen(run, s0, Resubscribe);
    var channels := InMaps(s1.tables);
    var s2 := CallThen(run + [Enter(Resubscribe)], s1, i, Lock, s1.calls[i].(phase := Pending(channels)));
    assert s2.log == s0.log by { assert s0.log + [] == s0.log; }
    KeysAreUsed(run, s0, channel);
    var post;
    post, s := AsksAll(run + [Enter(Resubscribe)] + [By(i, Lock)], s2, i, channel);
    mid := [Enter(Resubscribe)] + [By(i, Lock)] + post;
    assert run + mid == run + [Enter(Resubscribe)] + [By(i, Lock)] + post;
  }

  /** A listen call that was agreed to before the connection was lost registers after the resubscribe call. */
  lemma CarriedOver(run: seq<Action>, s0: State, channel: string)
    requires After(run) == Some(s0) && s0.subscribed == {} && !s0.stopped
    requires !InUse(s0.tables, channel) && SomeCarrying(s0, channel)
    ensures !AlwaysRestored(run, s0, channel)
  {
    hide After, InUse;
    var j :| 0 <= j < |s0.calls| && Carrying(s0.calls[j], channel);
    var post, s := ResubscribesAlone(run, s0, channel);
    var c := s0.calls[j];
    var t := CallThen(run + post, s, j, Lock, c.(phase := Returned(true)));
    var mid := post + [By(j, Lock)];
    assert run + mid == run + post + [By(j, Lock)];
    CarriedInUse(s.tables, c.op, channel);
    assert Resubscribed(run, s0, mid, t, |s0.calls|, channel);
  }

  lemma EntersAgain(s: State)
    requires !s.stopped
    ensures DoEnter(s, Resubscribe) == s.(calls := s.calls + [NewCall(Resubscribe, Start)])
  {
  }

  lemma CarriedInUse(t: Tables, op: Op, channel: string)
    requires op.Listen? && op.channel == channel && (op.onNotify.Some? || op.onUnlisten.Some?)
    ensures InUse(LockedTables(op, t), channel)
  {
  }

  /** After a lost connection, a resubscribe call whose question about the channel the connection answers well leaves it
    * subscribed whenever it has callbacks and no unlisten or close of it comes in between, in every continuation, if and
    * only if the channel had callbacks when the connection came back, or no listen call that the lost connection had
    * agreed to still carries a callback for it, or the listener was stopped.
    */
  lemma RestoresIff(run: seq<Action>, s0: State, channel: string)
    requires run != [] && run[|run| - 1].Reconnect? && After(run) == Some(s0)
    ensures AlwaysRestored(run, s0, channel) <==>
      s0.stopped || InUse(s0.tables, channel) || !SomeCarrying(s0, channel)
  {
    hide InUse, SomeCarrying, Undisturbed, Steady;
    if s0.stopped || InUse(s0.tables, channel) || !SomeCarrying(s0, channel) {
      forall mid, s, i | Resubscribed(run, s0, mid, s, i, channel) && InUse(s.tables, channel)
        ensures channel in s.subscribed
      {
        hide After;
        AllGrow(run, s0, mid, s);
        if InUse(s0.tables, channel) {
          UsedIsAsked(run, s0, mid, s, i, channel);
        } else {
          StaysSteady(run, s0, mid, s, channel);
          SteadyMeans(s0, s, channel);
        }
      }
    } else {
      CarriedOver(run, s0, channel);
    }
  }

  lemma SteadyMeans(s0: State, s: State, channel: string)
    requires Steady(s0, s, channel) && InUse(s.tables, channel)
    ensures channel in s.subscribed || InUse(s0.tables, channel) || SomeCarrying(s0, channel)
  {
  }
}
