/** Races of the listener: when a channel in use is subscribed, and a registration that is late for a close. */
module ListenerRaces {
  import opened Common
  import opened Listener

  // ---------- channels in use that are not subscribed ----------

  predicate InUse(t: Tables, channel: string) { Bucket(t.notify, channel) != [] || Bucket(t.unlisten, channel) != [] }

  function AnswerThen(last: Option<Answer>, a: Answer, channel: string): Option<Answer> {
    if a == Opened(channel) || a == Closed(channel) || a == Disconnected || a == Dropped then Some(a) else last
  }

  /** What the connection last agreed to about the channel. */
  function LastAnswer(answers: seq<Answer>, channel: string): Option<Answer> {
    if answers == [] then None else AnswerThen(LastAnswer(answers[..|answers| - 1], channel), answers[|answers| - 1], channel)
  }

  predicate Concerns(e: Entry, channel: string) {
    match e
    case Add(ch, n, u) => ch == channel && (n.Some? || u.Some?)
    case Remove(ch) => ch == channel
    case Clear => true
  }

  function EntryThen(last: Option<Entry>, e: Entry, channel: string): Option<Entry> {
    if Concerns(e, channel) then Some(e) else last
  }

  /** The last critical section that changed what is registered for the channel. */
  function LastEntry(log: seq<Entry>, channel: string): Option<Entry> {
    if log == [] then None else EntryThen(LastEntry(log[..|log| - 1], channel), log[|log| - 1], channel)
  }

  predicate Adds(e: Option<Entry>) { e.Some? && e.value.Add? }

  /** A listen call on the channel that the connection has agreed to. */
  predicate Agreed(c: Call, channel: string) { c.op.Listen? && c.op.channel == channel && c.phase == Answered }

  /** The two histories say what the state is, and the connection is asked before anything is registered. */
  ghost predicate HistoriesOk(s: State, channel: string) {
    && (channel in s.subscribed <==> LastAnswer(s.answers, channel) == Some(Opened(channel)))
    && (InUse(s.tables, channel) <==> Adds(LastEntry(s.log, channel)))
    && (Adds(LastEntry(s.log, channel)) ==> LastAnswer(s.answers, channel).Some?)
    && (forall i :: 0 <= i < |s.calls| && Agreed(s.calls[i], channel) ==> LastAnswer(s.answers, channel).Some?)
  }

  lemma AnswersGrow(answers: seq<Answer>, a: Answer, channel: string)
    ensures LastAnswer(answers + [a], channel) == AnswerThen(LastAnswer(answers, channel), a, channel)
  {
    Grow(answers, a);
  }

  lemma LogGrows(log: seq<Entry>, e: Entry, channel: string)
    ensures LastEntry(log + [e], channel) == EntryThen(LastEntry(log, channel), e, channel)
  {
    Grow(log, e);
  }

  /** What a call's step does to the connection's side. */
  lemma AskedHistory(s: State, op: Op, ok: bool, channel: string)
    requires channel in s.subscribed <==> LastAnswer(s.answers, channel) == Some(Opened(channel))
    ensures var subscribed, answers := Subscribed(op, s.subscribed, ok), s.answers + Answers(op, ok);
            && (channel in subscribed <==> LastAnswer(answers, channel) == Some(Opened(channel)))
            && (LastAnswer(s.answers, channel).Some? ==> LastAnswer(answers, channel).Some?)
            && (op.Listen? && op.channel == channel && ok ==> LastAnswer(answers, channel).Some?)
  {
    if Answers(op, ok) == [] {
      assert s.answers + [] == s.answers;
    } else {
      AnswersGrow(s.answers, Answers(op, ok)[0], channel);
    }
  }

  /** What a critical section does to the tables. */
  lemma LockedHistory(s: State, op: Op, channel: string)
    requires InUse(s.tables, channel) <==> Adds(LastEntry(s.log, channel))
    ensures var tables, log := LockedTables(op, s.tables), s.log + Logged(op);
            && (InUse(tables, channel) <==> Adds(LastEntry(log, channel)))
            && (Adds(LastEntry(log, channel)) ==>
                  Adds(LastEntry(s.log, channel)) || (op.Listen? && op.channel == channel))
  {
    if op.Resubscribe? { assert s.log + [] == s.log; } else { LogGrows(s.log, Logged(op)[0], channel); }
  }

  lemma CallKeepsHistories(s: State, i: nat, act: Act, t: State, channel: string)
    requires HistoriesOk(s, channel) && Apply(s, By(i, act)) == Some(t)
    ensures HistoriesOk(t, channel)
  {
    hide LastAnswer, LastEntry, Subscribed, Answers, LockedTables, Logged, InUse, Local;
    var c := s.calls[i];
    OnlyCalls(s, i, act, t);
    LocalKeepsOp(c, act, s.tables, s.once.Finished?, t.calls[i]);
    match act
    case Talk(ok) => AskedHistory(s, c.op, ok, channel);
    case Lock => LockedHistory(s, c.op, channel);
    case SubscribeAgain(ch, ok) => if ok { AnswersGrow(s.answers, Opened(ch), channel); }
    case _ =>
  }

  lemma NoHistory(channel: string)
    ensures HistoriesOk(INIT, channel)
  {
  }

  lemma StepKeepsHistories(s: State, a: Action, t: State, channel: string)
    requires HistoriesOk(s, channel) && Apply(s, a) == Some(t)
    ensures HistoriesOk(t, channel)
  {
    hide Local, Shared, LastAnswer, LastEntry, InUse, Deliveries;
    match a
    case By(i, act) => hide HistoriesOk; CallKeepsHistories(s, i, act, t, channel);
    case Enter(op) => assert forall k :: 0 <= k < |s.calls| ==> t.calls[k] == s.calls[k];
    case Reconnect => AnswersGrow(s.answers, Dropped, channel);
    case _ =>
  }

  lemma {:induction false} Histories(run: seq<Action>, s: State, channel: string)
    requires After(run) == Some(s)
    ensures HistoriesOk(s, channel)
  {
    if run == [] {
      NoHistory(channel);
    } else {
      hide Apply, HistoriesOk;
      Histories(run[..|run| - 1], After(run[..|run| - 1]).value, channel);
      StepKeepsHistories(After(run[..|run| - 1]).value, run[|run| - 1], s, channel);
    }
  }

  /** A channel has callbacks without being subscribed exactly when the connection last agreed to stop listening on it,
    * by an unlisten or a close, or was lost, while the last critical section about it registered a callback.
    */
  lemma LostIff(run: seq<Action>, s: State, channel: string)
    requires After(run) == Some(s)
    ensures InUse(s.tables, channel) && channel !in s.subscribed
      <==> LastAnswer(s.answers, channel) in {Some(Closed(channel)), Some(Disconnected), Some(Dropped)} && Adds(LastEntry(s.log, channel))
  {
    Histories(run, s, channel);
    LastAnswerIs(s.answers, channel);
  }

  lemma {:induction false} LastAnswerIs(answers: seq<Answer>, channel: string)
    ensures var a := LastAnswer(answers, channel);
            a.Some? ==> a.value in {Opened(channel), Closed(channel), Disconnected, Dropped}
  {
    if answers != [] { LastAnswerIs(answers[..|answers| - 1], channel); }
  }

  // ---------- a rule for callers that keeps channels in use subscribed ----------

  /** The call has not yet been in its critical section. */
  predicate BeforeLock(c: Call) { c.phase.Start? || c.phase.Stopping? || c.phase.Answered? }

  predicate Listening(c: Call, channel: string) { c.op.Listen? && c.op.channel == channel && BeforeLock(c) }

  predicate Leaving(c: Call, channel: string) { (c.op == Unlisten(channel) || c.op.Close?) && BeforeLock(c) }

  /** No listen call on the channel overlaps an unlisten call on it, or the close that cleans up. */
  predicate Apart(s: State, channel: string) {
    forall i, j :: 0 <= i < |s.calls| && 0 <= j < |s.calls| && Listening(s.calls[i], channel) ==> !Leaving(s.calls[j], channel)
  }

  ghost predicate KeptApart(run: seq<Action>, channel: string) {
    && (After(run).Some? ==> Apart(After(run).value, channel))
    && (run != [] ==> !run[|run| - 1].Reconnect? && KeptApart(run[..|run| - 1], channel))
  }

  /** A channel in use is subscribed, unless a call that is about to remove it has told the connection already; and a
    * listen call that the connection agreed to still has its subscription.
    */
  ghost predicate InUseSubscribed(s: State, channel: string) {
    && (InUse(s.tables, channel) && channel !in s.subscribed ==>
          exists j :: 0 <= j < |s.calls| && Leaving(s.calls[j], channel) && s.calls[j].phase == Answered)
    && (forall i :: 0 <= i < |s.calls| && Agreed(s.calls[i], channel) ==> channel in s.subscribed)
  }

  lemma LocalKeepsOp(c: Call, act: Act, t: Tables, cleaned: bool, d: Call)
    requires Local(c, act, t, cleaned) == Some(d)
    ensures d.op == c.op
    ensures !act.Talk? && !act.Lock? && !act.CloseStop? ==>
              (BeforeLock(c) ==> d.phase == c.phase) && (d.phase == Answered ==> c.phase == Answered)
    ensures act.Talk? && d.phase == Answered ==> act.ok || c.op.Close?
    ensures act.Talk? ==> BeforeLock(c) && c.phase != Answered
    ensures act.Lock? && !c.op.Resubscribe? ==> c.phase == Answered
    ensures act.Lock? ==> d.phase != Answered
    ensures act.CloseStop? ==> c.op.Close? && c.phase == Start && d.phase == Stopping
  {
    hide Drained, Taking;
  }

  lemma TalkKeepsSubscribed(s: State, i: nat, ok: bool, t: State, channel: string)
    requires InUseSubscribed(s, channel) && Apart(s, channel) && Apply(s, By(i, Talk(ok))) == Some(t)
    ensures InUseSubscribed(t, channel)
  {
    hide Local, InUse, Answers;
    var c, d := s.calls[i], t.calls[i];
    OnlyCalls(s, i, Talk(ok), t);
    LocalKeepsOp(c, Talk(ok), s.tables, s.once.Finished?, d);
    TalkedPhase(c, ok, s.tables, s.once.Finished?, d);
    if Leaving(c, channel) && d.phase == Answered {
      assert Leaving(d, channel);
      assert forall k :: 0 <= k < |s.calls| ==> !Listening(s.calls[k], channel);
    } else {
      assert channel in s.subscribed ==> channel in t.subscribed;
      if InUse(t.tables, channel) && channel !in t.subscribed {
        var j :| 0 <= j < |s.calls| && Leaving(s.calls[j], channel) && s.calls[j].phase == Answered;
        assert j != i;
        assert t.calls[j] == s.calls[j];
      }
    }
  }

  lemma TalkedPhase(c: Call, ok: bool, t: Tables, cleaned: bool, d: Call)
    requires Local(c, Talk(ok), t, cleaned) == Some(d)
    ensures d.phase == Answered <==> ok || c.op.Close?
    ensures !c.op.Resubscribe?
  {
  }

  lemma LockKeepsSubscribed(s: State, i: nat, t: State, channel: string)
    requires InUseSubscribed(s, channel) && Apart(s, channel) && Apply(s, By(i, Lock)) == Some(t)
    ensures InUseSubscribed(t, channel)
  {
    hide Local, Logged;
    var c, d := s.calls[i], t.calls[i];
    OnlyCalls(s, i, Lock, t);
    LocalKeepsOp(c, Lock, s.tables, s.once.Finished?, d);
    if InUse(t.tables, channel) && channel !in t.subscribed {
      assert !Leaving(c, channel);
      assert InUse(s.tables, channel);
      var j :| 0 <= j < |s.calls| && Leaving(s.calls[j], channel) && s.calls[j].phase == Answered;
      assert t.calls[j] == s.calls[j];
    }
  }

  lemma OtherKeepsSubscribed(s: State, i: nat, act: Act, t: State, channel: string)
    requires InUseSubscribed(s, channel) && Apply(s, By(i, act)) == Some(t) && !act.Talk? && !act.Lock?
    ensures InUseSubscribed(t, channel)
  {
    hide Local, InUse;
    var c, d := s.calls[i], t.calls[i];
    OnlyCalls(s, i, act, t);
    LocalKeepsOp(c, act, s.tables, s.once.Finished?, d);
    if InUse(t.tables, channel) && channel !in t.subscribed {
      var j :| 0 <= j < |s.calls| && Leaving(s.calls[j], channel) && s.calls[j].phase == Answered;
      assert Leaving(t.calls[j], channel) && t.calls[j].phase == Answered;
    }
  }

  lemma {:induction false} KeptApartSubscribed(run: seq<Action>, s: State, channel: string)
    requires After(run) == Some(s) && KeptApart(run, channel)
    ensures InUseSubscribed(s, channel)
  {
    if run != [] {
      var before, a := After(run[..|run| - 1]).value, run[|run| - 1];
      KeptApartSubscribed(run[..|run| - 1], before, channel);
      hide Local, Shared, InUse, Deliveries, Apart;
      match a
      case By(i, act) =>
        if act.Talk? { TalkKeepsSubscribed(before, i, act.ok, s, channel); }
        else if act.Lock? { LockKeepsSubscribed(before, i, s, channel); }
        else { OtherKeepsSubscribed(before, i, act, s, channel); }
      case Enter(op) => EnterKeepsSubscribed(before, op, channel);
      case _ =>
    }
  }

  lemma EnterKeepsSubscribed(s: State, op: Op, channel: string)
    requires InUseSubscribed(s, channel)
    ensures InUseSubscribed(DoEnter(s, op), channel)
  {
    hide InUse;
    var t := DoEnter(s, op);
    if InUse(t.tables, channel) && channel !in t.subscribed {
      var j :| 0 <= j < |s.calls| && Leaving(s.calls[j], channel) && s.calls[j].phase == Answered;
      assert t.calls[j] == s.calls[j];
    }
  }

  /** If no listen call on a channel overlaps an unlisten call on it or the close, and the connection is not lost, the
    * channel is subscribed whenever it has callbacks and no call is in progress. LostSubscription shows that the rule
    * is needed; what holds after a lost connection is in ListenerReconnect.
    */
  lemma ApartKeepsSubscribed(run: seq<Action>, s: State, channel: string)
    requires After(run) == Some(s) && KeptApart(run, channel) && Quiet(s)
    ensures InUse(s.tables, channel) ==> channel in s.subscribed
  {
    KeptApartSubscribed(run, s, channel);
  }

  // ---------- runs, step by step ----------

  lemma OneMore(run: seq<Action>, a: Action)
    ensures After(run + [a]) == match After(run) { case None => None case Some(s) => Apply(s, a) }
  {
    Grow(run, a);
  }

  lemma Then(run: seq<Action>, s: State, a: Action, t: State)
    requires After(run) == Some(s) && Apply(s, a) == Some(t)
    ensures After(run + [a]) == Some(t)
  {
    OneMore(run, a);
  }

  lemma CallThen(run: seq<Action>, s: State, i: nat, act: Act, d: Call) returns (t: State)
    requires After(run) == Some(s) && i < |s.calls| && Local(s.calls[i], act, s.tables, s.once.Finished?) == Some(d)
    ensures t == Shared(s, i, s.calls[i], act).(calls := s.calls[i := d])
    ensures After(run + [By(i, act)]) == Some(t)
  {
    hide Local, Shared;
    t := Shared(s, i, s.calls[i], act).(calls := s.calls[i := d]);
    Then(run, s, By(i, act), t);
  }

  lemma EnterThen(run: seq<Action>, s: State, op: Op) returns (t: State)
    requires After(run) == Some(s)
    ensures t == DoEnter(s, op) && After(run + [Enter(op)]) == Some(t)
  {
    hide DoEnter;
    t := DoEnter(s, op);
    Then(run, s, Enter(op), t);
  }

  const LATE := Listen("jobs", None, Some(7))

  lemma LateRegistrationStart() returns (run: seq<Action>, s: State)
    ensures After(run) == Some(s) && s.calls == [NewCall(LATE, Answered), NewCall(Close, Stopping)]
    ensures s.stopped && s.once == Busy(1) && s.tables == NO_TABLES && s.log == [] && s.begun == multiset{}
  {
    hide After, Apply;
    hide Deliveries;
    var s0 := INIT;
    assert After([]) == Some(s0) by { NoRun(); }
    var s1 := EnterThen([], s0, LATE);
    var s2 := CallThen([] + [Enter(LATE)], s1, 0, Talk(true), NewCall(LATE, Answered));
    var run2 := [] + [Enter(LATE)] + [By(0, Talk(true))];
    var s3 := EnterThen(run2, s2, Close);
    s := CallThen(run2 + [Enter(Close)], s3, 1, CloseStop, NewCall(Close, Stopping));
    run := run2 + [Enter(Close)] + [By(1, CloseStop)];
  }

  lemma NoRun()
    ensures After([]) == Some(INIT)
  {
  }

  /** A listen call that passed its test before the close, and registers after the cleanup: everything has
    * returned, and its unlisten callback stays in the map of a stopped listener.
    */
  lemma LateRegistration() returns (run: seq<Action>, s: State)
    ensures After(run) == Some(s) && Quiet(s) && |s.calls| == 2
    ensures s.stopped && s.once.Finished? && s.calls[0].phase == s.calls[1].phase == Returned(true)
    ensures Bucket(s.tables.unlisten, "jobs") == [7] && s.begun == multiset{}
  {
    hide After, Apply;
    var run4, s4 := LateRegistrationStart();
    var s5 := CallThen(run4, s4, 1, Talk(true), NewCall(Close, Answered));
    var run5 := run4 + [By(1, Talk(true))];
    var s6 := CallThen(run5, s5, 1, Lock, NewCall(Close, Starting));
    var run6 := run5 + [By(1, Lock)];
    var s7 := CallThen(run6, s6, 1, Return, NewCall(Close, Returned(true)));
    var run7 := run6 + [By(1, Return)];
    s := CallThen(run7, s7, 0, Lock, NewCall(LATE, Returned(true)));
    run := run7 + [By(0, Lock)];
  }

  const FIRST := Listen("jobs", Some(1), None)
  const SECOND := Listen("jobs", Some(2), None)
  const DROP := Unlisten("jobs")

  lemma OneCallback(channel: string, c: Callback)
    ensures Append(map[], channel, Some(c)) == map[channel := [c]]
  {
    assert Bucket(map[], channel) + [c] == [c];
  }

  lemma LostSubscriptionStart() returns (run: seq<Action>, s: State)
    ensures After(run) == Some(s)
    ensures s.calls == [NewCall(FIRST, Returned(true)), NewCall(SECOND, Answered), NewCall(DROP, Start)]
    ensures !s.stopped && s.once == Fresh && s.tables == Tables(map["jobs" := [1]], map[])
  {
    hide After, Apply;
    assert After([]) == Some(INIT) by { NoRun(); }
    var s1 := EnterThen([], INIT, FIRST);
    var run1 := [] + [Enter(FIRST)];
    var s2 := CallThen(run1, s1, 0, Talk(true), NewCall(FIRST, Answered));
    var run2 := run1 + [By(0, Talk(true))];
    var s3 := CallThen(run2, s2, 0, Lock, NewCall(FIRST, Returned(true)));
    var run3 := run2 + [By(0, Lock)];
    OneCallback("jobs", 1);
    var s4 := EnterThen(run3, s3, SECOND);
    var run4 := run3 + [Enter(SECOND)];
    var s5 := CallThen(run4, s4, 1, Talk(true), NewCall(SECOND, Answered));
    var run5 := run4 + [By(1, Talk(true))];
    s := EnterThen(run5, s5, DROP);
    run := run5 + [Enter(DROP)];
  }

  /** A listen call told that the channel is open already, then an unlisten call, then the listen call's
    * registration: every call succeeds, and a callback is registered for a channel that is not subscribed.
    */
  lemma LostSubscription() returns (run: seq<Action>, s: State)
    ensures After(run) == Some(s) && Quiet(s) && !s.stopped && |s.calls| == 3
    ensures forall i :: 0 <= i < 3 ==> s.calls[i].phase == Returned(true)
    ensures Bucket(s.tables.notify, "jobs") == [2] && "jobs" !in s.subscribed
  {
    hide After, Apply;
    var run6, s6 := LostSubscriptionStart();
    var s7 := CallThen(run6, s6, 2, Talk(true), NewCall(DROP, Answered));
    var run7 := run6 + [By(2, Talk(true))];
    var taken := NewCall(DROP, Starting).(todo := map["jobs" := []], taken := map["jobs" := []]);
    var s8 := CallThen(run7, s7, 2, Lock, taken);
    var run8 := run7 + [By(2, Lock)];
    var s9 := CallThen(run8, s8, 2, Return, taken.(phase := Returned(true)));
    var run9 := run8 + [By(2, Return)];
    s := CallThen(run9, s9, 1, Lock, NewCall(SECOND, Returned(true)));
    run := run9 + [By(1, Lock)];
  }
}
