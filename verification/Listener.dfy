/** The LISTEN/NOTIFY listener: its critical sections, and every interleaving of them. */
module Listener {
  import opened Common

  /** A callback function, known by a number. */
  type Callback = int

  /** An unlisten callback as registered: the channel it will be called with, and the function. */
  datatype Registration = Registration(channel: string, callback: Callback)

  /** A notify callback started with a notification's channel and payload. */
  datatype Delivery = Delivery(callback: Callback, channel: string, payload: string)

  type Buckets = map<string, seq<Callback>>

  /** The two maps that callbacksMtx guards. */
  datatype Tables = Tables(notify: Buckets, unlisten: Buckets)

  const NO_TABLES := Tables(map[], map[])

  function Bucket(m: Buckets, channel: string): seq<Callback> {
    if channel in m then m[channel] else []
  }

  function Append(m: Buckets, channel: string, callback: Option<Callback>): Buckets {
    match callback
    case None => m
    case Some(c) => m[channel := Bucket(m, channel) + [c]]
  }

  function Added(t: Tables, channel: string, onNotify: Option<Callback>, onUnlisten: Option<Callback>): Tables {
    Tables(Append(t.notify, channel, onNotify), Append(t.unlisten, channel, onUnlisten))
  }

  function Removed(t: Tables, channel: string): Tables {
    Tables(t.notify - {channel}, t.unlisten - {channel})
  }

  /** The channels to subscribe again after a reconnect. */
  function InMaps(t: Tables): set<string> { t.notify.Keys + t.unlisten.Keys }

  function Deliveries(callbacks: seq<Callback>, channel: string, payload: string): (r: seq<Delivery>)
    ensures |r| == |callbacks|
    ensures forall i :: 0 <= i < |r| ==> r[i] == Delivery(callbacks[i], channel, payload)
  {
    seq(|callbacks|, i requires 0 <= i < |callbacks| => Delivery(callbacks[i], channel, payload))
  }

  // ---------- the critical sections, as the Go code has them ----------

  class Guarded {
    var notifyCallbacks: Buckets
    var unlistenCallbacks: Buckets

    constructor ()
      ensures Now() == NO_TABLES
    {
      notifyCallbacks, unlistenCallbacks := map[], map[];
    }

    function Now(): Tables
      reads this
    {
      Tables(notifyCallbacks, unlistenCallbacks)
    }

    method Register(channel: string, onNotify: Option<Callback>, onUnlisten: Option<Callback>)
      modifies this
      ensures Now() == Added(old(Now()), channel, onNotify, onUnlisten)
    {
      if onNotify.Some? {
        notifyCallbacks := notifyCallbacks[channel := Bucket(notifyCallbacks, channel) + [onNotify.value]];
      }
      if onUnlisten.Some? {
        unlistenCallbacks := unlistenCallbacks[channel := Bucket(unlistenCallbacks, channel) + [onUnlisten.value]];
      }
    }

    method Take(channel: string) returns (callbacks: seq<Callback>)
      modifies this
      ensures callbacks == Bucket(old(unlistenCallbacks), channel)
      ensures Now() == Removed(old(Now()), channel)
    {
      callbacks := Bucket(unlistenCallbacks, channel);
      notifyCallbacks := notifyCallbacks - {channel};
      unlistenCallbacks := unlistenCallbacks - {channel};
    }

    method TakeAll() returns (callbacks: Buckets)
      modifies this
      ensures callbacks == old(unlistenCallbacks) && Now() == NO_TABLES
    {
      callbacks := unlistenCallbacks;
      notifyCallbacks, unlistenCallbacks := map[], map[];
    }

    method Notify(channel: string, payload: string) returns (started: seq<Delivery>)
      ensures started == Deliveries(Bucket(notifyCallbacks, channel), channel, payload)
    {
      started := [];
      var callbacks := Bucket(notifyCallbacks, channel);
      for i := 0 to |callbacks|
        invariant started == Deliveries(callbacks, channel, payload)[..i]
      {
        started := started + [Delivery(callbacks[i], channel, payload)];
      }
    }

    /** The channels to subscribe again after a reconnect: every one in use, and each once. */
    method Channels() returns (channels: seq<string>)
      ensures forall ch :: ch in channels <==> ch in InMaps(Now())
      ensures forall i, j :: 0 <= i < j < |channels| ==> channels[i] != channels[j]
    {
      channels := [];
      var keys := notifyCallbacks.Keys;
      while keys != {}
        invariant keys <= notifyCallbacks.Keys
        invariant forall ch :: ch in channels <==> ch in notifyCallbacks.Keys - keys
        invariant forall i, j :: 0 <= i < j < |channels| ==> channels[i] != channels[j]
      {
        var ch :| ch in keys;
        assert ch !in channels;
        channels := channels + [ch];
        keys := keys - {ch};
      }
      keys := unlistenCallbacks.Keys;
      while keys != {}
        invariant keys <= unlistenCallbacks.Keys
        invariant forall ch :: ch in channels <==> ch in notifyCallbacks || ch in unlistenCallbacks.Keys - keys
        invariant forall i, j :: 0 <= i < j < |channels| ==> channels[i] != channels[j]
      {
        var ch :| ch in keys;
        if ch !in notifyCallbacks {
          assert ch !in channels;
          channels := channels + [ch];
        }
        keys := keys - {ch};
      }
    }

    method IsListening(channel: string) returns (listening: bool)
      ensures listening <==> Bucket(notifyCallbacks, channel) != [] || Bucket(unlistenCallbacks, channel) != []
    {
      listening := |Bucket(notifyCallbacks, channel)| > 0 || |Bucket(unlistenCallbacks, channel)| > 0;
    }
  }

  // ---------- the calls in progress and what they do next ----------

  datatype Op =
    | Listen(channel: string, onNotify: Option<Callback>, onUnlisten: Option<Callback>)
    | Unlisten(channel: string)
    | Close
    | Resubscribe

  /** How far a call is. Start: past its isStopped test, or the winner of stopOnce.
    * Stopping: a close that has closed the stop channel. Answered: the connection has done its part.
    * Starting: holding callbacks it took, starting a goroutine for each, then waiting for all.
    * Blocked: a close that found stopOnce in use. Pending: channels still to subscribe again.
    */
  datatype Phase =
    | Start
    | Stopping
    | Answered
    | Starting
    | Blocked
    | Pending(channels: set<string>)
    | Returned(ok: bool)

  /** todo: taken, goroutine not yet started. ready: goroutine started, callback not yet called.
    * active: callback called, not yet back. wg: the WaitGroup's counter. taken, done: what the call took in
    * its critical section, and which callbacks it has completed.
    */
  datatype Call = Call(op: Op, phase: Phase, todo: Buckets, ready: multiset<Registration>, active: multiset<Registration>,
                       wg: int, taken: Buckets, done: multiset<Registration>)

  function NewCall(op: Op, phase: Phase): Call {
    Call(op, phase, map[], multiset{}, multiset{}, 0, map[], multiset{})
  }

  datatype Once = Fresh | Busy(winner: nat) | Finished(winner: nat)

  /** What the critical sections did, in the order in which they held the lock. */
  datatype Entry =
    | Add(channel: string, onNotify: Option<Callback>, onUnlisten: Option<Callback>)
    | Remove(channel: string)
    | Clear

  /** What the connection agreed to, in the order in which it did, and where a lost connection dropped it all. */
  datatype Answer = Opened(channel: string) | Closed(channel: string) | Disconnected | Dropped

  datatype State = State(stopped: bool, once: Once, tables: Tables, subscribed: set<string>, calls: seq<Call>, log: seq<Entry>,
                         answers: seq<Answer>, begun: multiset<Registration>, finished: multiset<Registration>,
                         started: multiset<Delivery>, delivered: multiset<Delivery>)

  const INIT := State(false, Fresh, NO_TABLES, {}, [], [], [], multiset{}, multiset{}, multiset{}, multiset{})

  /** What a call, or a goroutine it started, can do next. ok is the connection's answer: no error, or for a
    * subscription that the channel is open already.
    */
  datatype Act =
    | Talk(ok: bool)
    | CloseStop
    | Lock
    | SubscribeAgain(channel: string, ok: bool)
    | Spawn(channel: string)
    | Begin(reg: Registration)
    | End(reg: Registration)
    | Return

  /** One atomic action: a new call, a step of call i, a notification, a notify callback called, or a connection lost
    * and made anew, whose server session has no subscriptions.
    */
  datatype Action =
    | Enter(op: Op)
    | By(i: nat, act: Act)
    | Notify(channel: string, payload: string)
    | Deliver(delivery: Delivery)
    | Reconnect

  function DoEnter(s: State, op: Op): State {
    if !op.Close? then s.(calls := s.calls + [NewCall(op, if s.stopped then Returned(false) else Start)])
    else if s.once.Fresh? then s.(calls := s.calls + [NewCall(op, Start)], once := Busy(|s.calls|))
    else s.(calls := s.calls + [NewCall(op, Blocked)])
  }

  predicate Drained(m: Buckets) { forall ch :: ch in m ==> m[ch] == [] }

  /** The callbacks that a call's critical section takes out of the map. */
  function Taking(op: Op, t: Tables): Buckets {
    match op
    case Unlisten(ch) => map[ch := Bucket(t.unlisten, ch)]
    case Close => t.unlisten
    case _ => map[]
  }

  function InLock(c: Call, t: Tables): Option<Call> {
    match c.op
    case Resubscribe =>
      if c.phase == Start then Some(c.(phase := Pending(InMaps(t)))) else None
    case Listen(_, _, _) =>
      if c.phase == Answered then Some(c.(phase := Returned(true))) else None
    case _ =>
      if c.phase == Answered then Some(c.(phase := Starting, todo := Taking(c.op, t), taken := Taking(c.op, t))) else None
  }

  function Talked(c: Call, ok: bool): Option<Call> {
    match c.op
    case Resubscribe => None
    case Close => if c.phase == Stopping then Some(c.(phase := Answered)) else None
    case _ => if c.phase == Start then Some(c.(phase := if ok then Answered else Returned(false))) else None
  }

  function Finish(c: Call, cleaned: bool): Option<Call> {
    var back := Some(c.(phase := Returned(true)));
    match c.phase
    case Starting => if Drained(c.todo) && c.wg == 0 then back else None
    case Blocked => if cleaned then back else None
    case Pending(channels) => if channels == {} then back else None
    case _ => None
  }

  /** The call after the step, or None when it cannot take it; cleaned: stopOnce is done. */
  function Local(c: Call, act: Act, t: Tables, cleaned: bool): Option<Call> {
    match act
    case Talk(ok) => Talked(c, ok)
    case CloseStop => if c.op.Close? && c.phase == Start then Some(c.(phase := Stopping)) else None
    case Lock => InLock(c, t)
    case SubscribeAgain(ch, _) =>
      if c.phase.Pending? && ch in c.phase.channels then Some(c.(phase := Pending(c.phase.channels - {ch}))) else None
    case Spawn(ch) =>
      var left := Bucket(c.todo, ch);
      if c.phase != Starting || left == [] then None
      else Some(c.(todo := c.todo[ch := left[1..]], ready := c.ready + multiset{Registration(ch, left[0])}, wg := c.wg + 1))
    case Begin(r) =>
      if r in c.ready then Some(c.(ready := c.ready - multiset{r}, active := c.active + multiset{r})) else None
    case End(r) =>
      if r in c.active then Some(c.(active := c.active - multiset{r}, done := c.done + multiset{r}, wg := c.wg - 1)) else None
    case Return => Finish(c, cleaned)
  }

  function LockedTables(op: Op, t: Tables): Tables {
    match op
    case Listen(ch, n, u) => Added(t, ch, n, u)
    case Unlisten(ch) => Removed(t, ch)
    case Close => NO_TABLES
    case Resubscribe => t
  }

  function Logged(op: Op): seq<Entry> {
    match op
    case Listen(ch, n, u) => [Add(ch, n, u)]
    case Unlisten(ch) => [Remove(ch)]
    case Close => [Clear]
    case Resubscribe => []
  }

  function Subscribed(op: Op, channels: set<string>, ok: bool): set<string> {
    match op
    case Listen(ch, _, _) => if ok then channels + {ch} else channels
    case Unlisten(ch) => if ok then channels - {ch} else channels
    case Close => {}
    case Resubscribe => channels
  }

  function Answers(op: Op, ok: bool): seq<Answer> {
    match op
    case Listen(ch, _, _) => if ok then [Opened(ch)] else []
    case Unlisten(ch) => if ok then [Closed(ch)] else []
    case Close => [Disconnected]
    case Resubscribe => []
  }

  /** What a step of call i does to everything that calls share. */
  function Shared(s: State, i: nat, c: Call, act: Act): State {
    match act
    case Talk(ok) => s.(subscribed := Subscribed(c.op, s.subscribed, ok), answers := s.answers + Answers(c.op, ok))
    case CloseStop => s.(stopped := true)
    case Lock => s.(tables := LockedTables(c.op, s.tables), log := s.log + Logged(c.op))
    case SubscribeAgain(ch, ok) => if ok then s.(subscribed := s.subscribed + {ch}, answers := s.answers + [Opened(ch)]) else s
    case Spawn(_) => s
    case Begin(r) => s.(begun := s.begun + multiset{r})
    case End(r) => s.(finished := s.finished + multiset{r})
    case Return => if c.op.Close? && c.phase == Starting then s.(once := Finished(i)) else s
  }

  function Apply(s: State, a: Action): Option<State> {
    match a
    case Enter(op) => Some(DoEnter(s, op))
    case Notify(ch, payload) =>
      Some(s.(started := s.started + multiset(Deliveries(Bucket(s.tables.notify, ch), ch, payload))))
    case Deliver(d) =>
      if s.delivered[d] < s.started[d] then Some(s.(delivered := s.delivered + multiset{d})) else None
    case Reconnect => Some(s.(subscribed := {}, answers := s.answers + [Dropped]))
    case By(i, act) =>
      if |s.calls| <= i then None
      else
        var c := s.calls[i];
        match Local(c, act, s.tables, s.once.Finished?)
        case None => None
        case Some(d) => Some(Shared(s, i, c, act).(calls := s.calls[i := d]))
  }

  /** The state after a run, or None when one of its actions was not possible. */
  function After(run: seq<Action>): Option<State> {
    if run == [] then Some(INIT)
    else
      match After(run[..|run| - 1])
      case None => None
      case Some(s) => Apply(s, run[|run| - 1])
  }

  // ---------- reference definitions over the log ----------

  /** What one entry makes of the notify callbacks that a channel has. */
  function NotifyThen(live: seq<Callback>, e: Entry, channel: string): seq<Callback> {
    match e
    case Add(ch, n, _) => if ch == channel && n.Some? then live + [n.value] else live
    case Remove(ch) => if ch == channel then [] else live
    case Clear => []
  }

  function UnlistenThen(live: seq<Callback>, e: Entry, channel: string): seq<Callback> {
    match e
    case Add(ch, _, u) => if ch == channel && u.Some? then live + [u.value] else live
    case Remove(ch) => if ch == channel then [] else live
    case Clear => []
  }

  /** The notify callbacks registered for the channel since it was last removed, oldest first. */
  function LiveNotify(log: seq<Entry>, channel: string): seq<Callback> {
    if log == [] then [] else NotifyThen(LiveNotify(log[..|log| - 1], channel), log[|log| - 1], channel)
  }

  function LiveUnlisten(log: seq<Entry>, channel: string): seq<Callback> {
    if log == [] then [] else UnlistenThen(LiveUnlisten(log[..|log| - 1], channel), log[|log| - 1], channel)
  }

  /** Every unlisten callback ever registered. */
  function Registered(log: seq<Entry>): multiset<Registration> {
    if log == [] then multiset{}
    else
      Registered(log[..|log| - 1]) +
      match log[|log| - 1]
      case Add(ch, _, Some(u)) => multiset{Registration(ch, u)}
      case _ => multiset{}
  }

  function Clears(log: seq<Entry>): nat {
    if log == [] then 0 else Clears(log[..|log| - 1]) + if log[|log| - 1].Clear? then 1 else 0
  }

  function Count(m: Buckets, r: Registration): nat { multiset(Bucket(m, r.channel))[r.callback] }

  /** Taken by a call, but not yet called. */
  function Held(calls: seq<Call>, r: Registration): nat {
    if calls == [] then 0
    else Held(calls[..|calls| - 1], r) + Count(calls[|calls| - 1].todo, r) + calls[|calls| - 1].ready[r]
  }

  function Active(calls: seq<Call>, r: Registration): nat {
    if calls == [] then 0 else Active(calls[..|calls| - 1], r) + calls[|calls| - 1].active[r]
  }

  // ---------- what every state of every run satisfies ----------

  /** Every registration is in the map, or taken and not yet called, or called; and called is running or back. */
  predicate Conserves(s: State, r: Registration) {
    && Registered(s.log)[r] == Count(s.tables.unlisten, r) + Held(s.calls, r) + s.begun[r]
    && s.begun[r] == Active(s.calls, r) + s.finished[r]
  }

  ghost predicate Conserved(s: State) { forall r :: Conserves(s, r) }

  predicate Mirrors(s: State, ch: string) {
    Bucket(s.tables.notify, ch) == LiveNotify(s.log, ch) && Bucket(s.tables.unlisten, ch) == LiveUnlisten(s.log, ch)
  }

  ghost predicate TablesAreLog(s: State) { forall ch :: Mirrors(s, ch) }

  predicate Accounts(c: Call, r: Registration) {
    Count(c.taken, r) == Count(c.todo, r) + c.ready[r] + c.active[r] + c.done[r]
  }

  predicate Early(c: Call) { c.phase.Start? || c.phase.Stopping? || c.phase.Answered? || c.phase.Blocked? }

  /** A call's goroutines: the WaitGroup counts those not yet back; before the call takes callbacks there are none,
    * and when it has returned all it took are done.
    */
  ghost predicate CallOk(c: Call) {
    && c.wg == |c.ready| + |c.active|
    && (forall r :: Accounts(c, r))
    && (c.phase != Starting ==> Drained(c.todo) && c.wg == 0)
    && (Early(c) ==> c.taken == map[])
  }

  /** The phases that a call of each kind goes through. */
  predicate OnPath(c: Call) {
    c.phase.Returned? ||
    match c.op
    case Listen(_, _, _) => c.phase == Start || c.phase == Answered
    case Unlisten(_) => c.phase == Start || c.phase == Answered || c.phase == Starting
    case Close => Cleaning(c) || c.phase == Blocked
    case Resubscribe => c.phase == Start || c.phase.Pending?
  }

  ghost predicate CallsOk(s: State) { forall i :: 0 <= i < |s.calls| ==> CallOk(s.calls[i]) && OnPath(s.calls[i]) }

  predicate Loser(c: Call, finished: bool) { c.phase == Blocked || (finished && c.phase == Returned(true)) }

  predicate Cleaning(c: Call) { c.phase.Start? || c.phase.Stopping? || c.phase.Answered? || c.phase.Starting? }

  predicate Losers(calls: seq<Call>, winner: nat, finished: bool) {
    forall i :: 0 <= i < |calls| && calls[i].op.Close? && i != winner ==> Loser(calls[i], finished)
  }

  /** Only the winner of stopOnce goes through the cleanup; every other close waits for it. */
  ghost predicate OnceOk(s: State) {
    match s.once
    case Fresh => !s.stopped && Clears(s.log) == 0 && forall i :: 0 <= i < |s.calls| ==> !s.calls[i].op.Close?
    case Busy(w) =>
      && w < |s.calls| && s.calls[w].op.Close? && Cleaning(s.calls[w])
      && (s.stopped <==> s.calls[w].phase != Start)
      && Clears(s.log) == (if s.calls[w].phase == Starting then 1 else 0)
      && Losers(s.calls, w, false)
    case Finished(w) =>
      && w < |s.calls| && s.calls[w].op.Close? && s.calls[w].phase == Returned(true)
      && s.stopped && Clears(s.log) == 1
      && Losers(s.calls, w, true)
  }

  predicate DeliveryOk(s: State) { s.delivered <= s.started }

  ghost predicate Inv(s: State) {
    Conserved(s) && CallsOk(s) && TablesAreLog(s) && OnceOk(s) && DeliveryOk(s)
  }

  // ---------- one call ----------

  lemma TakenAccounts(c: Call, t: Tables, d: Call)
    requires CallOk(c) && c.phase == Answered && (c.op.Unlisten? || c.op.Close?) && InLock(c, t) == Some(d)
    ensures CallOk(d)
  {
    hide Taking;
    assert c.ready == multiset{} && c.active == multiset{} by { Nothing(c.ready); Nothing(c.active); }
    forall r ensures Accounts(d, r) { assert Accounts(c, r); }
  }

  lemma Nothing(m: multiset<Registration>)
    ensures |m| == 0 ==> m == multiset{}
  {
  }

  lemma SpawnMoves(c: Call, ch: string, r: Registration)
    requires Bucket(c.todo, ch) != []
    ensures var left := Bucket(c.todo, ch);
            Count(c.todo, r) == Count(c.todo[ch := left[1..]], r) + multiset{Registration(ch, left[0])}[r]
  {
    var left := Bucket(c.todo, ch);
    assert left == [left[0]] + left[1..];
  }

  lemma SpawnOk(c: Call, ch: string, t: Tables, d: Call)
    requires CallOk(c) && Local(c, Spawn(ch), t, false) == Some(d)
    ensures CallOk(d)
  {
    hide Count, Drained;
    forall r ensures Accounts(d, r) { assert Accounts(c, r); SpawnMoves(c, ch, r); }
  }

  lemma BeginOk(c: Call, r: Registration, t: Tables, d: Call)
    requires CallOk(c) && Local(c, Begin(r), t, false) == Some(d)
    ensures CallOk(d)
  {
    hide Count, Drained;
    assert c.ready == d.ready + multiset{r};
    forall x ensures Accounts(d, x) { assert Accounts(c, x); }
    if c.phase != Starting { Nothing(c.ready); }
  }

  lemma EndOk(c: Call, r: Registration, t: Tables, d: Call)
    requires CallOk(c) && Local(c, End(r), t, false) == Some(d)
    ensures CallOk(d)
  {
    hide Count, Drained;
    assert c.active == d.active + multiset{r};
    forall x ensures Accounts(d, x) { assert Accounts(c, x); }
    if c.phase != Starting { Nothing(c.active); }
  }

  lemma LocalOk(c: Call, act: Act, t: Tables, cleaned: bool, d: Call)
    requires CallOk(c) && Local(c, act, t, cleaned) == Some(d)
    ensures CallOk(d)
  {
    hide CallOk, Taking;
    match act
    case Lock => LockOk(c, t, d);
    case Spawn(ch) => SpawnOk(c, ch, t, d);
    case Begin(r) => BeginOk(c, r, t, d);
    case End(r) => EndOk(c, r, t, d);
    case Talk(ok) => TalkOk(c, ok, d);
    case Return => FinishOk(c, cleaned, d);
    case _ => OnlyPhase(c, d);
  }

  lemma LockOk(c: Call, t: Tables, d: Call)
    requires CallOk(c) && InLock(c, t) == Some(d)
    ensures CallOk(d)
  {
    hide Count, Drained, Taking;
    if c.op.Unlisten? || c.op.Close? { TakenAccounts(c, t, d); } else { OnlyPhase(c, d); }
  }

  lemma TalkOk(c: Call, ok: bool, d: Call)
    requires CallOk(c) && Talked(c, ok) == Some(d)
    ensures CallOk(d)
  {
    hide CallOk;
    OnlyPhase(c, d);
  }

  lemma FinishOk(c: Call, cleaned: bool, d: Call)
    requires CallOk(c) && Finish(c, cleaned) == Some(d)
    ensures CallOk(d)
  {
    hide CallOk, Drained;
    OnlyPhase(c, d);
  }

  lemma OnlyPhase(c: Call, d: Call)
    requires CallOk(c) && d == c.(phase := d.phase)
    requires d.phase != Starting && (c.phase == Starting ==> Drained(c.todo) && c.wg == 0)
    requires Early(d) ==> Early(c)
    ensures CallOk(d)
  {
    hide Count, Drained;
    forall r ensures Accounts(d, r) { assert Accounts(c, r); }
  }

  lemma LocalOnPath(c: Call, act: Act, t: Tables, cleaned: bool, d: Call)
    requires OnPath(c) && Local(c, act, t, cleaned) == Some(d)
    ensures OnPath(d)
  {
    hide OnPath, Talked, InLock, Finish;
    match act
    case Talk(ok) => TalkedOnPath(c, ok, d);
    case Lock => InLockOnPath(c, t, d);
    case Return => FinishOnPath(c, cleaned, d);
    case _ => SamePath(c, d);
  }

  lemma TalkedOnPath(c: Call, ok: bool, d: Call)
    requires OnPath(c) && Talked(c, ok) == Some(d)
    ensures OnPath(d)
  {
  }

  lemma InLockOnPath(c: Call, t: Tables, d: Call)
    requires OnPath(c) && InLock(c, t) == Some(d)
    ensures OnPath(d)
  {
    hide Taking;
  }

  lemma FinishOnPath(c: Call, cleaned: bool, d: Call)
    requires OnPath(c) && Finish(c, cleaned) == Some(d)
    ensures OnPath(d)
  {
    hide Drained;
  }

  lemma SamePath(c: Call, d: Call)
    requires OnPath(c) && c.op == d.op
    requires d.phase == c.phase || (c.phase.Pending? && d.phase.Pending?) || (c.op.Close? && d.phase == Stopping)
    ensures OnPath(d)
  {
  }

  // ---------- conservation ----------

  lemma {:induction false} SetHeld(calls: seq<Call>, i: nat, c: Call, r: Registration)
    requires i < |calls|
    ensures Held(calls[i := c], r) == Held(calls, r) - Count(calls[i].todo, r) - calls[i].ready[r] + Count(c.todo, r) + c.ready[r]
    ensures Active(calls[i := c], r) == Active(calls, r) - calls[i].active[r] + c.active[r]
  {
    var n := |calls| - 1;
    if i == n {
      assert calls[i := c][..n] == calls[..n];
    } else {
      SetHeld(calls[..n], i, c, r);
      assert calls[i := c][..n] == calls[..n][i := c];
    }
  }

  lemma Grow<T>(log: seq<T>, e: T)
    ensures (log + [e])[..|log|] == log && (log + [e])[|log|] == e
  {
  }

  lemma AddHeld(calls: seq<Call>, c: Call, r: Registration)
    ensures Held(calls + [c], r) == Held(calls, r) + Count(c.todo, r) + c.ready[r]
    ensures Active(calls + [c], r) == Active(calls, r) + c.active[r]
  {
    hide Count;
    Grow(calls, c);
  }

  lemma EnterConserves(s: State, op: Op, r: Registration)
    requires Conserves(s, r)
    ensures Conserves(DoEnter(s, op), r)
  {
    hide Registered, Count, Held, Active;
    var c := DoEnter(s, op).calls[|s.calls|];
    AddHeld(s.calls, c, r);
    EmptyCount(r);
  }

  lemma EmptyCount(r: Registration)
    ensures Count(map[], r) == 0
  {
  }

  /** What call c's step to d moves between the map, the call, and the two counts. */
  predicate Flows(s: State, t: State, c: Call, d: Call, r: Registration) {
    && Registered(s.log)[r] + Count(t.tables.unlisten, r) + Count(d.todo, r) + d.ready[r] + t.begun[r]
       == Registered(t.log)[r] + Count(s.tables.unlisten, r) + Count(c.todo, r) + c.ready[r] + s.begun[r]
    && t.begun[r] + c.active[r] + s.finished[r] == s.begun[r] + d.active[r] + t.finished[r]
  }

  lemma ListenFlows(t: Tables, log: seq<Entry>, ch: string, n: Option<Callback>, u: Option<Callback>, r: Registration)
    ensures Registered(log + [Add(ch, n, u)])[r] + Count(t.unlisten, r)
      == Registered(log)[r] + Count(Added(t, ch, n, u).unlisten, r)
  {
    Grow(log, Add(ch, n, u));
  }

  lemma RemoveFlows(t: Tables, log: seq<Entry>, op: Op, r: Registration)
    requires op.Unlisten? || op.Close?
    ensures Registered(log + Logged(op))[r] == Registered(log)[r]
    ensures Count(LockedTables(op, t).unlisten, r) + Count(Taking(op, t), r) == Count(t.unlisten, r)
  {
    Grow(log, Logged(op)[0]);
  }

  lemma DrainedCount(m: Buckets, r: Registration)
    requires Drained(m)
    ensures Count(m, r) == 0
  {
  }

  lemma LockFlows(s: State, i: nat, c: Call, d: Call, r: Registration)
    requires CallOk(c) && InLock(c, s.tables) == Some(d)
    ensures Flows(s, Shared(s, i, c, Lock), c, d, r)
  {
    hide Registered, Count, Taking, Drained, Accounts;
    match c.op
    case Resubscribe => assert s.log + [] == s.log;
    case Listen(ch, n, u) => hide Added; ListenFlows(s.tables, s.log, ch, n, u, r);
    case _ => RemoveFlows(s.tables, s.log, c.op, r); DrainedCount(c.todo, r);
  }

  lemma GoroutineFlows(s: State, i: nat, c: Call, act: Act, d: Call, r: Registration)
    requires act.Spawn? || act.Begin? || act.End?
    requires Local(c, act, s.tables, false) == Some(d)
    ensures Flows(s, Shared(s, i, c, act), c, d, r)
  {
    hide Registered, Count, Drained;
    if act.Spawn? { SpawnMoves(c, act.channel, r); }
  }

  lemma PhaseFlows(s: State, i: nat, c: Call, act: Act, d: Call, r: Registration)
    requires act.Talk? || act.CloseStop? || act.SubscribeAgain? || act.Return?
    requires Local(c, act, s.tables, s.once.Finished?) == Some(d)
    ensures Flows(s, Shared(s, i, c, act), c, d, r)
  {
    hide Registered, Count, Drained, Subscribed, Answers;
  }

  lemma Flow(s: State, i: nat, c: Call, act: Act, d: Call, r: Registration)
    requires CallOk(c) && Local(c, act, s.tables, s.once.Finished?) == Some(d)
    ensures Flows(s, Shared(s, i, c, act), c, d, r)
  {
    hide Flows, Shared, CallOk, InLock, Talked, Finish;
    match act
    case Lock => LockFlows(s, i, c, d, r);
    case Spawn(_) => GoroutineFlows(s, i, c, act, d, r);
    case Begin(_) => GoroutineFlows(s, i, c, act, d, r);
    case End(_) => GoroutineFlows(s, i, c, act, d, r);
    case _ => PhaseFlows(s, i, c, act, d, r);
  }

  lemma StepConserves(s: State, a: Action, t: State)
    requires Conserved(s) && CallsOk(s) && Apply(s, a) == Some(t)
    ensures Conserved(t)
  {
    hide Held, Active, Registered, Count, Local, Shared, CallOk, DoEnter, Deliveries;
    forall r ensures Conserves(t, r) {
      assert Conserves(s, r);
      match a
      case Enter(op) => EnterConserves(s, op, r);
      case Notify(_, _) =>
      case Deliver(_) =>
      case Reconnect =>
      case By(i, act) =>
        Flow(s, i, s.calls[i], act, t.calls[i], r);
        SetHeld(s.calls, i, t.calls[i], r);
        OnlyCalls(s, i, act, t);
    }
  }

  /** The calls are the one part of the state that Shared leaves alone. */
  lemma OnlyCalls(s: State, i: nat, act: Act, t: State)
    requires i < |s.calls| && Apply(s, By(i, act)) == Some(t)
    ensures |t.calls| == |s.calls| && t.calls == s.calls[i := t.calls[i]]
    ensures Local(s.calls[i], act, s.tables, s.once.Finished?) == Some(t.calls[i])
    ensures t == Shared(s, i, s.calls[i], act).(calls := t.calls)
  {
    hide Local, Shared;
  }

  // ---------- the other invariants ----------

  lemma StepKeepsCalls(s: State, a: Action, t: State)
    requires CallsOk(s) && Apply(s, a) == Some(t)
    ensures CallsOk(t)
  {
    hide Local, Shared, CallOk, Deliveries;
    match a
    case Enter(op) => NewCallOk(op, t.calls[|s.calls|].phase);
    case By(i, act) =>
      OnlyCalls(s, i, act, t);
      LocalOk(s.calls[i], act, s.tables, s.once.Finished?, t.calls[i]);
      LocalOnPath(s.calls[i], act, s.tables, s.once.Finished?, t.calls[i]);
    case _ =>
  }

  lemma NewCallOk(op: Op, p: Phase)
    requires p != Starting
    ensures CallOk(NewCall(op, p))
  {
    forall r ensures Accounts(NewCall(op, p), r) {}
  }

  lemma LiveGrows(log: seq<Entry>, e: Entry, ch: string)
    ensures LiveNotify(log + [e], ch) == NotifyThen(LiveNotify(log, ch), e, ch)
    ensures LiveUnlisten(log + [e], ch) == UnlistenThen(LiveUnlisten(log, ch), e, ch)
    ensures Clears(log + [e]) == Clears(log) + if e.Clear? then 1 else 0
  {
    Grow(log, e);
  }

  lemma LockMirrors(s: State, op: Op, t: State, ch: string)
    requires Mirrors(s, ch)
    requires t.tables == LockedTables(op, s.tables) && t.log == s.log + Logged(op)
    ensures Mirrors(t, ch)
  {
    hide LiveNotify, LiveUnlisten, Clears;
    if op.Resubscribe? { assert s.log + [] == s.log; } else { LiveGrows(s.log, Logged(op)[0], ch); }
  }

  lemma StepKeepsLog(s: State, a: Action, t: State)
    requires TablesAreLog(s) && Apply(s, a) == Some(t)
    ensures TablesAreLog(t)
  {
    hide LiveNotify, LiveUnlisten, Local, LockedTables, Logged, Deliveries, Subscribed, Answers;
    forall ch ensures Mirrors(t, ch) {
      assert Mirrors(s, ch);
      if a.By? {
        if a.act.Lock? { LockMirrors(s, s.calls[a.i].op, t, ch); }
      }
    }
  }

  /** How a step of the winner, and of any other call, leaves the phases that OnceOk speaks of. */
  lemma LocalPhases(c: Call, act: Act, t: Tables, cleaned: bool, d: Call)
    requires Local(c, act, t, cleaned) == Some(d)
    ensures d.op == c.op
    ensures Loser(c, cleaned) && c.op.Close? ==> Loser(d, cleaned)
    ensures c.op.Close? && act.CloseStop? ==> c.phase == Start && d.phase == Stopping
    ensures c.op.Close? && act.Lock? ==> c.phase == Answered && d.phase == Starting
    ensures c.op.Close? && act.Talk? ==> c.phase == Stopping && d.phase == Answered
    ensures act.Return? && c.phase == Starting ==> d.phase == Returned(true)
    ensures c.phase.Returned? ==> d.phase == c.phase
    ensures c.op.Close? && Cleaning(c) && !act.CloseStop? && !act.Lock? && !act.Talk? && !(act.Return? && c.phase == Starting)
      ==> d.phase == c.phase
  {
    hide Drained, Taking;
  }

  /** What Shared does to the parts of the state that OnceOk speaks of. */
  lemma SharedOnce(s: State, i: nat, c: Call, act: Act)
    ensures var t := Shared(s, i, c, act);
      && t.stopped == (s.stopped || act.CloseStop?)
      && t.once == (if act.Return? && c.op.Close? && c.phase == Starting then Finished(i) else s.once)
      && Clears(t.log) == Clears(s.log) + if act.Lock? && c.op.Close? then 1 else 0
  {
    hide Clears, LockedTables, Subscribed, Answers;
    if act.Lock? {
      if c.op.Resubscribe? { assert s.log + [] == s.log; } else { LiveGrows(s.log, Logged(c.op)[0], ""); }
    }
  }

  lemma CallKeepsOnce(s: State, i: nat, act: Act, t: State)
    requires OnceOk(s) && Apply(s, By(i, act)) == Some(t)
    ensures OnceOk(t)
  {
    hide Local, Shared, Clears;
    OnlyCalls(s, i, act, t);
    LocalPhases(s.calls[i], act, s.tables, s.once.Finished?, t.calls[i]);
    if act.CloseStop? { LocalStop(s.calls[i], act, s.tables, s.once.Finished?); }
    SharedOnce(s, i, s.calls[i], act);
  }

  lemma LocalStop(c: Call, act: Act, t: Tables, cleaned: bool)
    requires Local(c, act, t, cleaned).Some? && act.CloseStop?
    ensures c.op.Close?
  {
  }

  lemma StepKeepsOnce(s: State, a: Action, t: State)
    requires OnceOk(s) && Apply(s, a) == Some(t)
    ensures OnceOk(t)
  {
    hide Deliveries, Clears, Local, Shared;
    if a.By? { CallKeepsOnce(s, a.i, a.act, t); }
  }

  lemma StepKeepsDeliveries(s: State, a: Action, t: State)
    requires DeliveryOk(s) && Apply(s, a) == Some(t)
    ensures DeliveryOk(t)
  {
    hide Deliveries, Local;
  }

  lemma {:induction false} Reachable(run: seq<Action>, s: State)
    requires After(run) == Some(s)
    ensures Inv(s)
  {
    hide Apply, Conserved, CallsOk, TablesAreLog, OnceOk, DeliveryOk;
    if run == [] {
      InitOk();
    } else {
      var before := After(run[..|run| - 1]).value;
      var a := run[|run| - 1];
      Reachable(run[..|run| - 1], before);
      StepConserves(before, a, s);
      StepKeepsCalls(before, a, s);
      StepKeepsLog(before, a, s);
      StepKeepsOnce(before, a, s);
      StepKeepsDeliveries(before, a, s);
    }
  }

  lemma InitOk()
    ensures Inv(INIT)
  {
    forall r ensures Conserves(INIT, r) {}
    forall ch ensures Mirrors(INIT, ch) {}
  }

  // ---------- what callers can rely on, in every run ----------

  /** No callback is lost, and none runs twice: each registration is in the map, in the hands of one call,
    * running or back, and those that have run are at most those that were registered.
    */
  lemma NoneLostNoneTwice(run: seq<Action>, s: State, r: Registration)
    requires After(run) == Some(s)
    ensures Registered(s.log)[r] == Count(s.tables.unlisten, r) + Held(s.calls, r) + Active(s.calls, r) + s.finished[r]
    ensures s.finished[r] <= s.begun[r] <= Registered(s.log)[r]
  {
    Reachable(run, s);
    assert Conserves(s, r);
  }

  /** When an unlisten or close call has returned, the callbacks it took have all come back, each exactly once. */
  lemma {:induction false} ReturnedMeansDone(run: seq<Action>, s: State, i: nat, r: Registration)
    requires After(run) == Some(s) && i < |s.calls| && s.calls[i].phase.Returned?
    ensures s.calls[i].done[r] == Count(s.calls[i].taken, r)
    ensures s.calls[i].ready == s.calls[i].active == multiset{}
  {
    Reachable(run, s);
    var c := s.calls[i];
    assert CallOk(c) && Accounts(c, r);
    Nothing(c.ready);
    Nothing(c.active);
    DrainedCount(c.todo, r);
  }

  /** Any close call, the first or a later one, returns only when the one cleanup is over and all it took is done. */
  lemma CloseWaitsForCleanup(run: seq<Action>, s: State, i: nat, r: Registration)
    requires After(run) == Some(s) && i < |s.calls| && s.calls[i].op.Close? && s.calls[i].phase.Returned?
    ensures s.stopped && Clears(s.log) == 1
    ensures s.once.Finished? && s.once.winner < |s.calls|
    ensures var w := s.calls[s.once.winner]; w.done[r] == Count(w.taken, r) && w.active == multiset{}
  {
    Reachable(run, s);
    assert OnceOk(s);
    ReturnedMeansDone(run, s, s.once.winner, r);
  }

  /** The cleanup happens at most once, and the stop channel is never closed a second time. */
  lemma CleanupOnce(run: seq<Action>, s: State, i: nat)
    requires After(run) == Some(s)
    ensures Clears(s.log) <= 1
    ensures Apply(s, By(i, CloseStop)).Some? ==> !s.stopped && s.once == Busy(i)
    ensures Clears(s.log) == 1 && i < |s.calls| && s.calls[i].op.Close? ==> Apply(s, By(i, Lock)).None?
  {
    Reachable(run, s);
    hide Conserved, CallsOk, TablesAreLog, Clears;
  }

  /** A notification starts exactly the callbacks registered for its channel since the channel was last removed. */
  lemma NotifyReachesLive(run: seq<Action>, s: State, channel: string, payload: string, t: State)
    requires After(run) == Some(s) && Apply(s, Notify(channel, payload)) == Some(t)
    ensures t.started == s.started + multiset(Deliveries(LiveNotify(s.log, channel), channel, payload))
    ensures t.delivered <= t.started
  {
    Reachable(run, s);
    assert Mirrors(s, channel);
    StepKeepsDeliveries(s, Notify(channel, payload), t);
  }

  predicate Quiet(s: State) {
    forall i :: 0 <= i < |s.calls| ==> s.calls[i].phase.Returned?
  }

  lemma {:induction false} QuietHolds(calls: seq<Call>, r: Registration)
    requires forall i :: 0 <= i < |calls| ==> CallOk(calls[i]) && calls[i].phase.Returned?
    ensures Held(calls, r) == 0 && Active(calls, r) == 0
  {
    if calls != [] {
      QuietHolds(calls[..|calls| - 1], r);
      var c := calls[|calls| - 1];
      Nothing(c.ready);
      Nothing(c.active);
      DrainedCount(c.todo, r);
    }
  }

  ghost predicate AllRan(s: State) { forall r: Registration :: s.finished[r] == Registered(s.log)[r] }

  ghost predicate NoneLive(log: seq<Entry>) { forall ch :: LiveUnlisten(log, ch) == [] }

  /** With no call in progress, every registered unlisten callback has run exactly once if and only if no
    * registration is newer than the last removal of its channel. ListenerClose says what a close does about that.
    */
  lemma ExactlyOnceIff(run: seq<Action>, s: State)
    requires After(run) == Some(s) && Quiet(s)
    ensures AllRan(s) <==> NoneLive(s.log)
  {
    Reachable(run, s);
    if AllRan(s) { RanSoNoneLive(s); }
    if NoneLive(s.log) { NoneLiveSoRan(s); }
  }

  lemma RanSoNoneLive(s: State)
    requires Inv(s) && AllRan(s)
    ensures NoneLive(s.log)
  {
    forall ch ensures LiveUnlisten(s.log, ch) == [] {
      var live := LiveUnlisten(s.log, ch);
      assert Mirrors(s, ch);
      forall c: Callback ensures multiset(live)[c] == 0 {
        var r := Registration(ch, c);
        assert Conserves(s, r) && s.finished[r] == Registered(s.log)[r];
      }
      assert multiset(live) == multiset{};
      assert |live| == |multiset(live)|;
    }
  }

  lemma NoneLiveSoRan(s: State)
    requires Inv(s) && Quiet(s) && NoneLive(s.log)
    ensures AllRan(s)
  {
    forall r: Registration ensures s.finished[r] == Registered(s.log)[r] {
      assert Conserves(s, r) && Mirrors(s, r.channel);
      QuietHolds(s.calls, r);
      assert LiveUnlisten(s.log, r.channel) == [];
    }
  }

  lemma SomeBucket(m: Buckets) returns (ch: string)
    requires !Drained(m)
    ensures Bucket(m, ch) != []
  {
    ch :| ch in m && m[ch] != [];
  }

  /** What a call that is not blocked can do next: itself, or one of the goroutines it waits for. */
  lemma NextAct(c: Call, t: Tables, cleaned: bool) returns (act: Act)
    requires CallOk(c) && OnPath(c) && !c.phase.Returned? && (c.phase.Blocked? ==> cleaned)
    ensures Local(c, act, t, cleaned).Some?
  {
    hide Taking;
    match c.phase
    case Start => act := if c.op.Close? then CloseStop else if c.op.Resubscribe? then Lock else Talk(true);
    case Stopping => act := Talk(true);
    case Answered => act := Lock;
    case Pending(channels) =>
      act := Return;
      if channels != {} {
        var ch :| ch in channels;
        act := SubscribeAgain(ch, true);
      }
    case Starting =>
      act := Return;
      if !Drained(c.todo) {
        var ch := SomeBucket(c.todo);
        act := Spawn(ch);
      } else if c.ready != multiset{} {
        var r :| r in c.ready;
        act := Begin(r);
      } else if c.active != multiset{} {
        var r :| r in c.active;
        act := End(r);
      }
    case _ => act := Return;
  }

  /** No deadlock: as long as a call has not returned, it or the close that it waits for can go on. */
  lemma NeverStuck(run: seq<Action>, s: State, i: nat)
    returns (j: nat, act: Act)
    requires After(run) == Some(s) && i < |s.calls| && !s.calls[i].phase.Returned?
    ensures j == i || (s.once == Busy(j) && s.calls[i].phase.Blocked?)
    ensures Apply(s, By(j, act)).Some?
  {
    Reachable(run, s);
    hide Conserved, TablesAreLog, CallOk, Local, Clears;
    j := i;
    if s.calls[i].phase.Blocked? && s.once.Busy? { j := s.once.winner; }
    assert CallOk(s.calls[j]) && OnPath(s.calls[j]);
    act := NextAct(s.calls[j], s.tables, s.once.Finished?);
  }
}
