/** Every ending and every exposure that a tree allows comes about: schedules of failures and branches that force them. */
module TxSchedules {
  import opened Common
  import opened Sql
  import opened TxModel
  import opened TxSemantics
  import opened TxRefinement
  import opened TxTheorems
  import opened TxExposure

  /** At the tick, a driver call fails and a branch goes left exactly if the bit is set. */
  predicate Obeys(env: Env, at: nat, bit: bool) { env.fault(at).Some? == bit && env.choose(at) == bit }

  /** From the given tick on the environment does what the schedule says, and a serialized transaction has one attempt. */
  predicate Follows(env: Env, clock: nat, script: seq<bool>, default: nat) {
    && env.canPin && env.retries == 1 && env.defaultLevel == default
    && forall i :: 0 <= i < |script| ==> Obeys(env, clock + i, script[i])
  }

  predicate EndsAs(env: Env, clock: nat, script: seq<bool>, v: View, body: Body, kind: Kind) {
    var m := Mean(env, clock, v, body);
    KindOf(m.out) == kind && m.clock == clock + |script|
  }

  /** Under the schedule, wherever it begins, the tree ends in the given way and uses up the whole schedule. */
  ghost predicate Forces(script: seq<bool>, v: View, body: Body, default: nat, kind: Kind) {
    forall env: Env, clock: nat :: Follows(env, clock, script, default) ==> EndsAs(env, clock, script, v, body, kind)
  }

  lemma FollowsSplit(env: Env, clock: nat, a: seq<bool>, b: seq<bool>, default: nat)
    requires Follows(env, clock, a + b, default)
    ensures Follows(env, clock, a, default) && Follows(env, clock + |a|, b, default)
  {
    hide Obeys;
    forall i | 0 <= i < |a| ensures Obeys(env, clock + i, a[i]) { assert (a + b)[i] == a[i]; }
    forall i | 0 <= i < |b| ensures Obeys(env, clock + |a| + i, b[i]) {
      assert (a + b)[|a| + i] == b[i] && clock + (|a| + i) == clock + |a| + i;
    }
  }

  /** What a schedule for two parts in a row gives for each. */
  ghost predicate ForcesTwo(s: seq<bool>, t: seq<bool>, v: View, a: Body, b: Body, default: nat, first: Kind, second: Kind) {
    forall env: Env, clock: nat :: Follows(env, clock, s + t, default) ==>
      EndsAs(env, clock, s, v, a, first) && EndsAs(env, clock + |s|, t, v, b, second)
  }

  lemma Two(s: seq<bool>, t: seq<bool>, v: View, a: Body, b: Body, default: nat, first: Kind, second: Kind)
    requires Forces(s, v, a, default, first) && Forces(t, v, b, default, second)
    ensures ForcesTwo(s, t, v, a, b, default, first, second)
  {
    hide Follows, EndsAs;
    forall env: Env, clock: nat | Follows(env, clock, s + t, default)
      ensures EndsAs(env, clock, s, v, a, first) && EndsAs(env, clock + |s|, t, v, b, second)
    {
      FollowsSplit(env, clock, s, t, default);
    }
  }

  /** Which of Then, Catch and Recover: the ending of the first part on which the second runs. */
  function Joint(a: Body, b: Body, on: Kind): Body {
    match on
    case Nil => Body.Then(a, b)
    case Failed => Catch(a, b)
    case Panics => Recover(a, b)
  }

  lemma ThenMeans(env: Env, clock: nat, v: View, a: Body, b: Body)
    ensures
      var m := Mean(env, clock, v, a);
      Mean(env, clock, v, Body.Then(a, b)) == if m.out.Done? then Sequence(m, Mean(env, m.clock, v, b)) else m
  {
    hide Sequence;
  }

  lemma CatchMeans(env: Env, clock: nat, v: View, a: Body, b: Body)
    ensures
      var m := Mean(env, clock, v, a);
      Mean(env, clock, v, Catch(a, b)) == if m.out.Err? then Sequence(m, Mean(env, m.clock, v, b)) else m
  {
    hide Sequence;
  }

  lemma RecoverMeans(env: Env, clock: nat, v: View, a: Body, b: Body)
    ensures
      var m := Mean(env, clock, v, a);
      Mean(env, clock, v, Recover(a, b)) == if m.out.Panicked? then Sequence(m, Mean(env, m.clock, v, b)) else m
  {
    hide Sequence;
  }

  lemma JointMeans(env: Env, clock: nat, v: View, a: Body, b: Body, on: Kind)
    ensures
      var m, n := Mean(env, clock, v, a), Mean(env, clock, v, Joint(a, b, on));
      && (KindOf(m.out) == on ==> n == Sequence(m, Mean(env, m.clock, v, b)))
      && (KindOf(m.out) != on ==> n == m)
  {
    hide Mean, Sequence;
    ThenMeans(env, clock, v, a, b);
    CatchMeans(env, clock, v, a, b);
    RecoverMeans(env, clock, v, a, b);
  }

  lemma JointForces(s: seq<bool>, t: seq<bool>, v: View, a: Body, b: Body, default: nat, on: Kind, kind: Kind)
    requires ForcesTwo(s, t, v, a, b, default, on, kind)
    ensures Forces(s + t, v, Joint(a, b, on), default, kind)
  {
    hide Follows, Mean;
    forall env: Env, clock: nat | Follows(env, clock, s + t, default)
      ensures EndsAs(env, clock, s + t, v, Joint(a, b, on), kind)
    {
      JointMeans(env, clock, v, a, b, on);
      assert EndsAs(env, clock, s, v, a, on) && EndsAs(env, clock + |s|, t, v, b, kind);
    }
  }

  lemma FirstForces(s: seq<bool>, v: View, a: Body, b: Body, default: nat, on: Kind, kind: Kind)
    requires Forces(s, v, a, default, kind) && kind != on
    ensures Forces(s, v, Joint(a, b, on), default, kind)
  {
    hide Follows, Mean;
    forall env: Env, clock: nat | Follows(env, clock, s, default) ensures EndsAs(env, clock, s, v, Joint(a, b, on), kind) {
      JointMeans(env, clock, v, a, b, on);
      assert EndsAs(env, clock, s, v, a, kind);
    }
  }

  lemma {:induction false} JointScript(v: View, a: Body, b: Body, default: nat, on: Kind, kind: Kind) returns (script: seq<bool>)
    requires kind in Continued(Endings(v, a, default), on, Endings(v, b, default))
    ensures Forces(script, v, Joint(a, b, on), default, kind)
    decreases Joint(a, b, on), 0, 0
  {
    hide Forces, Endings, ForcesTwo;
    assert a < Joint(a, b, on) && b < Joint(a, b, on);
    if kind in Endings(v, a, default) && kind != on {
      script := Script(v, a, default, kind);
      FirstForces(script, v, a, b, default, on, kind);
    } else {
      var s := Script(v, a, default, on);
      var t := Script(v, b, default, kind);
      Two(s, t, v, a, b, default, on, kind);
      JointForces(s, t, v, a, b, default, on, kind);
      script := s + t;
    }
  }

  lemma {:induction false} FinallyScript(v: View, a: Body, b: Body, default: nat, kind: Kind) returns (script: seq<bool>)
    requires kind in Endings(v, Finally(a, b), default)
    ensures Forces(script, v, Finally(a, b), default, kind)
    decreases Finally(a, b), 0, 0
  {
    var x, y :| x in Endings(v, a, default) && y in Endings(v, b, default) && kind == JoinKind(x, y);
    hide Forces, Endings, ForcesTwo;
    var s := Script(v, a, default, x);
    var t := Script(v, b, default, y);
    Two(s, t, v, a, b, default, x, y);
    FinallyForces(s, t, v, a, b, default, x, y);
    script := s + t;
  }

  lemma FinallyForces(s: seq<bool>, t: seq<bool>, v: View, a: Body, b: Body, default: nat, x: Kind, y: Kind)
    requires ForcesTwo(s, t, v, a, b, default, x, y)
    ensures Forces(s + t, v, Finally(a, b), default, JoinKind(x, y))
  {
    hide Follows, Join, JoinKind;
    forall env: Env, clock: nat | Follows(env, clock, s + t, default)
      ensures EndsAs(env, clock, s + t, v, Finally(a, b), JoinKind(x, y))
    {
      assert EndsAs(env, clock, s, v, a, x) && EndsAs(env, clock + |s|, t, v, b, y);
      JoinedKind(Mean(env, clock, v, a).out, Mean(env, clock + |s|, v, b).out);
    }
  }

  /** The first bit of a schedule, and the rest. */
  lemma FollowsHead(env: Env, clock: nat, bit: bool, s: seq<bool>, default: nat)
    requires Follows(env, clock, [bit] + s, default)
    ensures Obeys(env, clock, bit) && Follows(env, clock + 1, s, default)
  {
    FollowsSplit(env, clock, [bit], s, default);
    assert [bit][0] == bit && Obeys(env, clock + 0, [bit][0]);
  }

  lemma ChooseForces(s: seq<bool>, v: View, a: Body, b: Body, default: nat, left: bool, kind: Kind)
    requires Forces(s, v, if left then a else b, default, kind)
    ensures Forces([left] + s, v, Choose(a, b), default, kind)
  {
    hide Follows;
    forall env: Env, clock: nat | Follows(env, clock, [left] + s, default) ensures EndsAs(env, clock, [left] + s, v, Choose(a, b), kind) {
      FollowsHead(env, clock, left, s, default);
      assert EndsAs(env, clock + 1, s, v, if left then a else b, kind);
    }
  }

  /** A helper that goes through the wrapper. */
  function WrapperMeans(w: Wrapper, env: Env, clock: nat, v: View, body: Body): Meaning {
    match w
    case Root(opts) => MeanRoot(env, clock, v, opts, body)
    case Restorable => MeanSavepoint(env, clock, v, body)
    case Pin => MeanPinned(env, clock, v, body)
  }

  ghost predicate WrapperForces(script: seq<bool>, w: Wrapper, v: View, body: Body, default: nat, kind: Kind) {
    forall env: Env, clock: nat :: Follows(env, clock, script, default) ==>
      var m := WrapperMeans(w, env, clock, v, body);
      KindOf(m.out) == kind && m.clock == clock + |script|
  }

  /** After a panic a savepoint makes no further driver call. */
  function Closing(w: Wrapper, kind: Kind): seq<bool> { if w.Restorable? && kind == Panics then [] else [false] }

  lemma WrapperFails(w: Wrapper, v: View, body: Body, default: nat)
    ensures WrapperForces([true], w, v, body, default, Failed)
  {
    hide Mean, Follows;
    forall env: Env, clock: nat | Follows(env, clock, [true], default)
      ensures var m := WrapperMeans(w, env, clock, v, body); KindOf(m.out) == Failed && m.clock == clock + 1
    {
      assert [true] == [true] + [];
      FollowsHead(env, clock, true, [], default);
      CanPin(env, clock, [true], default);
    }
  }

  lemma CanPin(env: Env, clock: nat, script: seq<bool>, default: nat)
    requires Follows(env, clock, script, default)
    ensures env.canPin && env.retries == 1 && env.defaultLevel == default
  {
  }

  lemma WrapperRuns(s: seq<bool>, w: Wrapper, v: View, body: Body, default: nat, kind: Kind)
    requires Forces(s, Inside(w, v), body, default, kind)
    ensures WrapperForces([false] + s + Closing(w, kind), w, v, body, default, kind)
  {
    hide Mean, Follows;
    var all := [false] + s + Closing(w, kind);
    forall env: Env, clock: nat | Follows(env, clock, all, default)
      ensures var m := WrapperMeans(w, env, clock, v, body); KindOf(m.out) == kind && m.clock == clock + |all|
    {
      CanPin(env, clock, all, default);
      FollowsSplit(env, clock, [false] + s, Closing(w, kind), default);
      FollowsHead(env, clock, false, s, default);
      assert EndsAs(env, clock + 1, s, Inside(w, v), body, kind);
      if Closing(w, kind) == [false] {
        assert Closing(w, kind) == [false] + [];
        FollowsHead(env, clock + 1 + |s|, false, [], default);
      }
    }
  }

  lemma {:induction false} WrapperScript(w: Wrapper, v: View, body: Body, default: nat, kind: Kind) returns (script: seq<bool>)
    requires kind in {Failed} + Endings(Inside(w, v), body, default)
    ensures WrapperForces(script, w, v, body, default, kind)
    decreases body, 1, 0
  {
    hide Forces, WrapperForces, Endings;
    if kind == Failed {
      WrapperFails(w, v, body, default);
      script := [true];
    } else {
      var s := Script(Inside(w, v), body, default, kind);
      WrapperRuns(s, w, v, body, default, kind);
      script := [false] + s + Closing(w, kind);
    }
  }

  /** A schedule that forces the ending. */
  lemma {:induction false} Script(v: View, body: Body, default: nat, kind: Kind) returns (script: seq<bool>)
    requires kind in Endings(v, body, default)
    ensures Forces(script, v, body, default, kind)
    decreases body, 0, 1
  {
    hide WrapperForces, Mean, Forces;
    match body
    case Skip => script := []; LeafForces(v, body, default, kind);
    case ExecStmt(_) => script := [kind == Failed]; LeafForces(v, body, default, kind);
    case DriverCall => script := [kind == Failed]; LeafForces(v, body, default, kind);
    case Return(_) => script := []; LeafForces(v, body, default, kind);
    case Panic => script := []; LeafForces(v, body, default, kind);
    case Then(a, b) => script := JointScript(v, a, b, default, Nil, kind);
    case Catch(a, b) => script := JointScript(v, a, b, default, Failed, kind);
    case Recover(a, b) => script := JointScript(v, a, b, default, Panics, kind);
    case Finally(a, b) => script := FinallyScript(v, a, b, default, kind);
    case Choose(a, b) =>
      var left := kind in Endings(v, a, default);
      var s := Script(v, if left then a else b, default, kind);
      ChooseForces(s, v, a, b, default, left, kind);
      script := [left] + s;
    case _ => script := HelperScript(v, body, default, kind);
  }

  lemma LeafForces(v: View, body: Body, default: nat, kind: Kind)
    requires body.Skip? || body.ExecStmt? || body.DriverCall? || body.Return? || body.Panic?
    requires kind in Endings(v, body, default)
    ensures Forces(if body.ExecStmt? || body.DriverCall? then [kind == Failed] else [], v, body, default, kind)
  {
    var script := if body.ExecStmt? || body.DriverCall? then [kind == Failed] else [];
    forall env: Env, clock: nat | Follows(env, clock, script, default) ensures EndsAs(env, clock, script, v, body, kind) {
      if script != [] {
        assert script == [kind == Failed] + [];
        FollowsHead(env, clock, kind == Failed, [], default);
      }
    }
  }

  /** What a helper call means, by its route, when a serialized transaction has one attempt. */
  lemma RouteMeans(env: Env, clock: nat, v: View, body: Body)
    requires Helper(body) && env.retries == 1
    ensures
      var m, r := Mean(env, clock, v, body), RouteOf(v, body, env.defaultLevel);
      && (r.Pass? ==> m == Mean(env, clock, r.view, r.body))
      && (r.Refuse? ==> m.out.Err? && m.clock == clock)
      && (r.Through? ==>
            var n := WrapperMeans(r.wrapper, env, clock, r.view, r.body);
            KindOf(m.out) == KindOf(n.out) && m.clock == n.clock)
  {
    hide MeanRoot, MeanSavepoint, MeanPinned, MeanAttempts, CheckOptions;
    if body.Serialized? && !v.active { OneTry(env, clock, v.(serialized := true), body.body, Error({})); }
  }

  lemma OneTry(env: Env, clock: nat, v: View, body: Body, last: Error)
    requires !v.active
    ensures
      var m, n := MeanAttempts(env, clock, v, body, 1, last), MeanRoot(env, clock, v, SERIALIZABLE, body);
      KindOf(m.out) == KindOf(n.out) && m.clock == n.clock
  {
    hide MeanRoot;
    var n := MeanRoot(env, clock, v, SERIALIZABLE, body);
    assert MeanTransaction(env, clock, v, SERIALIZABLE, body) == n;
    if n.out.Err? { assert MeanAttempts(env, n.clock, v, body, 0, n.out.error).out.Err?; }
  }

  lemma {:induction false} HelperScript(v: View, body: Body, default: nat, kind: Kind) returns (script: seq<bool>)
    requires Helper(body) && kind in Endings(v, body, default)
    ensures Forces(script, v, body, default, kind)
    decreases body, 0, 0
  {
    hide Mean, Follows, WrapperMeans;
    match RouteOf(v, body, default) {
      case Pass(u, b) => script := Script(u, b, default, kind);
      case Refuse => script := [];
      case Through(w, u, b) => script := WrapperScript(w, u, b, default, kind);
    }
    forall env: Env, clock: nat | Follows(env, clock, script, default) ensures EndsAs(env, clock, script, v, body, kind) {
      CanPin(env, clock, script, default);
      RouteMeans(env, clock, v, body);
      match RouteOf(v, body, default)
      case Pass(u, b) => assert EndsAs(env, clock, script, u, b, kind);
      case Refuse =>
      case Through(w, u, b) => assert KindOf(WrapperMeans(w, env, clock, u, b).out) == kind;
    }
  }

  // ---------- exposing schedules ----------

  ghost predicate Shows(script: seq<bool>, v: View, body: Body, default: nat) {
    forall env: Env, clock: nat :: Follows(env, clock, script, default) ==> Hits(env, clock, v, body)
  }

  lemma {:induction false} SomeEnding(v: View, body: Body, default: nat) returns (kind: Kind)
    ensures kind in Endings(v, body, default)
    decreases body
  {
    match body
    case Skip => kind := Nil;
    case ExecStmt(_) => kind := Nil;
    case DriverCall => kind := Nil;
    case Return(_) => kind := Failed;
    case Panic => kind := Panics;
    case Then(a, b) => kind := SomeContinued(v, a, b, default, Nil);
    case Catch(a, b) => kind := SomeContinued(v, a, b, default, Failed);
    case Recover(a, b) => kind := SomeContinued(v, a, b, default, Panics);
    case Finally(a, b) =>
      var x := SomeEnding(v, a, default);
      var y := SomeEnding(v, b, default);
      kind := JoinKind(x, y);
    case Choose(a, b) => kind := SomeEnding(v, a, default);
    case _ =>
      var r := RouteOf(v, body, default);
      kind := Failed;
      if r.Pass? { kind := SomeEnding(r.view, r.body, default); }
  }

  lemma {:induction false} SomeContinued(v: View, a: Body, b: Body, default: nat, on: Kind) returns (kind: Kind)
    ensures kind in Continued(Endings(v, a, default), on, Endings(v, b, default))
    decreases Joint(a, b, on), 0
  {
    hide Endings;
    assert a < Joint(a, b, on) && b < Joint(a, b, on);
    kind := SomeEnding(v, a, default);
    if on in Endings(v, a, default) { kind := SomeEnding(v, b, default); }
  }

  lemma JointHits(env: Env, clock: nat, v: View, a: Body, b: Body, on: Kind)
    ensures
      var m := Mean(env, clock, v, a);
      Hits(env, clock, v, a) || (KindOf(m.out) == on && Hits(env, m.clock, v, b)) ==> Hits(env, clock, v, Joint(a, b, on))
  {
    hide Mean, Hits;
    ThenHits(env, clock, v, a, b);
    CatchHits(env, clock, v, a, b);
    RecoverHits(env, clock, v, a, b);
  }

  lemma ThenHits(env: Env, clock: nat, v: View, a: Body, b: Body)
    ensures
      var m := Mean(env, clock, v, a);
      Hits(env, clock, v, a) || (m.out.Done? && Hits(env, m.clock, v, b)) ==> Hits(env, clock, v, Body.Then(a, b))
  {
    hide Mean;
  }

  lemma CatchHits(env: Env, clock: nat, v: View, a: Body, b: Body)
    ensures
      var m := Mean(env, clock, v, a);
      Hits(env, clock, v, a) || (m.out.Err? && Hits(env, m.clock, v, b)) ==> Hits(env, clock, v, Catch(a, b))
  {
    hide Mean;
  }

  lemma RecoverHits(env: Env, clock: nat, v: View, a: Body, b: Body)
    ensures
      var m := Mean(env, clock, v, a);
      Hits(env, clock, v, a) || (m.out.Panicked? && Hits(env, m.clock, v, b)) ==> Hits(env, clock, v, Recover(a, b))
  {
    hide Mean;
  }

  lemma FinallyHits(env: Env, clock: nat, v: View, a: Body, b: Body)
    ensures Hits(env, clock, v, a) || Hits(env, Mean(env, clock, v, a).clock, v, b) ==> Hits(env, clock, v, Finally(a, b))
  {
    hide Mean;
  }

  /** The second part is reached after a first part that the schedule forces to end, and exposes. */
  lemma LaterShows(s: seq<bool>, t: seq<bool>, v: View, a: Body, b: Body, default: nat, on: Kind)
    requires Forces(s, v, a, default, on) && Shows(t, v, b, default)
    ensures Shows(s + t, v, Joint(a, b, on), default) && Shows(s + t, v, Finally(a, b), default)
  {
    hide Follows, Hits, Mean;
    forall env: Env, clock: nat | Follows(env, clock, s + t, default)
      ensures Hits(env, clock, v, Joint(a, b, on)) && Hits(env, clock, v, Finally(a, b))
    {
      FollowsSplit(env, clock, s, t, default);
      assert EndsAs(env, clock, s, v, a, on) && Hits(env, clock + |s|, v, b);
      JointHits(env, clock, v, a, b, on);
      FinallyHits(env, clock, v, a, b);
    }
  }

  lemma FirstShows(s: seq<bool>, v: View, a: Body, b: Body, default: nat, on: Kind)
    requires Shows(s, v, a, default)
    ensures Shows(s, v, Joint(a, b, on), default) && Shows(s, v, Finally(a, b), default)
  {
    hide Follows, Hits, Mean;
    forall env: Env, clock: nat | Follows(env, clock, s, default)
      ensures Hits(env, clock, v, Joint(a, b, on)) && Hits(env, clock, v, Finally(a, b))
    {
      JointHits(env, clock, v, a, b, on);
      FinallyHits(env, clock, v, a, b);
    }
  }

  lemma {:induction false} PairShows(v: View, a: Body, b: Body, default: nat, on: Kind, whole: Body) returns (script: seq<bool>)
    requires (whole == Joint(a, b, on) || whole == Finally(a, b)) && a < whole && b < whole
    requires Exposes(v, a, default) || (on in Endings(v, a, default) && Exposes(v, b, default))
    ensures Shows(script, v, whole, default)
    decreases whole, 0, 0
  {
    hide Exposes, Endings, Shows, Forces, Joint;
    if Exposes(v, a, default) {
      script := Showing(v, a, default);
      FirstShows(script, v, a, b, default, on);
    } else {
      var s := Script(v, a, default, on);
      var t := Showing(v, b, default);
      LaterShows(s, t, v, a, b, default, on);
      script := s + t;
    }
  }

  lemma ChooseShows(s: seq<bool>, v: View, a: Body, b: Body, default: nat, left: bool)
    requires Shows(s, v, if left then a else b, default)
    ensures Shows([left] + s, v, Choose(a, b), default)
  {
    hide Follows, Mean;
    forall env: Env, clock: nat | Follows(env, clock, [left] + s, default) ensures Hits(env, clock, v, Choose(a, b)) {
      FollowsHead(env, clock, left, s, default);
    }
  }

  lemma RouteHits(env: Env, clock: nat, v: View, body: Body)
    requires Helper(body) && env.retries == 1 && env.canPin
    ensures Weak(v, body, env.defaultLevel) ==> Hits(env, clock, v, body)
    ensures
      var r := RouteOf(v, body, env.defaultLevel);
      ((r.Pass? && Hits(env, clock, r.view, r.body)) ||
       (r.Through? && HitsNext(env, clock, Inside(r.wrapper, r.view), r.body))) ==> Hits(env, clock, v, body)
  {
    hide HitsNext, CheckOptions, Level, MeanTransaction;
    if body.Serialized? && !v.active { OneTryHits(env, clock, v.(serialized := true), body.body); }
  }

  lemma OneTryHits(env: Env, clock: nat, v: View, body: Body)
    requires !v.active
    ensures HitsNext(env, clock, InRoot(v, SERIALIZABLE), body) ==> HitsAttempts(env, clock, v, body, 1)
  {
    hide HitsNext, MeanTransaction;
  }

  lemma {:induction false} HelperShows(v: View, body: Body, default: nat) returns (script: seq<bool>)
    requires Helper(body) && Exposes(v, body, default)
    ensures Shows(script, v, body, default)
    decreases body, 0, 0
  {
    hide Follows, Hits;
    script := [];
    if !Weak(v, body, default) {
      match RouteOf(v, body, default) {
        case Pass(u, b) => script := Showing(u, b, default);
        case Refuse =>
        case Through(w, u, b) => script := EnteredShows(Inside(w, u), b, default);
      }
    }
    forall env: Env, clock: nat | Follows(env, clock, script, default) ensures Hits(env, clock, v, body) {
      CanPin(env, clock, script, default);
      RouteHits(env, clock, v, body);
    }
  }

  lemma {:induction false} EnteredShows(v: View, body: Body, default: nat) returns (script: seq<bool>)
    requires Exposes(v, body, default)
    ensures forall env: Env, clock: nat :: Follows(env, clock, script, default) ==> HitsNext(env, clock, v, body)
    decreases body, 1, 0
  {
    hide Follows, Hits, Exposes;
    var s := Showing(v, body, default);
    script := [false] + s;
    forall env: Env, clock: nat | Follows(env, clock, script, default) ensures HitsNext(env, clock, v, body) {
      FollowsHead(env, clock, false, s, default);
    }
  }

  /** A schedule that exposes. */
  lemma {:induction false} Showing(v: View, body: Body, default: nat) returns (script: seq<bool>)
    requires Exposes(v, body, default)
    ensures Shows(script, v, body, default)
    decreases body, 0, 1
  {
    hide Shows, Endings;
    if Helper(body) {
      script := HelperShows(v, body, default);
      return;
    }
    match body
    case Then(a, b) => script := PairShows(v, a, b, default, Nil, body);
    case Catch(a, b) => script := PairShows(v, a, b, default, Failed, body);
    case Recover(a, b) => script := PairShows(v, a, b, default, Panics, body);
    case Finally(a, b) =>
      var kind := SomeEnding(v, a, default);
      script := PairShows(v, a, b, default, kind, body);
    case Choose(a, b) =>
      var left := Exposes(v, a, default);
      var s := Showing(v, if left then a else b, default);
      ChooseShows(s, v, a, b, default, left);
      script := [left] + s;
  }

  // ---------- the exact condition ----------

  /** The nested serialized calls of the tree always run their bodies in a serializable transaction, whatever fails,
    * whichever way the branches go and however many retries are allowed.
    */
  ghost predicate AlwaysSerializable(name: nat -> string, default: nat, db: Db, ctx: Ctx, body: Body) {
    forall env: Env :: env.name == name && env.defaultLevel == default ==> !Lost(Run(env, db, ctx, body).evts, default)
  }

  function Scripted(script: seq<bool>, start: nat, name: nat -> string, default: nat): Env {
    Env(at => if start <= at < start + |script| && script[at - start] then Some(Error({Driver(0)})) else None,
        at => start <= at < start + |script| && script[at - start], name, 1, true, default)
  }

  lemma ScriptedFollows(script: seq<bool>, start: nat, name: nat -> string, default: nat)
    ensures Follows(Scripted(script, start, name, default), start, script, default)
  {
    var env := Scripted(script, start, name, default);
    forall i | 0 <= i < |script| ensures Obeys(env, start + i, script[i]) {}
  }

  /** A serialized body is always run in a serializable transaction if and only if the tree, started in that context,
    * can reach no nested serialized call whose innermost transaction has lower options. Whether it can is decided by
    * the tree, the context and the driver's default level alone.
    */
  lemma AlwaysSerializableIff(name: nat -> string, default: nat, db: Db, ctx: Ctx, body: Body)
    requires (forall i: nat, j: nat :: name(i) == name(j) ==> i == j) && WellFormed(db) && Usable(db, ctx.conn)
    ensures AlwaysSerializable(name, default, db, ctx, body) <==> !Exposes(ViewOf(ctx), body, default)
  {
    hide Lost, Exposes, Hits, WellFormed, Usable, Run, Follows, ViewOf;
    if Exposes(ViewOf(ctx), body, default) {
      var script := Showing(ViewOf(ctx), body, default);
      var env := Scripted(script, db.clock, name, default);
      ScriptedFollows(script, db.clock, name, default);
      assert FreshNames(env);
      LostIffHits(env, db, ctx, body);
    } else {
      forall env: Env | env.name == name && env.defaultLevel == default ensures !Lost(Run(env, db, ctx, body).evts, default) {
        assert FreshNames(env);
        LostIffHits(env, db, ctx, body);
        if Hits(env, db.clock, ViewOf(ctx), body) { HitsAreExposed(env, db.clock, ViewOf(ctx), body); }
      }
    }
  }
}
