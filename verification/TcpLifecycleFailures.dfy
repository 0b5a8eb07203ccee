/** Exactly when a call on a connection breaks the protocol: the set of the state that comes after the
    connection was closed, and who can come that late. */
module TcpLifecycleFailures {
  import opened TcpLifecycle
  import opened TcpLifecycleTheorems

  /** The next step can run into a failed assertion. */
  ghost predicate Fails(s: State) {
    Shape(s) && exists a :: Enabled(s, a) && Fresh(s, a) && !Safe(s, a)
  }

  /** Some continuation, in which every further call sets the state in time, runs into a failed
      assertion. */
  ghost predicate CanFail(s: State) { exists s' :: Continues(s, s') && Fails(s') }

  lemma FailsNow(s: State, a: Action)
    requires Shape(s) && Enabled(s, a) && Fresh(s, a) && !Safe(s, a)
    ensures CanFail(s)
  {
    ContinuesSelf(s);
    assert Fails(s);
  }

  lemma FailsLater(s: State, a: Action)
    requires Shape(s) && Enabled(s, a) && Fresh(s, a) && CanFail(Apply(s, a))
    ensures CanFail(s)
  {
    var s' :| Continues(Apply(s, a), s') && Fails(s');
    var ss, acts :| IsRun(ss, acts) && ss[0] == Apply(s, a) && ss[|acts|] == s';
    var ss', acts' := [s] + ss, [a] + acts;
    forall i | 0 <= i < |acts'| ensures StepOk(ss', acts', i) {
      if i > 0 { assert StepOk(ss, acts, i - 1); }
    }
    assert IsRun(ss', acts') && ss'[|acts'|] == s';
  }

  lemma KeptSafe(s: State)
    requires Inv(s) && ChecksOk(s)
    ensures !CanFail(s)
  {
    forall s' | Continues(s, s') ensures !Fails(s') {
      ContinuesInv(s, s');
      forall a | Enabled(s', a) ensures Safe(s', a) {
        InvSafe(s', a);
      }
    }
  }

  // ---------------------------------------------------------------- after a late set

  /** What a late set leaves of connection `c`: it counts as open again although its removal is queued or
      done. Calls of the loops themselves are still in order. */
  ghost predicate Revived(s: State, c: nat) {
    && Shape(s) && c < |s.conns| && s.conns[c].state == Disconnecting && !s.conns[c].deleted
    && (forall t :: t in s.checked && t < |s.queues| ==>
          s.checked[t].0 != c && s.conns[s.checked[t].0].Open() && t == s.conns[s.checked[t].0].loop)
    && (if s.conns[c].loop == 0 then Name(c) !in s.registry
        else Elsewhere(s) && multiset(s.queues[0])[Remove(c)] >= if Name(c) in s.registry then 1 else 0)
  }

  /** All connections live on io loops, so that the base loop only removes. */
  ghost predicate Elsewhere(s: State)
    requires Shape(s)
  {
    (forall d :: 0 <= d < |s.conns| ==> s.conns[d].loop != 0) && forall u :: u in s.queues[0] ==> u.Remove?
  }

  lemma LateSetRevives(s: State, t: nat)
    requires Inv(s) && ChecksOk(s) && t in s.checked && !s.conns[s.checked[t].0].Open()
    ensures Revived(Apply(s, Set(t)), s.checked[t].0)
  {
    var c, s' := s.checked[t].0, Apply(s, Set(t));
    assert CheckOk(s, t) && ConnOk(s, c);
    forall u | u in s'.checked && u < |s'.queues|
      ensures s'.checked[u].0 != c && s'.conns[s'.checked[u].0].Open() && u == s'.conns[s'.checked[u].0].loop {
      assert CheckOk(s, u);
    }
    if s.conns[c].loop != 0 {
      BaseOnlyRemoves(s);
      assert s'.queues[0] == s.queues[0];
    }
  }

  lemma BaseOnlyRemoves(s: State)
    requires Inv(s) && s.ioLoops > 0
    ensures Elsewhere(s)
  {
    forall u | u in s.queues[0] ensures u.Remove? {
      assert 0 == Home(s, u);
    }
  }

  /** If the connection's loop is inside a call of its own, it finishes that first. */
  lemma LoopFinishes(s: State, c: nat)
    requires Revived(s, c) && s.conns[c].loop in s.checked
    ensures var a := Set(s.conns[c].loop);
            Enabled(s, a) && Fresh(s, a) && Revived(Apply(s, a), c) && LoopFree(Apply(s, a), s.conns[c].loop)
            && Apply(s, a).conns[c] == s.conns[c]
  {
    var l := s.conns[c].loop;
    var s' := Apply(s, Set(l));
    forall u | u in s'.checked && u < |s'.queues|
      ensures s'.checked[u].0 != c && s'.conns[s'.checked[u].0].Open() && u == s'.conns[s'.checked[u].0].loop {
      assert u in s.checked;
    }
    if l != 0 { assert s'.queues[0] == s.queues[0]; }
  }

  /** A late set leads to a failed assertion: the loop's own `forceCloseWithDelay` passes its test, closes
      the connection again, and a removal finds nothing to erase. */
  lemma RevivedFails(s: State, c: nat)
    requires Revived(s, c)
    ensures CanFail(s)
  {
    var l := s.conns[c].loop;
    if l in s.checked {
      LoopFinishes(s, c);
      FreeRevivedFails(Apply(s, Set(l)), c);
      FailsLater(s, Set(l));
    } else {
      FreeRevivedFails(s, c);
    }
  }

  lemma FreeRevivedFails(s: State, c: nat)
    requires Revived(s, c) && LoopFree(s, s.conns[c].loop)
    ensures CanFail(s)
  {
    var l := s.conns[c].loop;
    var s1 := Apply(s, Check(l, c, ForceLater));
    var s2 := Apply(s1, Set(l));
    assert s2 == s.(checked := s1.checked - {l}, conns := s.conns[c := s.conns[c]], delayed := s.delayed + multiset{c});
    assert s2.checked == s.checked;
    DelayedFails(s, s2, c);
    FailsLater(s1, Set(l));
    FailsLater(s, Check(l, c, ForceLater));
  }

  lemma DelayedFails(s: State, s2: State, c: nat)
    requires Revived(s, c) && LoopFree(s, s.conns[c].loop) && s2 == s.(delayed := s.delayed + multiset{c})
    ensures CanFail(s2)
  {
    if s.conns[c].loop == 0 {
      FailsNow(s2, DelayOver(c));
    } else {
      var s3 := Apply(s2, DelayOver(c));
      ClosedPends(s2.(delayed := s2.delayed - multiset{c}), c);
      PendingFails(s3, c);
      FailsLater(s2, DelayOver(c));
    }
  }

  /** More removals of `c` are queued than entries are left for it. */
  ghost predicate Pending(s: State, c: nat) {
    && Shape(s) && c < |s.conns| && Elsewhere(s) && LoopFree(s, 0)
    && multiset(s.queues[0])[Remove(c)] >= if Name(c) in s.registry then 2 else 1
  }

  lemma ClosedPends(s: State, c: nat)
    requires Revived(s, c) && s.conns[c].loop != 0
    ensures Pending(Closed(s, c), c)
  {
    var s' := Closed(s, c);
    assert s'.queues[0] == s.queues[0] + [Remove(c)];
    forall l, t | 0 <= l < |s'.queues| && t in s'.queues[l] ensures t.c < |s'.conns| {
      assert t in s.queues[l] || t == Remove(c);
    }
  }

  /** The base loop runs its removals until one finds nothing. */
  lemma {:induction false} PendingFails(s: State, c: nat)
    requires Pending(s, c)
    ensures CanFail(s)
    decreases |s.queues[0]|
  {
    var q := s.queues[0];
    assert q != [] && q == [q[0]] + q[1..] && q[0] in q;
    if !Safe(s, RunTask(0)) {
      FailsNow(s, RunTask(0));
    } else {
      RemovalPends(s, c);
      PendingFails(Apply(s, RunTask(0)), c);
      FailsLater(s, RunTask(0));
    }
  }

  lemma RemovalPends(s: State, c: nat)
    requires Pending(s, c) && Enabled(s, RunTask(0)) && Safe(s, RunTask(0))
    ensures Pending(Apply(s, RunTask(0)), c) && |Apply(s, RunTask(0)).queues[0]| < |s.queues[0]|
  {
    var q, s' := s.queues[0], Apply(s, RunTask(0));
    var d := q[0].c;
    assert q[0] in q && q[0] == Remove(d);
    assert s'.queues[0] == q[1..] && q == [q[0]] + q[1..];
    NamesAreUnique(c, d);
    forall l, t | 0 <= l < |s'.queues| && t in s'.queues[l] ensures t.c < |s'.conns| {
      assert t in s.queues[l] || t == Destroy(d);
    }
  }

  // ---------------------------------------------------------------- the theorems

  /** In every reachable state, the set that ends a call leads to a failed assertion in some continuation
      if and only if the connection has been closed since the call's test; whatever the call, whatever
      loop the connection lives on, and whatever else is queued. */
  lemma SetCanFailIffClosed(s: State, t: nat)
    requires Reachable(s) && t in s.checked
    ensures Shape(s) && s.checked[t].0 < |s.conns|
    ensures CanFail(Apply(s, Set(t))) <==> !s.conns[s.checked[t].0].Open()
  {
    ReachableInv(s);
    if s.conns[s.checked[t].0].Open() {
      StepInv(s, Set(t));
      StepChecks(s, Set(t));
      KeptSafe(Apply(s, Set(t)));
    } else {
      LateSetRevives(s, t);
      RevivedFails(Apply(s, Set(t)), s.checked[t].0);
    }
  }

  /** The call of thread `t` under way on connection `c` can still end in a failed assertion. */
  ghost predicate CallCanFail(s: State, t: nat, c: nat) {
    exists s' :: Continues(s, s') && t in s'.checked && s'.checked[t].0 == c && Shape(s') && CanFail(Apply(s', Set(t)))
  }

  /** The caller's condition: from every reachable state, a `shutdown`, `forceClose` or
      `forceCloseWithDelay` whose test passes can end in a failed assertion if and only if it is made on
      another thread than the connection's own loop. */
  lemma CallCanFailIffForeign(s: State, t: nat, c: nat, call: Call)
    requires Reachable(s) && Enabled(s, Check(t, c, call)) && Guard(s.conns[c], call)
    ensures Shape(s) && CallCanFail(Apply(s, Check(t, c, call)), t, c) <==> t != s.conns[c].loop
  {
    ReachableInv(s);
    var s1 := Apply(s, Check(t, c, call));
    StepInv(s, Check(t, c, call));
    StepChecks(s, Check(t, c, call));
    ReachableStep(s, Check(t, c, call));
    if t == s.conns[c].loop {
      forall s' | Continues(s1, s') && t in s'.checked && s'.checked[t].0 == c && Shape(s') ensures !CanFail(Apply(s', Set(t))) {
        OwnCallSafe(s, s1, s', t, c);
      }
    } else {
      var s' := ClosedMeanwhile(s1, t, c);
      ReachableThen(s1, s');
      SetCanFailIffClosed(s', t);
    }
  }

  lemma ReachableThen(s: State, s': State)
    requires Reachable(s) && Continues(s, s')
    ensures Reachable(s')
  {
    var ioLoops :| Continues(Init(ioLoops), s);
    ContinuesThen(Init(ioLoops), s, s');
  }

  lemma ContinuesThen(s: State, s': State, s'': State)
    requires Continues(s, s') && Continues(s', s'')
    ensures Continues(s, s'')
  {
    var ss, acts :| IsRun(ss, acts) && ss[0] == s && ss[|acts|] == s';
    var ss', acts' :| IsRun(ss', acts') && ss'[0] == s' && ss'[|acts'|] == s'';
    var all, steps := ss + ss'[1..], acts + acts';
    forall i | 0 <= i < |steps| ensures StepOk(all, steps, i) {
      JoinedStep(ss, acts, ss', acts', i);
    }
    assert IsRun(all, steps) && all[|steps|] == s'';
  }

  lemma JoinedStep(ss: seq<State>, acts: seq<Action>, ss': seq<State>, acts': seq<Action>, i: nat)
    requires IsRun(ss, acts) && IsRun(ss', acts') && ss[|acts|] == ss'[0] && i < |acts + acts'|
    ensures StepOk(ss + ss'[1..], acts + acts', i)
  {
    var all, steps := ss + ss'[1..], acts + acts';
    if i < |acts| {
      assert StepOk(ss, acts, i);
      assert all[i] == ss[i] && all[i + 1] == ss[i + 1] && steps[i] == acts[i];
    } else {
      var j := i - |acts|;
      assert StepOk(ss', acts', j);
      assert all[i] == ss'[j] && all[i + 1] == ss'[j + 1] && steps[i] == acts'[j];
    }
  }

  lemma SameLoops(s: State, a: Action)
    requires Shape(s) && Enabled(s, a)
    ensures Apply(s, a).ioLoops == s.ioLoops
  {
  }

  lemma {:induction false} LoopsStay(ss: seq<State>, acts: seq<Action>, n: nat)
    requires IsRun(ss, acts) && n <= |acts|
    ensures ss[n].ioLoops == ss[0].ioLoops
  {
    if n > 0 {
      LoopsStay(ss, acts, n - 1);
      assert StepOk(ss, acts, n - 1);
      SameLoops(ss[n - 1], acts[n - 1]);
    }
  }

  lemma OwnCallSafe(s: State, s1: State, s': State, t: nat, c: nat)
    requires Reachable(s1) && Continues(s1, s') && Shape(s) && s1.ioLoops == s.ioLoops
    requires c < |s.conns| && t == s.conns[c].loop && t in s'.checked && s'.checked[t].0 == c && Shape(s')
    ensures !CanFail(Apply(s', Set(t)))
  {
    ReachableThen(s1, s');
    ReachableInv(s');
    var ss, acts :| IsRun(ss, acts) && ss[0] == s1 && ss[|acts|] == s';
    LoopsStay(ss, acts, |acts|);
    OwnCallIsFresh(s', t);
    SetCanFailIffClosed(s', t);
  }

  /** While another thread is between its test and its set, the peer closes the connection. */
  lemma ClosedMeanwhile(s: State, t: nat, c: nat) returns (s': State)
    requires Inv(s) && ChecksOk(s) && t in s.checked && s.checked[t].0 == c && t >= |s.queues| && s.conns[c].Open()
    ensures Continues(s, s') && Shape(s') && t in s'.checked && s'.checked[t].0 == c && !s'.conns[c].Open()
  {
    var s1 := FreesLoop(s, t, c);
    assert ConnOk(s1, c);
    s' := Apply(s1, PeerClosed(c));
    StepInv(s1, PeerClosed(c));
    ContinuesStep(s, s1, PeerClosed(c));
  }

  lemma FreesLoop(s: State, t: nat, c: nat) returns (s': State)
    requires Inv(s) && ChecksOk(s) && t in s.checked && s.checked[t].0 == c && t >= |s.queues| && s.conns[c].Open()
    ensures Continues(s, s') && Inv(s') && t in s'.checked && s'.checked[t].0 == c && s'.conns[c].Open()
    ensures LoopFree(s', s'.conns[c].loop)
  {
    var l := s.conns[c].loop;
    ContinuesSelf(s);
    if l in s.checked {
      OwnCallIsFresh(s, l);
      StepInv(s, Set(l));
      ContinuesStep(s, s, Set(l));
      s' := Apply(s, Set(l));
    } else {
      s' := s;
    }
  }

  // ---------------------------------------------------------------- what the user sees

  /** At rest, a `forceClose` whose set comes after its connection is gone: on an io loop the user sees a
      second "down", and the removal then finds nothing to erase; on the base loop the next functor
      already runs into the failing erase. */
  lemma LateSetClosesTwice(s: State, t: nat)
    requires Inv(s) && t in s.checked && s.checked[t].1.Force?
    requires forall l :: 0 <= l < |s.queues| ==> s.queues[l] == [] && LoopFree(s, l)
    requires s.conns[s.checked[t].0].state == Disconnected
    ensures var c := s.checked[t].0; var l := s.conns[c].loop;
            var s1 := Apply(s, Set(t));
            && Shape(s1) && Enabled(s1, RunTask(l))
            && if l == 0 then !Safe(s1, RunTask(0))
               else
                 && Safe(s1, RunTask(l))
                 && var s2 := Apply(s1, RunTask(l));
                 && s2.conns[c].downs == 2 && Shape(s2) && Enabled(s2, RunTask(0)) && !Safe(s2, RunTask(0))
  {
    var c := s.checked[t].0;
    var l := s.conns[c].loop;
    assert ConnOk(s, c) && Count(s, Remove(c)) == 0;
    var s1 := Apply(s, Set(t));
    assert s1.queues[l] == [ForceCloseInLoop(c)];
    assert forall k, u :: 0 <= k < |s1.queues| && u in s1.queues[k] ==> u == ForceCloseInLoop(c);
    if l != 0 {
      var s2 := Apply(s1, RunTask(l));
      assert s2.queues[0] == [Remove(c)];
      assert forall k, u :: 0 <= k < |s2.queues| && u in s2.queues[k] ==> u == Remove(c);
    }
  }

  /** At rest, a late set by `shutdown` makes the destructor's assertion fail once nothing refers to the
      connection any more. */
  lemma LateSetFailsDestructor(s: State, t: nat)
    requires Inv(s) && t in s.checked && s.checked[t].1.Shutdown? && s.conns[s.checked[t].0].state == Disconnected
    requires forall l :: 0 <= l < |s.queues| ==> s.queues[l] == []
    requires !s.conns[s.checked[t].0].deleted && s.checked[t].0 !in s.delayed
    requires forall u :: u in s.checked && u != t ==> s.checked[u].0 != s.checked[t].0
    ensures var s1, c := Apply(s, Set(t)), s.checked[t].0;
            Shape(s1) && Enabled(s1, Delete(c)) && !Safe(s1, Delete(c))
  {
    var c := s.checked[t].0;
    assert ConnOk(s, c) && Count(s, Remove(c)) == 0 && Count(s, Destroy(c)) == 0;
  }

  /** Calls from other threads are dangerous from the start: the first connection, tested by thread `t`
      outside the loops as soon as it is up, can be closed before the set. */
  lemma ForeignCallMayFail(ioLoops: nat, t: nat, call: Call)
    requires t > ioLoops
    ensures exists s :: Reachable(s) && 0 < |s.conns| && Shape(s) && Enabled(s, Check(t, 0, call))
                        && CallCanFail(Apply(s, Check(t, 0, call)), t, 0)
  {
    var s := FirstUp(ioLoops);
    assert ConnOk(s, 0);
    CallCanFailIffForeign(s, t, 0, call);
  }

  lemma FirstUp(ioLoops: nat) returns (s: State)
    ensures Reachable(s) && Inv(s) && |s.conns| == 1 && s.conns[0].state == Connected && s.checked == map[] && s.ioLoops == ioLoops
  {
    var s0 := Init(ioLoops);
    InitReachable(ioLoops);
    InitInv(ioLoops);
    ReachableStep(s0, Accept);
    StepInv(s0, Accept);
    s := Apply(s0, Accept);
    if ioLoops > 0 {
      var s1 := s;
      assert s1.queues[1] == [Establish(0)];
      ReachableStep(s1, RunTask(1));
      StepInv(s1, RunTask(1));
      s := Apply(s1, RunTask(1));
    }
  }

  /** One connection on loop 1 is up, and thread 7 has tested its state in `forceClose`. */
  function Opened(): State {
    State(1, 0, [Conn(1, Connected, true, 0, 1, 0, false)], map[Name(0) := 0], [[], []], multiset{}, map[7 := (0, Force)])
  }

  /** The peer has closed the connection; its removal is queued. */
  function Closing(): State {
    State(1, 0, [Conn(1, Disconnected, false, 0, 1, 1, false)], map[Name(0) := 0], [[Remove(0)], []], multiset{}, map[7 := (0, Force)])
  }

  /** The connection has come and gone. */
  function Gone(): State {
    State(1, 0, [Conn(1, Disconnected, false, 1, 1, 1, false)], map[], [[], []], multiset{}, map[7 := (0, Force)])
  }

  lemma TwoQueues(q: seq<seq<Task>>, a: seq<Task>, b: seq<Task>)
    requires |q| == 2 && q[0] == a && q[1] == b
    ensures q == [a, b]
  {
  }

  lemma OpenedReachable()
    ensures Reachable(Opened()) && Inv(Opened())
  {
    var s0 := Init(1);
    InitReachable(1);
    InitInv(1);
    var s1 := Apply(s0, Accept);
    TwoQueues(s1.queues, [], [Establish(0)]);
    ReachableStep(s0, Accept);
    StepInv(s0, Accept);
    var s2 := Apply(s1, RunTask(1));
    TwoQueues(s2.queues, [], []);
    ReachableStep(s1, RunTask(1));
    StepInv(s1, RunTask(1));
    ReachableStep(s2, Check(7, 0, Force));
    StepInv(s2, Check(7, 0, Force));
    assert Apply(s2, Check(7, 0, Force)) == Opened();
  }

  lemma ClosingReachable()
    ensures Reachable(Closing()) && Inv(Closing())
  {
    OpenedReachable();
    ReachableStep(Opened(), PeerClosed(0));
    StepInv(Opened(), PeerClosed(0));
    TwoQueues(Apply(Opened(), PeerClosed(0)).queues, [Remove(0)], []);
    assert Apply(Opened(), PeerClosed(0)) == Closing();
  }

  /** It is forgotten; its destruction is queued. */
  function Forgotten(): State {
    State(1, 0, [Conn(1, Disconnected, false, 0, 1, 1, false)], map[], [[], [Destroy(0)]], multiset{}, map[7 := (0, Force)])
  }

  lemma ForgottenReachable()
    ensures Reachable(Forgotten()) && Inv(Forgotten())
  {
    ClosingReachable();
    var s2 := Apply(Closing(), RunTask(0));
    ReachableStep(Closing(), RunTask(0));
    StepInv(Closing(), RunTask(0));
    TwoQueues(s2.queues, [], [Destroy(0)]);
    assert s2.registry == map[];
    assert s2 == Forgotten();
  }

  lemma GoneReachable()
    ensures Reachable(Gone()) && Inv(Gone())
  {
    ForgottenReachable();
    ReachableStep(Forgotten(), RunTask(1));
    StepInv(Forgotten(), RunTask(1));
    TwoQueues(Apply(Forgotten(), RunTask(1)).queues, [], []);
    assert Apply(Forgotten(), RunTask(1)) == Gone();
  }

  /** A state at rest as in `LateSetClosesTwice` is reachable, so a `forceClose` on another thread can
      show the user a second "down" and make the erase fail. */
  lemma ForeignForceCloseMayCloseTwice()
    ensures Reachable(Gone()) && Inv(Gone()) && !Fresh(Gone(), Set(7))
    ensures var s2 := Apply(Apply(Gone(), Set(7)), RunTask(1));
            s2.conns[0].downs == 2 && Enabled(s2, RunTask(0)) && !Safe(s2, RunTask(0))
  {
    GoneReachable();
    LateSetClosesTwice(Gone(), 7);
  }
}
