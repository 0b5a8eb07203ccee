/** A close that was asked for takes place: the functor of `forceClose` and the timer of
    `forceCloseWithDelay` wait for their turn and then end the connection. */
module TcpLifecycleClosing {
  import opened TcpLifecycle
  import opened TcpLifecycleTheorems

  /** The connection has gone down, and the user has been told once. */
  ghost predicate Ended(s: State, c: nat) {
    c < |s.conns| && s.conns[c].state == Disconnected && s.conns[c].downs == 1
  }

  /** The step carries out a forced close of `c`, or its peer's. */
  ghost predicate Closes(s: State, a: Action, c: nat)
    requires Shape(s) && Enabled(s, a)
  {
    a == DelayOver(c) || a == PeerClosed(c) || (a.RunTask? && s.queues[a.l][0] == ForceCloseInLoop(c))
  }

  /** `handleClose` runs for an open connection, and the connection has ended. */
  lemma CloseEnds(s: State, a: Action, c: nat)
    requires Inv(s) && Enabled(s, a) && Closes(s, a, c) && c < |s.conns| && s.conns[c].state != Connecting
    ensures Ended(Apply(s, a), c)
    ensures Apply(s, a).conns[c].downs == s.conns[c].downs + (if s.conns[c].Open() then 1 else 0)
    ensures Apply(s, a).delayed == if a == DelayOver(c) then s.delayed - multiset{c} else s.delayed
  {
    assert ConnOk(s, c);
  }

  /** What has ended stays so. */
  lemma EndedStays(s: State, a: Action, c: nat)
    requires Inv(s) && Enabled(s, a) && Fresh(s, a) && Ended(s, c)
    ensures Ended(Apply(s, a), c)
  {
    InvSafe(s, a);
    if a.RunTask? { TaskKeepsEnded(s, a.l, c); }
  }

  lemma TaskKeepsEnded(s: State, l: nat, c: nat)
    requires Shape(s) && Enabled(s, RunTask(l)) && Safe(s, RunTask(l)) && Ended(s, c)
    ensures Ended(Apply(s, RunTask(l)), c)
  {
  }

  lemma StartedStays(s: State, a: Action, c: nat)
    requires Shape(s) && Enabled(s, a) && c < |s.conns| && s.conns[c].state != Connecting
    ensures c < |Apply(s, a).conns| && Apply(s, a).conns[c].state != Connecting
  {
    if a.RunTask? { TaskKeepsStarted(s, a.l, c); }
  }

  lemma TaskKeepsStarted(s: State, l: nat, c: nat)
    requires Shape(s) && Enabled(s, RunTask(l)) && c < |s.conns| && s.conns[c].state != Connecting
    ensures c < |Apply(s, RunTask(l)).conns| && Apply(s, RunTask(l)).conns[c].state != Connecting
  {
  }

  // ---------------------------------------------------------------- calls

  /** `shutdown` goes on past its test if and only if the connection is connected, a forced close if and
      only if it is open; what goes on marks the connection, and a forced close is then queued behind all
      that its loop has to do, or timed. */
  lemma CallTakesEffect(s: State, t: nat, c: nat, call: Call)
    requires Shape(s) && Enabled(s, Check(t, c, call))
    ensures var s1 := Apply(s, Check(t, c, call));
            && Shape(s1) && s1 == s.(checked := s1.checked)
            && (t in s1.checked <==> if call == Shutdown then s.conns[c].state == Connected else s.conns[c].Open())
            && (t in s1.checked ==>
                  && s1.checked == s.checked[t := (c, call)]
                  && var s2, l := Apply(s1, Set(t)), s.conns[c].loop;
                     && s2.conns == s.conns[c := s.conns[c].(state := Disconnecting)] && s2.checked == s.checked
                     && (call == Force ==> s2.queues == s.queues[l := s.queues[l] + [ForceCloseInLoop(c)]])
                     && (call == ForceLater ==> s2.delayed == s.delayed + multiset{c} && s2.queues == s.queues)
                     && (call == Shutdown ==> s2.delayed == s.delayed && s2.queues == s.queues))
  {
    var s1 := Apply(s, Check(t, c, call));
    if t in s1.checked {
      assert s1.checked - {t} == s.checked;
    }
  }

  // ---------------------------------------------------------------- waiting in line

  /** `task` is the k-th in line of loop `l`, counting from 0. */
  ghost predicate InLine(s: State, l: nat, k: nat, task: Task) {
    l < |s.queues| && k < |s.queues[l]| && s.queues[l][k] == task
  }

  /** A functor moves up by one when its loop runs one, and no other step moves it. */
  lemma MovesUp(s: State, a: Action, l: nat, k: nat, task: Task)
    requires Shape(s) && Enabled(s, a) && InLine(s, l, k, task)
    ensures a == RunTask(l) && k > 0 ==> InLine(Apply(s, a), l, k - 1, task)
    ensures a != RunTask(l) ==> InLine(Apply(s, a), l, k, task)
  {
    if a.RunTask? {
      var first, s1 := s.queues[a.l][0], Popped(s, a.l);
      assert first in s.queues[a.l];
      if a.l != l {
        TaskKeepsLine(s1, first, l, k, task);
      } else if k > 0 {
        TaskKeepsLine(s1, first, l, k - 1, task);
      }
    } else {
      OtherKeepsLine(s, a, l, k, task);
    }
  }

  lemma TaskKeepsLine(s: State, t: Task, l: nat, k: nat, task: Task)
    requires t.c < |s.conns| && s.conns[t.c].loop < |s.queues| && InLine(s, l, k, task)
    ensures InLine(Executed(s, t), l, k, task)
  {
  }

  lemma OtherKeepsLine(s: State, a: Action, l: nat, k: nat, task: Task)
    requires Shape(s) && Enabled(s, a) && !a.RunTask? && InLine(s, l, k, task)
    ensures InLine(Apply(s, a), l, k, task)
  {
  }

  /** How many functors loop `l` runs from step `i` up to step `n`. */
  ghost function Ran(acts: seq<Action>, l: nat, i: nat, n: nat): nat
    requires i <= n <= |acts|
  {
    if i == n then 0 else Ran(acts, l, i, n - 1) + if acts[n - 1] == RunTask(l) then 1 else 0
  }

  /** A forced close is in line, or has ended the connection. */
  ghost predicate ForcePending(s: State, l: nat, k: int, c: nat) {
    && c < |s.conns| && s.conns[c].state != Connecting
    && (if k >= 0 then InLine(s, l, k, ForceCloseInLoop(c)) else Ended(s, c))
  }

  lemma ForceStep(s: State, a: Action, l: nat, k: int, c: nat)
    requires Inv(s) && Enabled(s, a) && Fresh(s, a) && ForcePending(s, l, k, c)
    ensures ForcePending(Apply(s, a), l, if a == RunTask(l) then k - 1 else k, c)
  {
    StartedStays(s, a, c);
    if k >= 0 {
      MovesUp(s, a, l, k, ForceCloseInLoop(c));
      if a == RunTask(l) && k == 0 { CloseEnds(s, a, c); }
    } else {
      EndedStays(s, a, c);
    }
  }

  lemma ForceNext(ss: seq<State>, acts: seq<Action>, ioLoops: nat, n: nat, l: nat, k: int, c: nat)
    requires IsRun(ss, acts) && ss[0] == Init(ioLoops) && n < |acts| && ForcePending(ss[n], l, k, c)
    ensures ForcePending(ss[n + 1], l, if acts[n] == RunTask(l) then k - 1 else k, c)
  {
    InitInv(ioLoops);
    RunInv(ss, acts, n);
    assert StepOk(ss, acts, n);
    ForceStep(ss[n], acts[n], l, k, c);
  }

  lemma {:induction false} ForceRun(ss: seq<State>, acts: seq<Action>, ioLoops: nat, i: nat, n: nat, l: nat, k: int, c: nat)
    requires IsRun(ss, acts) && ss[0] == Init(ioLoops) && i <= n <= |acts| && ForcePending(ss[i], l, k, c)
    ensures ForcePending(ss[n], l, k - Ran(acts, l, i, n), c)
  {
    if i < n {
      ForceRun(ss, acts, ioLoops, i, n - 1, l, k, c);
      ForceNext(ss, acts, ioLoops, n - 1, l, k - Ran(acts, l, i, n - 1), c);
    }
  }

  lemma ForceQueued(s: State, t: nat)
    requires Inv(s) && Enabled(s, Set(t)) && Fresh(s, Set(t)) && s.checked[t].1 == Force
    ensures var c := s.checked[t].0;
            && c < |s.conns| && s.conns[c].loop < |s.queues|
            && ForcePending(Apply(s, Set(t)), s.conns[c].loop, |s.queues[s.conns[c].loop]|, c)
  {
  }

  /** `forceClose` takes effect: once the connection's loop has run the functors that were queued before it
      and one more, the connection has ended, whatever else happened meanwhile. */
  lemma ForceCloseTakesEffect(ss: seq<State>, acts: seq<Action>, ioLoops: nat, i: nat, n: nat, t: nat, c: nat)
    requires IsRun(ss, acts) && ss[0] == Init(ioLoops) && i < n <= |acts|
    requires acts[i] == Set(t) && t in ss[i].checked && ss[i].checked[t] == (c, Force)
    ensures c < |ss[i].conns| && ss[i].conns[c].loop < |ss[i].queues|
    ensures var l := ss[i].conns[c].loop;
            if Ran(acts, l, i + 1, n) <= |ss[i].queues[l]|
            then InLine(ss[n], l, |ss[i].queues[l]| - Ran(acts, l, i + 1, n), ForceCloseInLoop(c))
            else Ended(ss[n], c)
  {
    InitInv(ioLoops);
    RunInv(ss, acts, i);
    assert StepOk(ss, acts, i);
    ForceQueued(ss[i], t);
    var l := ss[i].conns[c].loop;
    ForceRun(ss, acts, ioLoops, i + 1, n, l, |ss[i].queues[l]|, c);
  }

  // ---------------------------------------------------------------- after a delay

  ghost predicate DelayPending(s: State, c: nat) {
    c < |s.conns| && s.conns[c].state != Connecting && (c in s.delayed || Ended(s, c))
  }

  lemma DelayStep(s: State, a: Action, c: nat)
    requires Inv(s) && Enabled(s, a) && Fresh(s, a) && DelayPending(s, c)
    ensures DelayPending(Apply(s, a), c) && (a == DelayOver(c) ==> Ended(Apply(s, a), c))
    ensures Ended(s, c) ==> Ended(Apply(s, a), c)
  {
    StartedStays(s, a, c);
    if a == DelayOver(c) { CloseEnds(s, a, c); }
    if Ended(s, c) { EndedStays(s, a, c); }
  }

  lemma {:induction false} DelayRun(ss: seq<State>, acts: seq<Action>, i: nat, n: nat, c: nat)
    requires IsRun(ss, acts) && Inv(ss[0]) && ChecksOk(ss[0]) && i <= n <= |acts| && DelayPending(ss[i], c)
    ensures DelayPending(ss[n], c) && (DelayOver(c) in acts[i..n] ==> Ended(ss[n], c))
  {
    if i < n {
      DelayRun(ss, acts, i, n - 1, c);
      RunInv(ss, acts, n - 1);
      assert StepOk(ss, acts, n - 1);
      DelayStep(ss[n - 1], acts[n - 1], c);
      assert acts[i..n] == acts[i..n - 1] + [acts[n - 1]];
    }
  }

  /** `forceCloseWithDelay` takes effect: its timer is set, and once a timer of the connection has run, the
      connection has ended. */
  lemma DelayedCloseTakesEffect(ss: seq<State>, acts: seq<Action>, ioLoops: nat, i: nat, n: nat, t: nat, c: nat)
    requires IsRun(ss, acts) && ss[0] == Init(ioLoops) && i < n <= |acts|
    requires acts[i] == Set(t) && t in ss[i].checked && ss[i].checked[t] == (c, ForceLater)
    ensures c in ss[n].delayed || Ended(ss[n], c)
    ensures DelayOver(c) in acts[i + 1..n] ==> Ended(ss[n], c)
  {
    InitInv(ioLoops);
    RunInv(ss, acts, i);
    assert StepOk(ss, acts, i);
    DelayRun(ss, acts, i + 1, n, c);
  }
}
