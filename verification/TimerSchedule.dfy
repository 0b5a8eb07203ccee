/** When the kernel timer is armed and for when, and which timers the queue lets go: nobody's but those that
    were cancelled, and one-shot timers that have run. */
module TimerSchedule {
  import opened TimerQueue
  import opened TimerReaders
  import opened TimerTheorems

  function Later(x: int, y: int): int { if x < y then y else x }

  /** The descriptor fires at the time asked for, or 100 microseconds from now if that is later. */
  lemma ArmedForLater(when: int, now: int)
    ensures ArmedFor(when, now) == Armed(Later(when, now + MIN_DELAY), now)
  {
    var r := HowMuchTimeFromNow(when, now);
  }

  /** The step adds a timer that is due before all others. */
  predicate AddsEarliest(s: State, a: Action)
    requires Enabled(s, a) && Safe(s, a)
  {
    (a.Create? || (a.RunFunctor? && s.pending[0].Add?))
    && Apply(s, a).timers != [] && Earliest(s, Apply(s, a).timers[0].when)
  }

  /** `reset` ends with a timer waiting whose time stamp is valid. */
  predicate ResetsToValid(s: State, a: Action) { a.Rearm? && s.timers != [] && s.timers[0].when > 0 }

  /** The kernel timer after the step: set for the earliest expiration, or for 100 microseconds from now if
      that is later, in exactly the two cases above. */
  ghost predicate ArmsWell(s: State, a: Action)
    requires Enabled(s, a) && Safe(s, a)
  {
    var s' := Apply(s, a);
    if AddsEarliest(s, a) || ResetsToValid(s, a) then
      s'.timers != [] && s'.fd == Armed(Later(s'.timers[0].when, s.clock + MIN_DELAY), s.clock)
    else
      s'.fd == if a.Fire? then Fired else if a.Read? && s.fd.Fired? then Disarmed else s.fd
  }

  lemma ArmedExactly(s: State, a: Action)
    requires Inv(s) && Enabled(s, a) && Safe(s, a)
    ensures ArmsWell(s, a)
  {
    if a.Create? {
      CreateArms(s, a);
    } else if a.RunFunctor? {
      FunctorArms(s);
    } else if a.Rearm? {
      RearmArms(s);
    } else {
      OthersDoNotArm(s, a);
    }
  }

  lemma CreateArms(s: State, a: Action)
    requires Sorted(s.timers) && Enabled(s, a) && a.Create? && Safe(s, a)
    ensures ArmsWell(s, a)
  {
    AddArms(Allocated(s, a.addr, a.when, a.interval), a.addr);
  }

  lemma FunctorArms(s: State)
    requires Sorted(s.timers) && Enabled(s, RunFunctor) && Safe(s, RunFunctor)
    ensures ArmsWell(s, RunFunctor)
  {
    if s.pending[0].Add? {
      assert s.pending[0].addr in Touched(s, RunFunctor);
      AddArms(s.(pending := s.pending[1..]), s.pending[0].addr);
    }
  }

  lemma RearmArms(s: State)
    requires IndexOk(s) && Enabled(s, Rearm) && Safe(s, Rearm)
    ensures ArmsWell(s, Rearm)
  {
    if s.timers != [] {
      assert Holds(s, s.timers[0]);
      ArmedForLater(s.timers[0].when, s.clock);
    }
  }

  lemma OthersDoNotArm(s: State, a: Action)
    requires Enabled(s, a) && Safe(s, a) && !a.Create? && !a.RunFunctor? && !a.Rearm?
    ensures ArmsWell(s, a)
  {
  }

  lemma AddArms(s: State, addr: nat)
    requires addr in s.heap && Sorted(s.timers)
    ensures var s', when := AddedInLoop(s, addr), s.heap[addr].expiration;
            && s'.timers != [] && (Earliest(s, when) <==> Earliest(s, s'.timers[0].when))
            && s'.fd == if Earliest(s, when) then Armed(Later(s'.timers[0].when, s.clock + MIN_DELAY), s.clock) else s.fd
  {
    InsertedOk(s.timers, EntryOf(s, addr));
    ArmedForLater(s.heap[addr].expiration, s.clock);
  }

  // ---------------------------------------------------------------- who is let go

  /** The step ends the life of a one-shot timer that has run, or of one cancelled while its batch ran. */
  ghost predicate LetsGo(s: State, a: Action, id: TimerId)
    requires Enabled(s, a)
  {
    && a.Reclaim? && Names(s, id) && s.phase.batch[s.phase.next].addr == id.addr
    && (!s.heap[id.addr].repeat || id in s.canceling)
  }

  /** A step frees exactly the timer that it cancels, if it waits, or the one that `reset` lets go. */
  lemma FreedExactly(s: State, a: Action, id: TimerId)
    requires ActiveOk(s) && FreedOk(s) && Enabled(s, a) && Safe(s, a) && Names(s, id)
    ensures id.sequence in Apply(s, a).freed <==> (Cancels(s, a, id) && Waiting(s, id.addr)) || LetsGo(s, a, id)
    ensures !Names(Apply(s, a), id) <==> id.sequence in Apply(s, a).freed
    ensures Names(Apply(s, a), id) ==>
              Apply(s, a).heap[id.addr].repeat == s.heap[id.addr].repeat && Apply(s, a).heap[id.addr].interval == s.heap[id.addr].interval
  {
    assert id.sequence !in s.freed;
    if a.Cancel? {
      HereFrees(s, a, id);
    } else if a.RunFunctor? && s.pending[0].Drop? {
      DropFrees(s, id);
    } else if a.Reclaim? {
      ReclaimFrees(s, id);
    } else {
      NothingFreed(s, a, id);
    }
  }

  lemma HereFrees(s: State, a: Action, id: TimerId)
    requires ActiveOk(s) && FreedOk(s) && Enabled(s, a) && a.Cancel? && Safe(s, a) && Names(s, id)
    ensures var s' := Apply(s, a);
            && (id.sequence in s'.freed <==> a.id == id && Waiting(s, id.addr))
            && (if a.id == id && Waiting(s, id.addr) then id.addr !in s'.heap
                else id.addr in s'.heap && s'.heap[id.addr] == s.heap[id.addr])
  {
    CancelFrees(s, a.id, id);
  }

  lemma DropFrees(s: State, id: TimerId)
    requires ActiveOk(s) && FreedOk(s) && Enabled(s, RunFunctor) && Safe(s, RunFunctor) && s.pending[0].Drop? && Names(s, id)
    ensures var s' := Apply(s, RunFunctor);
            && (id.sequence in s'.freed <==> s.pending[0].id == id && Waiting(s, id.addr))
            && (if s.pending[0].id == id && Waiting(s, id.addr) then id.addr !in s'.heap
                else id.addr in s'.heap && s'.heap[id.addr] == s.heap[id.addr])
  {
    CancelFrees(s.(pending := s.pending[1..]), s.pending[0].id, id);
  }

  lemma NothingFreed(s: State, a: Action, id: TimerId)
    requires Enabled(s, a) && Safe(s, a) && Names(s, id) && !a.Reclaim? && !a.Cancel?
    requires a.RunFunctor? ==> s.pending[0].Add?
    ensures Apply(s, a).freed == s.freed && id.addr in Apply(s, a).heap && Apply(s, a).heap[id.addr] == s.heap[id.addr]
  {
  }

  lemma CancelFrees(s: State, other: TimerId, id: TimerId)
    requires ActiveOk(s) && FreedOk(s) && Canceled(s, other) <= s.heap.Keys && Names(s, id)
    ensures var s' := CanceledInLoop(s, other);
            && (id.sequence in s'.freed <==> other == id && Waiting(s, id.addr))
            && (if other == id && Waiting(s, id.addr) then id.addr !in s'.heap
                else id.addr in s'.heap && s'.heap[id.addr] == s.heap[id.addr])
  {
    assert id in s.active <==> Waiting(s, id.addr);
    if other in s.active { assert Waiting(s, other.addr) && s.heap[other.addr].sequence == other.sequence; }
  }

  lemma ReclaimFrees(s: State, id: TimerId)
    requires FreedOk(s) && Enabled(s, Reclaim) && Safe(s, Reclaim) && Names(s, id)
    ensures var s' := Apply(s, Reclaim);
            && (id.sequence in s'.freed <==> LetsGo(s, Reclaim, id))
            && (!Names(s', id) <==> LetsGo(s, Reclaim, id))
            && (Names(s', id) ==> s'.heap[id.addr].repeat == s.heap[id.addr].repeat && s'.heap[id.addr].interval == s.heap[id.addr].interval)
  {
    var addr := s.phase.batch[s.phase.next].addr;
    assert addr in Touched(s, Reclaim);
    assert s.heap[addr].sequence == id.sequence ==> addr == id.addr;
  }

  /** Only a cancel of the timer bars it from its next schedule. */
  lemma BarredByCancel(s: State, a: Action, id: TimerId)
    requires Enabled(s, a) && Safe(s, a) && id !in s.canceling && !Cancels(s, a, id)
    ensures id !in Apply(s, a).canceling
  {
  }

  ghost predicate CancelsAt(ss: seq<State>, acts: seq<Action>, k: nat, id: TimerId)
    requires |ss| == |acts| + 1 && k < |acts|
  {
    Enabled(ss[k], acts[k]) && Cancels(ss[k], acts[k], id)
  }

  /** No step up to step `n` cancels `id`. */
  ghost predicate NeverCancelled(ss: seq<State>, acts: seq<Action>, n: nat, id: TimerId)
    requires |ss| == |acts| + 1 && n <= |acts|
  {
    forall k :: 0 <= k < n ==> !CancelsAt(ss, acts, k, id)
  }

  lemma {:induction false} NeverBarred(ss: seq<State>, acts: seq<Action>, n: nat, id: TimerId, clock: int)
    requires IsRun(ss, acts) && ss[0] == Init(clock) && n <= |acts| && NeverCancelled(ss, acts, n, id)
    ensures Inv(ss[n]) && id !in ss[n].canceling
  {
    InitInv(clock);
    RunInv(ss, acts, n);
    if n > 0 {
      assert StepOk(ss, acts, n - 1) && !CancelsAt(ss, acts, n - 1, id);
      NeverBarred(ss, acts, n - 1, id, clock);
      BarredByCancel(ss[n - 1], acts[n - 1], id);
    }
  }

  /** A repeating timer that nobody cancels lives on: it is waiting, in the running batch or posted, with
      its interval unchanged, in every later state. */
  lemma {:induction false} UncancelledRepeats(ss: seq<State>, acts: seq<Action>, m: nat, n: nat, id: TimerId, clock: int)
    requires IsRun(ss, acts) && ss[0] == Init(clock) && m <= n <= |acts| && NeverCancelled(ss, acts, n, id)
    requires Names(ss[m], id) && ss[m].heap[id.addr].repeat
    ensures Names(ss[n], id) && ss[n].heap[id.addr].repeat && ss[n].heap[id.addr].interval == ss[m].heap[id.addr].interval
    ensures Waiting(ss[n], id.addr) || InBatch(ss[n], id.addr) || Posted(ss[n], id.addr)
  {
    NeverBarred(ss, acts, n, id, clock);
    if m < n {
      assert StepOk(ss, acts, n - 1) && !CancelsAt(ss, acts, n - 1, id);
      NeverBarred(ss, acts, n - 1, id, clock);
      UncancelledRepeats(ss, acts, m, n - 1, id, clock);
      FreedExactly(ss[n - 1], acts[n - 1], id);
    }
    assert OnePlace(ss[n], id.addr);
  }

  /** `reset` puts a repeating timer of the batch that was not cancelled back in line, one period after its
      last expiration. */
  lemma Rescheduled(s: State)
    requires Inv(s) && Enabled(s, Reclaim) && Safe(s, Reclaim)
    ensures var addr, s' := s.phase.batch[s.phase.next].addr, Apply(s, Reclaim);
            var t := s.heap[addr];
            t.repeat && TimerId(addr, t.sequence) !in s.canceling ==>
              Waiting(s', addr) && s'.heap[addr].expiration == t.expiration + t.Period()
              && TimerId(addr, t.sequence) in s'.active
  {
    var addr := s.phase.batch[s.phase.next].addr;
    ResetInv(s);
    if s.heap[addr].repeat { InsertedOk(s.timers, Entry(s.heap[addr].Restarted().expiration, addr)); }
  }

  /** A one-shot timer is alive, or has been freed after it started once. */
  ghost predicate OneShot(s: State, id: TimerId) {
    if id.sequence in s.freed then multiset(s.starts)[id.sequence] == 1
    else Names(s, id) && !s.heap[id.addr].repeat
  }

  lemma OneShotStep(s: State, a: Action, id: TimerId)
    requires Inv(s) && Enabled(s, a) && Safe(s, a) && OneShot(s, id) && id !in s.canceling && !Cancels(s, a, id)
    ensures OneShot(Apply(s, a), id)
  {
    if id.sequence in s.freed {
      FreedStaysQuiet(s, a, id);
      FreedGrows(s, a, id);
    } else {
      FreedExactly(s, a, id);
      if LetsGo(s, a, id) { RanBeforeReset(s, id.addr); }
    }
  }

  lemma OneShotNext(ss: seq<State>, acts: seq<Action>, n: nat, id: TimerId, clock: int)
    requires IsRun(ss, acts) && ss[0] == Init(clock) && n < |acts| && NeverCancelled(ss, acts, n + 1, id) && OneShot(ss[n], id)
    ensures OneShot(ss[n + 1], id)
  {
    NeverBarred(ss, acts, n, id, clock);
    assert StepOk(ss, acts, n) && !CancelsAt(ss, acts, n, id);
    OneShotStep(ss[n], acts[n], id);
  }

  lemma OneShotFirst(ss: seq<State>, acts: seq<Action>, m: nat, id: TimerId, clock: int)
    requires IsRun(ss, acts) && ss[0] == Init(clock) && m <= |acts| && Names(ss[m], id) && !ss[m].heap[id.addr].repeat
    ensures OneShot(ss[m], id)
  {
    InitInv(clock);
    RunInv(ss, acts, m);
    assert ss[m].heap[id.addr].sequence !in ss[m].freed;
  }

  /** A one-shot timer that nobody cancels is freed only after it has started, and starts once. */
  lemma {:induction false} UncancelledRunsOnce(ss: seq<State>, acts: seq<Action>, m: nat, n: nat, id: TimerId, clock: int)
    requires IsRun(ss, acts) && ss[0] == Init(clock) && m <= n <= |acts| && NeverCancelled(ss, acts, n, id)
    requires Names(ss[m], id) && !ss[m].heap[id.addr].repeat
    ensures OneShot(ss[n], id)
  {
    if m < n {
      UncancelledRunsOnce(ss, acts, m, n - 1, id, clock);
      OneShotNext(ss, acts, n - 1, id, clock);
    } else {
      OneShotFirst(ss, acts, m, id, clock);
    }
  }

  /** The timer that `reset` looks at has started, once since it was last scheduled. */
  lemma RanBeforeReset(s: State, addr: nat)
    requires Inv(s) && Enabled(s, Reclaim) && addr in s.heap && s.phase.batch[s.phase.next].addr == addr && !s.heap[addr].repeat
    ensures multiset(s.starts)[s.heap[addr].sequence] == 1 && Apply(s, Reclaim).starts == s.starts
  {
    ResetTarget(s);
    assert TimerOk(s, addr);
    assert EntryOf(s, addr) == s.phase.batch[s.phase.next];
  }

  // ---------------------------------------------------------------- what other threads ask for

  /** `f` is the k-th functor in line, counting from 0. */
  ghost predicate InLine(s: State, k: nat, f: Functor) { k < |s.pending| && s.pending[k] == f }

  /** How many functors the loop runs from step `i` up to step `n`. */
  ghost function FunctorsRun(acts: seq<Action>, i: nat, n: nat): nat
    requires i <= n <= |acts|
  {
    if i == n then 0 else FunctorsRun(acts, i, n - 1) + if acts[n - 1].RunFunctor? then 1 else 0
  }

  lemma MovesUp(s: State, a: Action, k: nat, f: Functor)
    requires Enabled(s, a) && Safe(s, a) && InLine(s, k, f)
    ensures if !a.RunFunctor? then InLine(Apply(s, a), k, f) else k > 0 ==> InLine(Apply(s, a), k - 1, f)
  {
  }

  /** Functor `f` runs at step `m`. */
  ghost predicate RunsAt(ss: seq<State>, acts: seq<Action>, m: nat, f: Functor)
    requires |ss| == |acts| + 1 && m < |acts|
  {
    acts[m].RunFunctor? && ss[m].pending != [] && ss[m].pending[0] == f
  }

  lemma {:induction false} RunsInTurn(ss: seq<State>, acts: seq<Action>, i: nat, n: nat, k: nat, f: Functor)
    requires IsRun(ss, acts) && i <= n <= |acts| && InLine(ss[i], k, f)
    ensures if FunctorsRun(acts, i, n) <= k then InLine(ss[n], k - FunctorsRun(acts, i, n), f)
            else exists m :: i <= m < n && RunsAt(ss, acts, m, f)
  {
    if i < n {
      RunsInTurn(ss, acts, i, n - 1, k, f);
      assert StepOk(ss, acts, n - 1);
      var ran := FunctorsRun(acts, i, n - 1);
      if ran <= k {
        MovesUp(ss[n - 1], acts[n - 1], k - ran, f);
        if acts[n - 1].RunFunctor? && ran == k { assert RunsAt(ss, acts, n - 1, f); }
      } else {
        var m :| i <= m < n - 1 && RunsAt(ss, acts, m, f);
      }
    }
  }

  /** A cancel that another thread posts takes place: once the loop has run the functors that were queued
      before it and one more, `cancelInLoop` has been called with its id. */
  lemma PostedCancelRuns(ss: seq<State>, acts: seq<Action>, i: nat, n: nat, id: TimerId)
    requires IsRun(ss, acts) && i < n <= |acts| && acts[i] == PostCancel(id)
    requires FunctorsRun(acts, i + 1, n) > |ss[i].pending|
    ensures exists m :: i < m < n && CancelsAt(ss, acts, m, id)
  {
    assert StepOk(ss, acts, i);
    RunsInTurn(ss, acts, i + 1, n, |ss[i].pending|, Drop(id));
    var m :| i + 1 <= m < n && RunsAt(ss, acts, m, Drop(id));
    assert StepOk(ss, acts, m);
    assert CancelsAt(ss, acts, m, id);
  }

  /** And so does a timer: it is then among the waiting timers. */
  lemma PostedTimerAdded(ss: seq<State>, acts: seq<Action>, i: nat, n: nat, t: nat, addr: nat, when: int, interval: real, clock: int)
    requires IsRun(ss, acts) && ss[0] == Init(clock) && i < n <= |acts| && acts[i] == Post(t, addr, when, interval)
    requires FunctorsRun(acts, i + 1, n) > |ss[i].pending|
    ensures exists m :: i < m < n && RunsAt(ss, acts, m, Add(addr)) && Waiting(ss[m + 1], addr)
  {
    assert StepOk(ss, acts, i);
    RunsInTurn(ss, acts, i + 1, n, |ss[i].pending|, Add(addr));
    var m :| i + 1 <= m < n && RunsAt(ss, acts, m, Add(addr));
    InitInv(clock);
    RunInv(ss, acts, m);
    assert StepOk(ss, acts, m);
    AddedWaits(ss[m], addr);
  }

  lemma AddedWaits(s: State, addr: nat)
    requires Sorted(s.timers) && Enabled(s, RunFunctor) && Safe(s, RunFunctor) && s.pending[0] == Add(addr)
    ensures Waiting(Apply(s, RunFunctor), addr)
  {
    assert addr in Touched(s, RunFunctor);
    InsertedOk(s.timers, EntryOf(s, addr));
  }
}
