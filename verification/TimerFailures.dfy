/** Exactly where the timer queue's promises end: which timers it can lose, and whose read of a sequence
    number can come too late. */
module TimerFailures {
  import opened TimerQueue
  import opened TimerReaders
  import opened TimerTheorems

  // ---------------------------------------------------------------- lost timers

  /** The timers that a run adds are all among `adds`, by expiration and interval. */
  ghost predicate AddsOnly(acts: seq<Action>, adds: set<(int, real)>) {
    forall a :: a in acts && (a.Create? || a.Post?) ==> (a.when, a.interval) in adds
  }

  ghost predicate ReachesAdding(s: State, s': State, adds: set<(int, real)>) {
    exists ss, acts :: IsRun(ss, acts) && ss[0] == s && ss[|acts|] == s' && AddsOnly(acts, adds)
  }

  lemma AddingNothing(s: State, adds: set<(int, real)>)
    ensures ReachesAdding(s, s, adds)
  {
    assert IsRun([s], []) && AddsOnly([], adds);
  }

  lemma AddingStep(s: State, s': State, a: Action, adds: set<(int, real)>)
    requires ReachesAdding(s, s', adds) && Enabled(s', a) && Safe(s', a)
    requires a.Create? || a.Post? ==> (a.when, a.interval) in adds
    ensures ReachesAdding(s, Apply(s', a), adds)
  {
    var ss, acts :| IsRun(ss, acts) && ss[0] == s && ss[|acts|] == s' && AddsOnly(acts, adds);
    var ss', acts' := ss + [Apply(s', a)], acts + [a];
    forall i | 0 <= i < |acts'| ensures StepOk(ss', acts', i) {
      if i < |acts| { assert StepOk(ss, acts, i); }
    }
    assert IsRun(ss', acts') && AddsOnly(acts', adds);
  }

  /** Some timer is waiting while the loop is idle, and the kernel timer will not fire in time for it. */
  ghost predicate Lost(s: State) { s.phase.Idle? && !Covered(s) }

  /** The only timer, added and armed for, its id read. */
  function OneAdded(clock: int, when: int, interval: real): State
    requires when <= clock
  {
    State(map[1 := Timer(when, interval, interval > 0.0, 0)], [Entry(when, 1)], {TimerId(1, 0)}, {}, Idle,
          [], 1, Armed(clock + MIN_DELAY, clock), clock, [], [], map[0 := when], map[], {TimerId(1, 0)})
  }

  /** The state after one run of a single timer, in the `reset` loop. */
  function OneRan(clock: int, when: int, interval: real): State {
    State(map[1 := Timer(when, interval, interval > 0.0, 0)], [], {}, {}, Resetting([Entry(when, 1)], 0, clock + MIN_DELAY),
          [], 1, Disarmed, clock + MIN_DELAY, [0], [], map[0 := when], map[], {TimerId(1, 0)})
  }

  /** A single timer that is not renewable, put back by `reset` with the kernel timer disarmed. */
  function OneLost(clock: int, when: int, interval: real): State
    requires interval > 0.0
  {
    var again := Timer(when, interval, true, 0).Restarted();
    State(map[1 := again], [Entry(again.expiration, 1)], {TimerId(1, 0)}, {}, Idle,
          [], 1, Disarmed, clock + MIN_DELAY, [0], [], map[0 := when], map[], {TimerId(1, 0)})
  }

  lemma ReachesOneAdded(clock: int, when: int, interval: real, adds: set<(int, real)>)
    requires when <= clock && (when, interval) in adds
    ensures ReachesAdding(Init(clock), OneAdded(clock, when, interval), adds)
  {
    var s0 := Init(clock);
    AddingNothing(s0, adds);
    AddingStep(s0, s0, Create(1, when, interval), adds);
    var s1 := Apply(s0, Create(1, when, interval));
    AddingStep(s0, s1, ReadId(LOOP), adds);
    assert Apply(s1, ReadId(LOOP)) == OneAdded(clock, when, interval);
  }

  lemma ReachesOneRan(clock: int, when: int, interval: real, adds: set<(int, real)>)
    requires when <= clock && (when, interval) in adds
    ensures ReachesAdding(Init(clock), OneRan(clock, when, interval), adds)
  {
    var s0, s1 := Init(clock), OneAdded(clock, when, interval);
    ReachesOneAdded(clock, when, interval, adds);
    AddingStep(s0, s1, Tick(MIN_DELAY), adds);
    var s2 := Apply(s1, Tick(MIN_DELAY));
    AddingStep(s0, s2, Fire, adds);
    var s3 := Apply(s2, Fire);
    assert s3.timers == [Entry(when, 1)] && Batch(s3) == [Entry(when, 1)];
    AddingStep(s0, s3, Read, adds);
    OneRanFrom(s0, Apply(s3, Read), clock, when, interval, adds);
  }

  lemma OneRanFrom(s0: State, s4: State, clock: int, when: int, interval: real, adds: set<(int, real)>)
    requires ReachesAdding(s0, s4, adds) && s4.timers == [] && s4.active == {}
    requires s4 == OneRan(clock, when, interval).(phase := Running([Entry(when, 1)], 0, clock + MIN_DELAY), starts := [])
    ensures ReachesAdding(s0, OneRan(clock, when, interval), adds)
  {
    AddingStep(s0, s4, Start, adds);
    var s5 := Apply(s4, Start);
    AddingStep(s0, s5, EndBatch, adds);
    assert Apply(s5, EndBatch) == OneRan(clock, when, interval);
  }

  lemma ReachesOneLost(clock: int, when: int, interval: real, adds: set<(int, real)>)
    requires clock > 0 && !Renewable(when, interval) && (when, interval) in adds
    ensures ReachesAdding(Init(clock), OneLost(clock, when, interval), adds)
  {
    var s0, s1 := Init(clock), OneRan(clock, when, interval);
    ReachesOneRan(clock, when, interval, adds);
    AddingStep(s0, s1, Reclaim, adds);
    var s2 := Apply(s1, Reclaim);
    assert s2.timers == [Entry(s1.heap[1].Restarted().expiration, 1)];
    AddingStep(s0, s2, Rearm, adds);
    assert Apply(s2, Rearm) == OneLost(clock, when, interval);
  }

  /** A single timer that is not renewable is left waiting with the kernel timer disarmed, so that
      nothing will ever run it. */
  lemma UnrenewableTimerLost(clock: int, when: int, interval: real)
    requires clock > 0 && !Renewable(when, interval)
    ensures exists s :: ReachesAdding(Init(clock), s, {(when, interval)}) && Lost(s) && s.timers != [] && s.fd.Disarmed?
  {
    ReachesOneLost(clock, when, interval, {(when, interval)});
    assert Lost(OneLost(clock, when, interval));
  }

  /** And then any timer added later with it, renewable or not, is lost too: the invalid head keeps
      the kernel timer from being armed. */
  lemma LaterTimerLostToo(clock: int, when: int, interval: real, later: int, interval': real)
    requires clock > 0 && !Renewable(when, interval) && later > 0
    ensures exists s :: ReachesAdding(Init(clock), s, {(when, interval), (later, interval')}) && Lost(s) && s.fd.Disarmed?
                        && Entry(later, 2) in s.timers
  {
    var adds := {(when, interval), (later, interval')};
    var s0, s1 := Init(clock), OneLost(clock, when, interval);
    ReachesOneLost(clock, when, interval, adds);
    AddingStep(s0, s1, Create(2, later, interval'), adds);
    var s2 := Apply(s1, Create(2, later, interval'));
    InsertedOk(s1.timers, Entry(later, 2));
    AddingStep(s0, s2, ReadId(LOOP), adds);
    assert Lost(Apply(s2, ReadId(LOOP)));
  }

  /** The true boundary: among runs that add timers from a given set, some timer can be lost if and only
      if some timer of the set is not renewable. */
  lemma TimerLostIffOneUnrenewable(clock: int, adds: set<(int, real)>)
    requires clock > 0
    ensures (exists s :: ReachesAdding(Init(clock), s, adds) && Lost(s)) <==> exists p :: p in adds && !Renewable(p.0, p.1)
  {
    if p :| p in adds && !Renewable(p.0, p.1) {
      ReachesOneLost(clock, p.0, p.1, adds);
      assert Lost(OneLost(clock, p.0, p.1));
    } else {
      forall s | ReachesAdding(Init(clock), s, adds) ensures !Lost(s) {
        var ss, acts :| IsRun(ss, acts) && ss[0] == Init(clock) && ss[|acts|] == s && AddsOnly(acts, adds);
        forall a | a in acts ensures AddsRenewable(a) {
          if a.Create? || a.Post? { assert (a.when, a.interval) in adds; }
        }
        NoTimerLost(ss, acts, |acts|, clock);
      }
    }
  }

  // ---------------------------------------------------------------- the late read

  /** Thread `t`, not the loop's, has yet to read the id of its one-shot timer, and the loop is free. */
  ghost predicate Waits(s: State, t: nat, r: Unread) {
    Inv(s) && ReadOk(s) && LoopFree(s) && t != LOOP && t in s.reading && s.reading[t] == r && !r.repeats
  }

  /** What the loop does on its own. */
  predicate LoopAction(a: Action) {
    a.RunFunctor? || a.Tick? || a.Read? || a.Start? || a.EndBatch? || a.Reclaim? || a.Rearm?
  }

  lemma SameReading(s: State, a: Action)
    requires LoopAction(a) && Enabled(s, a) && Safe(s, a)
    ensures Apply(s, a).reading == s.reading
  {
  }

  lemma OneStep(s: State, a: Action)
    requires Enabled(s, a) && Safe(s, a)
    ensures Reaches(s, Apply(s, a))
  {
    ReachesSelf(s);
    ReachesStep(s, s, a);
  }

  lemma LoopStep(s: State, a: Action, t: nat, r: Unread)
    requires Waits(s, t, r) && LoopAction(a) && Enabled(s, a)
    ensures Safe(s, a) && Waits(Apply(s, a), t, r) && Reaches(s, Apply(s, a))
  {
    InvSafe(s, a);
    SameReading(s, a);
    OneStep(s, a);
    NextWaits(s, a, Apply(s, a), t, r);
  }

  lemma NextWaits(s: State, a: Action, s': State, t: nat, r: Unread)
    requires Waits(s, t, r) && Enabled(s, a) && Safe(s, a) && s' == Apply(s, a) && s'.reading == s.reading
    ensures Waits(s', t, r)
  {
    StepInv(s, a);
    StepReads(s, a);
  }

  /** The timer is freed, or in the batch that `reset` will go through. */
  ghost predicate Spent(s: State, id: TimerId) {
    id.sequence in s.freed || (Names(s, id) && InBatch(s, id.addr))
  }

  lemma StaysSpent(s: State, a: Action, t: nat, r: Unread)
    requires Waits(s, t, r) && Enabled(s, a) && Safe(s, a) && Spent(s, r.id)
    requires a.Start? || a.EndBatch? || a.Reclaim? || a.Rearm?
    ensures Spent(Apply(s, a), r.id)
  {
    if a.EndBatch? {
      assert s.phase.batch[0..] == s.phase.batch;
    } else if a.Reclaim? {
      ReclaimSpends(s, t, r);
    }
  }

  lemma ReclaimSpends(s: State, t: nat, r: Unread)
    requires Waits(s, t, r) && Enabled(s, Reclaim) && Safe(s, Reclaim) && Spent(s, r.id)
    ensures Spent(Apply(s, Reclaim), r.id)
  {
    assert ReaderOk(s, t);
    ResetTarget(s);
    TargetSpent(s, r.id);
  }

  lemma TargetSpent(s: State, id: TimerId)
    requires Enabled(s, Reclaim) && Safe(s, Reclaim) && Spent(s, id) && (Names(s, id) ==> !s.heap[id.addr].repeat)
    requires forall e :: e in Owned(s.phase) <==> e in s.phase.batch[s.phase.next + 1..] || e == s.phase.batch[s.phase.next]
    ensures Spent(Apply(s, Reclaim), id)
  {
    var addr := s.phase.batch[s.phase.next].addr;
    assert addr in Touched(s, Reclaim);
    if id.sequence !in s.freed && addr != id.addr {
      assert EntryOf(s, id.addr) in s.phase.batch[s.phase.next + 1..];
    }
  }

  /** The steps left until the batch is dealt with. */
  function BatchSteps(p: Phase): nat {
    if p.Running? && p.next <= |p.batch| then 2 * |p.batch| - p.next + 2
    else if p.Resetting? && p.next <= |p.batch| then |p.batch| - p.next + 1
    else 0
  }

  function NextBatchAction(p: Phase): Action {
    if p.Running? then (if p.next < |p.batch| then Start else EndBatch)
    else if p.Resetting? && p.next < |p.batch| then Reclaim
    else Rearm
  }

  lemma BatchStep(s: State, t: nat, r: Unread) returns (s': State)
    requires Waits(s, t, r) && !s.phase.Idle?
    ensures Reaches(s, s') && Waits(s', t, r) && s'.pending == s.pending && BatchSteps(s'.phase) < BatchSteps(s.phase)
    ensures Spent(s, r.id) ==> Spent(s', r.id)
  {
    var a := NextBatchAction(s.phase);
    LoopStep(s, a, t, r);
    if Spent(s, r.id) { StaysSpent(s, a, t, r); }
    s' := Apply(s, a);
    BatchShrinks(s, a);
  }

  lemma BatchShrinks(s: State, a: Action)
    requires PhaseOk(s) && a == NextBatchAction(s.phase) && !s.phase.Idle? && Enabled(s, a) && Safe(s, a)
    ensures Apply(s, a).pending == s.pending && BatchSteps(Apply(s, a).phase) < BatchSteps(s.phase)
  {
  }

  lemma {:induction false} FinishBatch(s: State, t: nat, r: Unread) returns (s': State)
    requires Waits(s, t, r)
    ensures Reaches(s, s') && Waits(s', t, r) && s'.phase.Idle? && s'.pending == s.pending
    ensures Spent(s, r.id) ==> r.id.sequence in s'.freed
    decreases BatchSteps(s.phase)
  {
    if s.phase.Idle? {
      s' := s;
      ReachesSelf(s);
    } else {
      var s1 := BatchStep(s, t, r);
      s' := FinishBatch(s1, t, r);
      ReachesThen(s, s1, s');
    }
  }

  lemma {:induction false} RunFunctors(s: State, t: nat, r: Unread) returns (s': State)
    requires Waits(s, t, r) && s.phase.Idle?
    ensures Reaches(s, s') && Waits(s', t, r) && s'.phase.Idle? && s'.pending == []
    decreases |s.pending|
  {
    if s.pending == [] {
      s' := s;
      ReachesSelf(s);
    } else {
      var s1 := RunsFunctor(s, t, r);
      s' := RunFunctors(s1, t, r);
      ReachesThen(s, s1, s');
    }
  }

  lemma RunsFunctor(s: State, t: nat, r: Unread) returns (s': State)
    requires Waits(s, t, r) && s.phase.Idle? && s.pending != []
    ensures Reaches(s, s') && Waits(s', t, r) && s'.phase.Idle? && |s'.pending| < |s.pending|
  {
    LoopStep(s, RunFunctor, t, r);
    FunctorShrinks(s);
    s' := Apply(s, RunFunctor);
  }

  lemma FunctorShrinks(s: State)
    requires Enabled(s, RunFunctor) && Safe(s, RunFunctor)
    ensures Apply(s, RunFunctor).phase == s.phase && |Apply(s, RunFunctor).pending| < |s.pending|
  {
  }

  /** Time passes, the timer is due, and its batch frees it. */
  lemma ComesDue(s: State, t: nat, r: Unread) returns (s': State)
    requires Waits(s, t, r) && s.phase.Idle? && s.pending == []
    ensures Reaches(s, s') && Waits(s', t, r) && r.id.sequence in s'.freed
  {
    assert ReaderOk(s, t);
    if r.id.sequence in s.freed {
      s' := s;
      ReachesSelf(s);
    } else {
      assert OnePlace(s, r.id.addr) && Waiting(s, r.id.addr);
      var when := s.heap[r.id.addr].expiration;
      var d := if when > s.clock then when - s.clock else 0;
      LoopStep(s, Tick(d), t, r);
      var s1 := Apply(s, Tick(d));
      LoopStep(s1, Read, t, r);
      DueTimerInBatch(s1, r.id.addr);
      s' := FinishBatch(Apply(s1, Read), t, r);
      ReachesThen(s, s1, Apply(s1, Read));
      ReachesThen(s, Apply(s1, Read), s');
    }
  }

  lemma DueTimerInBatch(s: State, addr: nat)
    requires Inv(s) && Enabled(s, Read) && Safe(s, Read) && Waiting(s, addr) && s.heap[addr].expiration <= s.clock
    ensures InBatch(Apply(s, Read), addr)
  {
    assert forall e :: e in s.timers ==> Holds(s, e);
    DueExactly(s.timers, s.clock);
  }

  /** From wherever the queue is, the loop can run the timer and free it before its maker reads the id. */
  lemma LoopMayFreeFirst(s: State, t: nat, r: Unread) returns (s': State)
    requires Waits(s, t, r)
    ensures Reaches(s, s') && Waits(s', t, r) && r.id.sequence in s'.freed
  {
    var s1 := FinishBatch(s, t, r);
    var s2 := RunFunctors(s1, t, r);
    s' := ComesDue(s2, t, r);
    ReachesThen(s, s1, s2);
    ReachesThen(s, s2, s');
  }

  /** The thread is still between the two halves of the `addTimer` that made this timer. */
  ghost predicate StillReads(s: State, t: nat, r: Unread) { t in s.reading && s.reading[t] == r }

  /** `addTimer` made a timer, on the loop thread or on another: the read of its sequence number, however
      much happens in between, is always of that live timer if and only if the caller is the loop
      thread or the timer repeats. */
  lemma PosterReadSafeIff(s: State, a: Action, t: nat)
    requires Reachable(s) && Enabled(s, a) && ((a.Create? && t == LOOP) || (a.Post? && t == a.t))
    ensures Safe(s, a) && StillReads(Apply(s, a), t, Unread(TimerId(a.addr, s.created), a.interval > 0.0))
    ensures (forall s2 :: Reaches(Apply(s, a), s2) && StillReads(s2, t, Unread(TimerId(a.addr, s.created), a.interval > 0.0))
                          ==> Safe(s2, ReadId(t)))
            <==> t == LOOP || a.interval > 0.0
  {
    var s1, r := Apply(s, a), Unread(TimerId(a.addr, s.created), a.interval > 0.0);
    NoDanglingTimer(s, a);
    if t == LOOP || a.interval > 0.0 {
      forall s2 | Reaches(s1, s2) && StillReads(s2, t, r) ensures Safe(s2, ReadId(t)) {
        ReachableThen(s1, s2);
        NoDanglingTimer(s2, ReadId(t));
      }
    } else {
      var s2 := LateReadFails(s1, t, r);
    }
  }

  lemma LateReadFails(s: State, t: nat, r: Unread) returns (s': State)
    requires Reachable(s) && StillReads(s, t, r) && t != LOOP && !r.repeats
    ensures Reaches(s, s') && StillReads(s', t, r) && !Safe(s', ReadId(t))
  {
    var s1 := FreesLoop(s, t, r);
    ReachableThen(s, s1);
    ReachableInv(s1);
    ReachableReads(s1);
    s' := LoopMayFreeFirst(s1, t, r);
    ReachesThen(s, s1, s');
    assert !Names(s', r.id);
  }

  /** If the loop thread itself is inside `addTimer`, it finishes first. */
  lemma FreesLoop(s: State, t: nat, r: Unread) returns (s': State)
    requires Reachable(s) && StillReads(s, t, r) && t != LOOP
    ensures Reaches(s, s') && StillReads(s', t, r) && LoopFree(s')
  {
    ReachesSelf(s);
    if LoopFree(s) {
      s' := s;
    } else {
      NoDanglingTimer(s, ReadId(LOOP));
      ReachesStep(s, s, ReadId(LOOP));
      s' := Apply(s, ReadId(LOOP));
    }
  }
}
