/** Runs that show where the pool's claims end: two workers make the assertion fail, two
    producers strand a task. */
module LockFreePoolFailures {
  import opened Wrappers
  import opened Slots
  import R = Ring
  import RT = RingTheorems
  import opened LockFreePool
  import opened LockFreePoolTheorems

  // ---------------------------------------------------------------- putting runs together

  lemma OneStep(s: State, a: Action)
    requires Shape(s) && Enabled(s, a)
    ensures Reaches(s, Apply(s, a))
  {
    var ss, acts := [s, Apply(s, a)], [a];
    assert StepOk(ss, acts, 0);
    assert IsRun(ss, acts);
  }

  lemma RunsJoin(ss: seq<State>, acts: seq<Action>, ss': seq<State>, acts': seq<Action>)
    requires IsRun(ss, acts) && IsRun(ss', acts') && ss[|acts|] == ss'[0]
    ensures IsRun(ss + ss'[1..], acts + acts')
  {
    forall i | 0 <= i < |acts + acts'| ensures StepOk(ss + ss'[1..], acts + acts', i) {
      JoinedStep(ss, acts, ss', acts', i);
    }
  }

  lemma JoinedStep(ss: seq<State>, acts: seq<Action>, ss': seq<State>, acts': seq<Action>, i: nat)
    requires IsRun(ss, acts) && IsRun(ss', acts') && ss[|acts|] == ss'[0] && i < |acts + acts'|
    ensures StepOk(ss + ss'[1..], acts + acts', i)
  {
    var all, steps := ss + ss'[1..], acts + acts';
    if i < |acts| {
      assert StepOk(ss, acts, i);
      assert all[i] == ss[i] && all[i + 1] == ss[i + 1] && steps[i] == acts[i];
    } else {
      var j := i - |acts|;
      assert StepOk(ss', acts', j);
      assert all[i] == ss'[j] && all[i + 1] == ss'[j + 1] && steps[i] == acts'[j];
    }
  }

  lemma ReachesThen(s: State, s': State, s'': State)
    requires Reaches(s, s') && Reaches(s', s'')
    ensures Reaches(s, s'')
  {
    var ss, acts :| IsRun(ss, acts) && ss[0] == s && ss[|acts|] == s';
    var ss', acts' :| IsRun(ss', acts') && ss'[0] == s' && ss'[|acts'|] == s'';
    RunsJoin(ss, acts, ss', acts');
    var all, steps := ss + ss'[1..], acts + acts';
    assert all[0] == s && all[|steps|] == s'';
  }

  // ---------------------------------------------------------------- inside the ring, alone

  /** Only the ring's memory and thread `t`'s place in it have changed. */
  ghost predicate RingMoved(s: State, s': State, t: nat, m: R.Shared<Task>, l: R.Local<Task>) {
    && Shape(s') && s' == s.(ring := s'.ring) && s'.ring.mem == m
    && s'.ring.threads == s.ring.threads[t := l]
  }

  lemma InsideOnce(s: State, t: nat) returns (s': State)
    requires Shape(s) && t in s.pcs && s.ring.threads[t].Running()
    ensures Reaches(s, s')
    ensures var (m, l) := R.Exec(s.ring.mem, s.ring.threads[t], false); RingMoved(s, s', t, m, l)
  {
    var a := Inside(t, false);
    OneStep(s, a);
    s' := Apply(s, a);
    InsideEffect(s, t, false);
    InsideExec(s.ring, t);
    assert PcMatches(s.pcs[t], s.ring.threads[t]);
  }

  lemma InsideExec(r: R.State<Task>, t: nat)
    requires r.mem.WellSized() && t in r.threads && r.threads[t].Running()
    ensures var r', (m, l) := R.Apply(r, R.Step(t, false)), R.Exec(r.mem, r.threads[t], false);
      r'.mem == m && r'.threads == r.threads[t := l]
  {
  }

  lemma InsideTwice(s: State, t: nat, m: R.Shared<Task>, l: R.Local<Task>) returns (s': State)
    requires Shape(s) && t in s.pcs && s.ring.threads[t].Running()
    requires R.Exec(s.ring.mem, s.ring.threads[t], false) == (m, l) && m.WellSized() && l.Running()
    ensures Reaches(s, s')
    ensures var (m', l') := R.Exec(m, l, false); RingMoved(s, s', t, m', l')
  {
    var s1 := InsideOnce(s, t);
    s' := InsideOnce(s1, t);
    ReachesThen(s, s1, s');
  }

  /** From the first load of `enqueue` to its test. */
  lemma EnqueueToTest(s: State, t: nat, x: Task) returns (s': State)
    requires Shape(s) && t in s.pcs && s.ring.threads[t] == R.EnqLoadPos(x)
    ensures Reaches(s, s')
    ensures var m := s.ring.mem; RingMoved(s, s', t, m, R.EnqTest(x, m.enqueuePos, m.cells[Slot(m.enqueuePos, m.k)].sequence))
  {
    s' := InsideTwice(s, t, s.ring.mem, R.EnqLoadSeq(x, s.ring.mem.enqueuePos));
  }

  lemma DequeueToTest(s: State, t: nat) returns (s': State)
    requires Shape(s) && t in s.pcs && s.ring.threads[t] == R.DeqLoadPos
    ensures Reaches(s, s')
    ensures var m := s.ring.mem; RingMoved(s, s', t, m, R.DeqTest(m.dequeuePos, m.cells[Slot(m.dequeuePos, m.k)].sequence))
  {
    s' := InsideTwice(s, t, s.ring.mem, R.DeqLoadSeq(s.ring.mem.dequeuePos));
  }

  /** From the call of `enqueue` (or `dequeue`) through the test and what it decides. */
  lemma EnqueueDecides(s: State, t: nat, x: Task) returns (s': State)
    requires Shape(s) && t in s.pcs && s.ring.threads[t] == R.EnqLoadPos(x)
    ensures Reaches(s, s')
    ensures var m, e := s.ring.mem, s.ring.mem.enqueuePos;
      && (m.cells[Slot(e, m.k)].sequence == e ==> RingMoved(s, s', t, m.(enqueuePos := e + 1), R.EnqWrite(x, e)))
      && (m.cells[Slot(e, m.k)].sequence < e ==> RingMoved(s, s', t, m, R.EnqFull(e)))
  {
    var s1 := EnqueueToTest(s, t, x);
    s' := InsideOnce(s1, t);
    ReachesThen(s, s1, s');
  }

  lemma DequeueDecides(s: State, t: nat) returns (s': State)
    requires Shape(s) && t in s.pcs && s.ring.threads[t] == R.DeqLoadPos
    ensures Reaches(s, s')
    ensures var m, d := s.ring.mem, s.ring.mem.dequeuePos;
      && (m.cells[Slot(d, m.k)].sequence == d + 1 ==> RingMoved(s, s', t, m.(dequeuePos := d + 1), R.DeqRead(d)))
      && (m.cells[Slot(d, m.k)].sequence < d + 1 ==> RingMoved(s, s', t, m, R.DeqEmpty(d)))
  {
    var s1 := DequeueToTest(s, t);
    s' := InsideOnce(s1, t);
    ReachesThen(s, s1, s');
  }

  lemma EnqueueFinishes(s: State, t: nat, x: Task, e: nat) returns (s': State)
    requires Shape(s) && t in s.pcs && s.ring.threads[t] == R.EnqWrite(x, e)
    ensures Reaches(s, s')
    ensures var m := s.ring.mem;
      RingMoved(s, s', t, m.(cells := m.cells[Slot(e, m.k) := R.Cell(e + 1, Some(x))]), R.EnqDone(e))
  {
    var m := s.ring.mem;
    var i := Slot(e, m.k);
    s' := InsideTwice(s, t, m.(cells := m.cells[i := m.cells[i].(data := Some(x))]), R.EnqPublish(e));
  }

  lemma DequeueFinishes(s: State, t: nat, d: nat) returns (s': State)
    requires Shape(s) && t in s.pcs && s.ring.threads[t] == R.DeqRead(d)
    ensures Reaches(s, s')
    ensures var m := s.ring.mem; var i := Slot(d, m.k);
      RingMoved(s, s', t, m.(cells := m.cells[i := R.Cell(d + Pow2(m.k), None)]), R.DeqDone(d, m.cells[i].data))
  {
    var m := s.ring.mem;
    var i := Slot(d, m.k);
    s' := InsideTwice(s, t, m.(cells := m.cells[i := m.cells[i].(data := None)]), R.DeqRelease(d, m.cells[i].data));
  }

  // ---------------------------------------------------------------- around the ring, alone

  /** What these runs need to know of a state: the ring's memory, where each thread is, and the
      counters. */
  ghost predicate At(s: State, m: R.Shared<Task>, threads: map<nat, R.Local<Task>>, pcs: map<nat, Pc>, slots: nat, items: nat, lost: nat) {
    && Shape(s) && s.ring.mem == m && s.ring.threads == threads && s.pcs == pcs
    && s.slots == slots && s.items == items && s.lost == lost
  }

  /** A producer submits `x` and enters `enqueue`. */
  lemma Enters(s: State, t: nat, x: Task) returns (s': State)
    requires Shape(s) && t in s.pcs && s.pcs[t] == Outside && s.slots > 0
    ensures Reaches(s, s')
    ensures At(s', s.ring.mem, s.ring.threads[t := R.EnqLoadPos(x)], s.pcs[t := Enqueuing(x)], s.slots - 1, s.items, s.lost)
  {
    assert PcMatches(s.pcs[t], s.ring.threads[t]);
    OneStep(s, Submit(t, x));
    var s1 := Apply(s, Submit(t, x));
    OneStep(s1, AcquireSlot(t));
    s' := Apply(s1, AcquireSlot(t));
    ReachesThen(s, s1, s');
  }

  /** A producer back from a successful `enqueue` announces its item and returns. */
  lemma Announces(s: State, t: nat, x: Task, e: nat) returns (s': State)
    requires Shape(s) && t in s.pcs && s.pcs[t] == Enqueuing(x) && s.ring.threads[t] == R.EnqDone(e)
    ensures Reaches(s, s')
    ensures At(s', s.ring.mem, s.ring.threads[t := R.Idle], s.pcs[t := Outside], s.slots, s.items + 1, s.lost)
  {
    OneStep(s, EndEnqueue(t));
    var s1 := Apply(s, EndEnqueue(t));
    OneStep(s1, ReleaseItem(t));
    s' := Apply(s1, ReleaseItem(t));
    ReachesThen(s, s1, s');
  }

  lemma Takes(s: State, t: nat) returns (s': State)
    requires Shape(s) && t in s.pcs && s.pcs[t] == WantItem && s.items > 0
    ensures Reaches(s, s')
    ensures At(s', s.ring.mem, s.ring.threads[t := R.DeqLoadPos], s.pcs[t := Dequeuing], s.slots, s.items - 1, s.lost)
  {
    assert PcMatches(s.pcs[t], s.ring.threads[t]);
    OneStep(s, AcquireItem(t));
    s' := Apply(s, AcquireItem(t));
  }

  /** A worker back from a successful `dequeue` gives the slot back. */
  lemma GivesBack(s: State, t: nat, d: nat, x: Task) returns (s': State)
    requires Shape(s) && t in s.pcs && s.pcs[t] == Dequeuing && s.ring.threads[t] == R.DeqDone(d, Some(x))
    ensures Reaches(s, s')
    ensures At(s', s.ring.mem, s.ring.threads[t := R.Idle], s.pcs[t := Execute(x)], s.slots + 1, s.items, s.lost)
  {
    OneStep(s, EndDequeue(t));
    var s1 := Apply(s, EndDequeue(t));
    OneStep(s1, ReleaseSlot(t));
    s' := Apply(s1, ReleaseSlot(t));
    ReachesThen(s, s1, s');
  }

  lemma Starts(s: State, t: nat, x: Task) returns (s': State)
    requires Shape(s) && t in s.pcs && s.pcs[t] == Execute(x)
    ensures Reaches(s, s')
    ensures At(s', s.ring.mem, s.ring.threads, s.pcs[t := WantItem], s.slots, s.items, s.lost)
  {
    OneStep(s, Start(t));
    s' := Apply(s, Start(t));
  }

  /** A worker back from a failed `dequeue` waits for the next token. */
  lemma LosesToken(s: State, t: nat, d: nat) returns (s': State)
    requires Shape(s) && t in s.pcs && s.pcs[t] == Dequeuing && s.ring.threads[t] == R.DeqEmpty(d)
    ensures Reaches(s, s')
    ensures At(s', s.ring.mem, s.ring.threads[t := R.Idle], s.pcs[t := WantItem], s.slots, s.items, s.lost + 1)
  {
    OneStep(s, EndDequeue(t));
    s' := Apply(s, EndDequeue(t));
  }

  // ---------------------------------------------------------------- whole operations, alone

  /** A whole `run` by one producer that finds its cell writable. */
  lemma WholeRun(s: State, t: nat, x: Task) returns (s': State)
    requires Shape(s) && t in s.pcs && s.pcs[t] == Outside && s.slots > 0
    requires s.ring.mem.cells[Slot(s.ring.mem.enqueuePos, s.ring.mem.k)].sequence == s.ring.mem.enqueuePos
    ensures Reaches(s, s')
    ensures var m, e := s.ring.mem, s.ring.mem.enqueuePos;
      At(s', m.(enqueuePos := e + 1, cells := m.cells[Slot(e, m.k) := R.Cell(e + 1, Some(x))]),
         s.ring.threads, s.pcs, s.slots - 1, s.items + 1, s.lost)
  {
    assert PcMatches(s.pcs[t], s.ring.threads[t]);
    var s1 := Claims(s, t, x);
    s' := Completes(s1, t, x, s.ring.mem.enqueuePos);
    ReachesThen(s, s1, s');
  }

  /** The first half of a `run`, up to the claim. */
  lemma Claims(s: State, t: nat, x: Task) returns (s': State)
    requires Shape(s) && t in s.pcs && s.pcs[t] == Outside && s.slots > 0
    requires s.ring.mem.cells[Slot(s.ring.mem.enqueuePos, s.ring.mem.k)].sequence == s.ring.mem.enqueuePos
    ensures Reaches(s, s')
    ensures var m, e := s.ring.mem, s.ring.mem.enqueuePos;
      At(s', m.(enqueuePos := e + 1), s.ring.threads[t := R.EnqWrite(x, e)], s.pcs[t := Enqueuing(x)], s.slots - 1, s.items, s.lost)
  {
    var s1 := Enters(s, t, x);
    s' := EnqueueDecides(s1, t, x);
    ReachesThen(s, s1, s');
  }

  /** The second half of a `run`, from the claim. */
  lemma Completes(s: State, t: nat, x: Task, e: nat) returns (s': State)
    requires Shape(s) && t in s.pcs && s.pcs[t] == Enqueuing(x) && s.ring.threads[t] == R.EnqWrite(x, e)
    ensures Reaches(s, s')
    ensures var m := s.ring.mem;
      At(s', m.(cells := m.cells[Slot(e, m.k) := R.Cell(e + 1, Some(x))]),
         s.ring.threads[t := R.Idle], s.pcs[t := Outside], s.slots, s.items + 1, s.lost)
  {
    var s1 := EnqueueFinishes(s, t, x, e);
    s' := Announces(s1, t, x, e);
    ReachesThen(s, s1, s');
  }

  /** A worker takes a token and claims the front item. */
  lemma TakesFront(s: State, t: nat) returns (s': State)
    requires Shape(s) && t in s.pcs && s.pcs[t] == WantItem && s.items > 0
    requires s.ring.mem.cells[Slot(s.ring.mem.dequeuePos, s.ring.mem.k)].sequence == s.ring.mem.dequeuePos + 1
    ensures Reaches(s, s')
    ensures var m, d := s.ring.mem, s.ring.mem.dequeuePos;
      At(s', m.(dequeuePos := d + 1), s.ring.threads[t := R.DeqRead(d)], s.pcs[t := Dequeuing], s.slots, s.items - 1, s.lost)
  {
    var s1 := Takes(s, t);
    s' := DequeueDecides(s1, t);
    ReachesThen(s, s1, s');
  }

  /** It moves the item out, releases the cell and gives the slot back. */
  lemma Frees(s: State, t: nat, d: nat, x: Task) returns (s': State)
    requires Shape(s) && t in s.pcs && s.pcs[t] == Dequeuing && s.ring.threads[t] == R.DeqRead(d)
    requires s.ring.mem.cells[Slot(d, s.ring.mem.k)].data == Some(x)
    ensures Reaches(s, s')
    ensures var m := s.ring.mem;
      At(s', m.(cells := m.cells[Slot(d, m.k) := R.Cell(d + Pow2(m.k), None)]),
         s.ring.threads[t := R.Idle], s.pcs[t := Execute(x)], s.slots + 1, s.items, s.lost)
  {
    var s1 := DequeueFinishes(s, t, d);
    s' := GivesBack(s1, t, d, x);
    ReachesThen(s, s1, s');
  }

  /** A worker takes a token and finds the front position unpublished. */
  lemma TakesInVain(s: State, t: nat) returns (s': State)
    requires Shape(s) && t in s.pcs && s.pcs[t] == WantItem && s.items > 0
    requires s.ring.mem.cells[Slot(s.ring.mem.dequeuePos, s.ring.mem.k)].sequence < s.ring.mem.dequeuePos + 1
    ensures Reaches(s, s')
    ensures At(s', s.ring.mem, s.ring.threads, s.pcs, s.slots, s.items - 1, s.lost + 1)
  {
    assert PcMatches(s.pcs[t], s.ring.threads[t]);
    var s1 := Takes(s, t);
    var s2 := DequeueDecides(s1, t);
    s' := LosesToken(s2, t, s.ring.mem.dequeuePos);
    ReachesThen(s, s1, s2);
    ReachesThen(s, s2, s');
  }

  // ---------------------------------------------------------------- a new pool

  /** The memory of a ring of capacity `Pow2(k)` in which positions 0 to `n - 1` hold item 10. */
  ghost function Filled(k: nat, n: nat): R.Shared<Task> {
    R.Shared(k, seq(Pow2(k), (i: nat) => if i < n then R.Cell(i + 1, Some(10)) else R.Cell(i, None)), n, 0)
  }

  ghost function IdleThreads(producers: set<nat>, workers: set<nat>): map<nat, R.Local<Task>> {
    map t | t in producers + workers :: R.Idle
  }

  ghost function IdlePcs(producers: set<nat>, workers: set<nat>): map<nat, Pc> {
    map t | t in producers + workers :: if t in producers then Outside else WantItem
  }

  lemma Starting(k: nat, producers: set<nat>, workers: set<nat>)
    ensures var s := Init(k, producers, workers);
      Reachable(s, k, producers, workers)
      && At(s, Filled(k, 0), IdleThreads(producers, workers), IdlePcs(producers, workers), Pow2(k), 0, 0)
  {
    var s := Init(k, producers, workers);
    assert IsRun([s], []);
    assert s.ring.mem.cells == Filled(k, 0).cells;
  }

  lemma FirstSlots(k: nat)
    requires k >= 1
    ensures Pow2(k) >= 2 && Slot(0, k) == 0 && Slot(1, k) == 1 && Slot(Pow2(k), k) == 0
  {
    SlotSmall(0, k);
    SlotSmall(1, k);
    SlotLap(0, Pow2(k), k);
  }

  // ---------------------------------------------------------------- two workers

  /** One producer fills the first `n` cells. */
  lemma {:induction false} Fills(k: nat, producers: set<nat>, workers: set<nat>, p: nat, n: nat) returns (s: State)
    requires producers !! workers && p in producers && n <= Pow2(k)
    ensures Reachable(s, k, producers, workers)
    ensures At(s, Filled(k, n), IdleThreads(producers, workers), IdlePcs(producers, workers), Pow2(k) - n, n, 0)
  {
    if n == 0 {
      s := Init(k, producers, workers);
      Starting(k, producers, workers);
    } else {
      var s1 := Fills(k, producers, workers, p, n - 1);
      SlotSmall(n - 1, k);
      s := WholeRun(s1, p, 10);
      ReachesThen(Init(k, producers, workers), s1, s);
      assert s.ring.mem.cells == Filled(k, n).cells;
    }
  }

  /** The memory of a full ring whose first `d` positions are claimed by workers. */
  ghost function Claimed(k: nat, d: nat): R.Shared<Task> { Filled(k, Pow2(k)).(dequeuePos := d) }

  lemma OneWorkerClaims(k: nat, producers: set<nat>, workers: set<nat>, p: nat, v: nat) returns (s: State)
    requires k >= 1 && producers !! workers && p in producers && v in workers
    ensures Reachable(s, k, producers, workers)
    ensures At(s, Claimed(k, 1), IdleThreads(producers, workers)[v := R.DeqRead(0)],
               IdlePcs(producers, workers)[v := Dequeuing], 0, Pow2(k) - 1, 0)
  {
    FirstSlots(k);
    var s1 := Fills(k, producers, workers, p, Pow2(k));
    s := TakesFront(s1, v);
    ReachesThen(Init(k, producers, workers), s1, s);
  }

  /** One producer fills the ring; two workers claim its first two items. */
  lemma TwoWorkersClaim(k: nat, producers: set<nat>, workers: set<nat>, p: nat, v: nat, w: nat) returns (s: State)
    requires k >= 1 && producers !! workers && p in producers && v in workers && w in workers && v != w
    ensures Reachable(s, k, producers, workers) && Pow2(k) >= 2
    ensures At(s, Claimed(k, 2), IdleThreads(producers, workers)[v := R.DeqRead(0)][w := R.DeqRead(1)],
               IdlePcs(producers, workers)[v := Dequeuing][w := Dequeuing], 0, Pow2(k) - 2, 0)
  {
    FirstSlots(k);
    var s1 := OneWorkerClaims(k, producers, workers, p, v);
    s := TakesFront(s1, w);
    ReachesThen(Init(k, producers, workers), s1, s);
  }

  /** The second worker frees its slot first, and the producer runs into the cell that the first
      has not released. */
  lemma TwoWorkersFail(k: nat, producers: set<nat>, workers: set<nat>, p: nat, v: nat, w: nat) returns (s: State)
    requires k >= 1 && producers !! workers && p in producers && v in workers && w in workers && v != w
    ensures Reachable(s, k, producers, workers) && p in s.pcs && s.pcs[p] == Failed
  {
    FirstSlots(k);
    var s0 := Init(k, producers, workers);
    var s1 := TwoWorkersClaim(k, producers, workers, p, v, w);
    var s2 := Frees(s1, w, 1, 10);
    ReachesThen(s0, s1, s2);
    s := RunsIntoFull(s2, p);
    ReachesThen(s0, s2, s);
  }

  lemma RunsIntoFull(s: State, p: nat) returns (s': State)
    requires Shape(s) && p in s.pcs && s.pcs[p] == Outside && s.slots > 0
    requires s.ring.mem.cells[Slot(s.ring.mem.enqueuePos, s.ring.mem.k)].sequence < s.ring.mem.enqueuePos
    ensures Reaches(s, s') && p in s'.pcs && s'.pcs[p] == Failed
  {
    var s1 := Enters(s, p, 12);
    var s2 := EnqueueDecides(s1, p, 12);
    ReachesThen(s, s1, s2);
    OneStep(s2, EndEnqueue(p));
    s' := Apply(s2, EndEnqueue(p));
    ReachesThen(s, s2, s');
  }

  /** For each capacity, the assertion of line 87 holds in every run exactly when there is at most one
      worker. */
  lemma AssertionHoldsIffOneWorker(k: nat, producers: set<nat>, workers: set<nat>)
    requires k >= 1 && producers !! workers && producers != {}
    ensures (forall s, t: nat :: Reachable(s, k, producers, workers) && t in s.pcs ==> s.pcs[t] != Failed) <==> |workers| <= 1
  {
    if |workers| <= 1 {
      forall s, t: nat | Reachable(s, k, producers, workers) && t in s.pcs ensures s.pcs[t] != Failed {
        OneWorkerAssertionHolds(s, k, producers, workers, t);
      }
    } else {
      var p :| p in producers;
      var v, w := TwoOf(workers);
      var s := TwoWorkersFail(k, producers, workers, p, v, w);
    }
  }

  lemma TwoOf(ts: set<nat>) returns (v: nat, w: nat)
    requires |ts| > 1
    ensures v in ts && w in ts && v != w
  {
    v :| v in ts;
    assert ts == (ts - {v}) + {v};
    assert ts - {v} != {};
    w :| w in ts - {v};
  }

  // ---------------------------------------------------------------- two producers

  /** A slow producer claims position 0 and stops there. */
  lemma SlowProducer(k: nat, producers: set<nat>, workers: set<nat>, p: nat) returns (s: State)
    requires k >= 1 && producers !! workers && p in producers
    ensures Reachable(s, k, producers, workers)
    ensures At(s, Filled(k, 0).(enqueuePos := 1), IdleThreads(producers, workers)[p := R.EnqWrite(10, 0)],
               IdlePcs(producers, workers)[p := Enqueuing(10)], Pow2(k) - 1, 0, 0)
  {
    Starting(k, producers, workers);
    FirstSlots(k);
    s := Claims(Init(k, producers, workers), p, 10);
  }

  /** Position 1 is published, whatever has become of position 0. */
  ghost function Second(k: nat, c0: R.Cell<Task>, d: nat): R.Shared<Task>
    requires Pow2(k) >= 2
  {
    R.Shared(k, Filled(k, 0).cells[1 := R.Cell(2, Some(11))][0 := c0], 2, d)
  }

  /** A fast producer publishes and announces position 1. */
  lemma Overtaken(k: nat, producers: set<nat>, workers: set<nat>, p: nat, q: nat) returns (s: State)
    requires k >= 1 && producers !! workers && p in producers && q in producers && p != q
    ensures Reachable(s, k, producers, workers) && Pow2(k) >= 2
    ensures At(s, Second(k, R.Cell(0, None), 0), IdleThreads(producers, workers)[p := R.EnqWrite(10, 0)],
               IdlePcs(producers, workers)[p := Enqueuing(10)], Pow2(k) - 2, 1, 0)
  {
    FirstSlots(k);
    var s1 := SlowProducer(k, producers, workers, p);
    s := WholeRun(s1, q, 11);
    ReachesThen(Init(k, producers, workers), s1, s);
    assert s.ring.mem.cells == Second(k, R.Cell(0, None), 0).cells;
  }

  /** The worker spends that announcement on position 0. */
  lemma AnnouncementSpent(k: nat, producers: set<nat>, workers: set<nat>, p: nat, q: nat, w: nat) returns (s: State)
    requires k >= 1 && producers !! workers && p in producers && q in producers && p != q && w in workers
    ensures Reachable(s, k, producers, workers) && Pow2(k) >= 2
    ensures At(s, Second(k, R.Cell(0, None), 0), IdleThreads(producers, workers)[p := R.EnqWrite(10, 0)],
               IdlePcs(producers, workers)[p := Enqueuing(10)], Pow2(k) - 2, 0, 1)
  {
    FirstSlots(k);
    var s1 := Overtaken(k, producers, workers, p, q);
    s := TakesInVain(s1, w);
    ReachesThen(Init(k, producers, workers), s1, s);
  }

  /** Both producers are back, the worker has run the first task and waits again; the second
      task is published in the ring, and no token announces it. */
  lemma TwoProducersStrand(k: nat, producers: set<nat>, workers: set<nat>, p: nat, q: nat, w: nat) returns (s: State)
    requires k >= 1 && producers !! workers && p in producers && q in producers && p != q && w in workers
    ensures Reachable(s, k, producers, workers) && Pow2(k) >= 2
    ensures At(s, Second(k, R.Cell(Pow2(k), None), 1),
               IdleThreads(producers, workers), IdlePcs(producers, workers), Pow2(k) - 1, 0, 1)
  {
    FirstSlots(k);
    var s1 := AnnouncementSpent(k, producers, workers, p, q, w);
    s := FirstOneRuns(k, producers, workers, p, w, s1);
  }

  lemma FirstOneRuns(k: nat, producers: set<nat>, workers: set<nat>, p: nat, w: nat, s1: State) returns (s: State)
    requires k >= 1 && producers !! workers && p in producers && w in workers && Pow2(k) >= 2
    requires Reachable(s1, k, producers, workers)
    requires At(s1, Second(k, R.Cell(0, None), 0), IdleThreads(producers, workers)[p := R.EnqWrite(10, 0)],
                IdlePcs(producers, workers)[p := Enqueuing(10)], Pow2(k) - 2, 0, 1)
    ensures Reachable(s, k, producers, workers)
    ensures At(s, Second(k, R.Cell(Pow2(k), None), 1),
               IdleThreads(producers, workers), IdlePcs(producers, workers), Pow2(k) - 1, 0, 1)
  {
    FirstSlots(k);
    var s0 := Init(k, producers, workers);
    var s2 := Completes(s1, p, 10, 0);
    ReachesThen(s0, s1, s2);
    s := RunsFront(s2, w, 10);
    ReachesThen(s0, s2, s);
    assert s.ring.mem.cells == Second(k, R.Cell(Pow2(k), None), 1).cells;
    assert s.ring.threads == IdleThreads(producers, workers);
    assert s.pcs == IdlePcs(producers, workers);
  }

  lemma TakesAndFrees(s: State, w: nat, x: Task) returns (s': State)
    requires Shape(s) && w in s.pcs && s.pcs[w] == WantItem && s.items > 0
    requires s.ring.mem.cells[Slot(s.ring.mem.dequeuePos, s.ring.mem.k)] == R.Cell(s.ring.mem.dequeuePos + 1, Some(x))
    ensures Reaches(s, s')
    ensures var m, d := s.ring.mem, s.ring.mem.dequeuePos;
      At(s', m.(dequeuePos := d + 1, cells := m.cells[Slot(d, m.k) := R.Cell(d + Pow2(m.k), None)]),
         s.ring.threads, s.pcs[w := Execute(x)], s.slots + 1, s.items - 1, s.lost)
  {
    assert PcMatches(s.pcs[w], s.ring.threads[w]);
    var s1 := TakesFront(s, w);
    s' := Frees(s1, w, s.ring.mem.dequeuePos, x);
    ReachesThen(s, s1, s');
    assert s'.ring.threads == s.ring.threads;
    assert s'.pcs == s.pcs[w := Execute(x)];
  }

  /** A worker takes a token, dequeues the front item, gives the slot back and runs the item. */
  lemma RunsFront(s: State, w: nat, x: Task) returns (s': State)
    requires Shape(s) && w in s.pcs && s.pcs[w] == WantItem && s.items > 0
    requires s.ring.mem.cells[Slot(s.ring.mem.dequeuePos, s.ring.mem.k)] == R.Cell(s.ring.mem.dequeuePos + 1, Some(x))
    ensures Reaches(s, s')
    ensures var m, d := s.ring.mem, s.ring.mem.dequeuePos;
      At(s', m.(dequeuePos := d + 1, cells := m.cells[Slot(d, m.k) := R.Cell(d + Pow2(m.k), None)]),
         s.ring.threads, s.pcs, s.slots + 1, s.items - 1, s.lost)
  {
    var s1 := TakesAndFrees(s, w, x);
    s' := Starts(s1, w, x);
    ReachesThen(s, s1, s');
    assert s'.pcs == s.pcs;
  }

  /** For each capacity, no announcement is ever lost exactly when there is at most one producer. */
  lemma NothingStrandedIffOneProducer(k: nat, producers: set<nat>, workers: set<nat>)
    requires k >= 1 && producers !! workers && workers != {}
    ensures (forall s :: Reachable(s, k, producers, workers) ==> s.lost == 0) <==> |producers| <= 1
  {
    if |producers| <= 1 {
      forall s | Reachable(s, k, producers, workers) ensures s.lost == 0 {
        OneProducerStrandsNothing(s, k, producers, workers);
      }
    } else {
      var w :| w in workers;
      var p, q := TwoOf(producers);
      var s := TwoProducersStrand(k, producers, workers, p, q, w);
    }
  }
}
