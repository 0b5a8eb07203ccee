/** When the pool's assertion holds, when a task is stranded, and the semaphores' bounds. */
module LockFreePoolTheorems {
  import opened Slots
  import R = Ring
  import RT = RingTheorems
  import opened LockFreePool

  ghost predicate StepOk(ss: seq<State>, acts: seq<Action>, i: nat)
    requires i < |acts| && |ss| == |acts| + 1
  {
    && ss[i].ring.mem.WellSized() && ss[i].ring.threads.Keys == ss[i].pcs.Keys
    && Enabled(ss[i], acts[i]) && ss[i + 1] == Apply(ss[i], acts[i])
  }

  ghost predicate IsRun(ss: seq<State>, acts: seq<Action>) {
    |ss| == |acts| + 1 && forall i {:trigger StepOk(ss, acts, i)} :: 0 <= i < |acts| ==> StepOk(ss, acts, i)
  }

  ghost predicate Reaches(s: State, s': State) {
    exists ss, acts :: IsRun(ss, acts) && ss[0] == s && ss[|acts|] == s'
  }

  /** Reachable by a pool of capacity `Pow2(k)` with these producers and workers. */
  ghost predicate Reachable(s: State, k: nat, producers: set<nat>, workers: set<nat>) {
    Reaches(Init(k, producers, workers), s)
  }

  /** Producers only run `run`, workers only `runInThread`. */
  predicate ProducerPc(pc: Pc) { pc.Outside? || pc.WantSlot? || pc.Enqueuing? || pc.Signal? || pc.Failed? }

  ghost predicate Roles(s: State, producers: set<nat>) {
    forall t :: t in s.pcs ==> (ProducerPc(s.pcs[t]) <==> t in producers)
  }

  lemma StepRoles(s: State, a: Action, producers: set<nat>)
    requires Shape(s) && Roles(s, producers) && Enabled(s, a)
    ensures Roles(Apply(s, a), producers)
  {
  }

  lemma Counted(s: State, t: nat, kind: Kind)
    requires s.ring.threads.Keys == s.pcs.Keys && t in s.pcs && KindOf(s.pcs[t], s.ring.threads[t]) == kind
    ensures |Those(s, kind)| >= 1
  {
    assert t in Those(s, kind);
  }

  /** What a step leaves of its thread's locals: an action outside the ring enters it, leaves it
      or does not touch it. */
  lemma OuterLocal(s: State, a: Action)
    requires s.ring.mem.WellSized() && s.ring.threads.Keys == s.pcs.Keys && Enabled(s, a) && !a.Inside?
    ensures var l, l' := s.ring.threads[a.t], RingApply(s, a).threads[a.t];
      l' == l || l' == R.Idle || (a.AcquireSlot? && l'.EnqLoadPos?) || (a.AcquireItem? && l' == R.DeqLoadPos)
    ensures RingApply(s, a).mem == s.ring.mem
    ensures RingApply(s, a).threads == s.ring.threads[a.t := RingApply(s, a).threads[a.t]]
  {
    assert s.ring.threads == s.ring.threads[a.t := s.ring.threads[a.t]];
  }

  lemma OuterPc(s: State, a: Action)
    requires s.ring.mem.WellSized() && s.ring.threads.Keys == s.pcs.Keys && Enabled(s, a) && !a.Inside?
    requires s.pcs[a.t] != Failed
    ensures var s', l := Apply(s, a), s.ring.threads[a.t];
      && s'.pcs == s.pcs[a.t := s'.pcs[a.t]] && s'.ring == RingApply(s, a)
      && (!l.EnqFull? ==> s'.pcs[a.t] != Failed) && (!l.DeqEmpty? ==> s'.lost == s.lost)
  {
  }

  lemma InsidePc(s: State, a: Action)
    requires s.ring.mem.WellSized() && s.ring.threads.Keys == s.pcs.Keys && Enabled(s, a) && a.Inside?
    ensures Apply(s, a) == s.(ring := R.Apply(s.ring, R.Step(a.t, a.spurious)))
  {
  }

  // ---------------------------------------------------------------- one worker

  ghost predicate NoFail(l: R.Local<Task>) { !l.EnqFull? && (l.EnqTest? ==> l.sequence >= l.pos) }

  /** No `enqueue` has failed or is about to. */
  ghost predicate NoEnqueueFails(s: State) {
    && (forall t :: t in s.pcs ==> s.pcs[t] != Failed)
    && (forall t :: t in s.ring.threads ==> NoFail(s.ring.threads[t]))
  }

  /** The only position being read is the last one claimed. */
  ghost predicate ReadsLast(r: R.State<Task>) {
    forall t :: t in r.threads && r.threads[t].OwnsRead() ==> r.threads[t].pos == r.mem.dequeuePos - 1
  }

  /** Only `w` ever enters `dequeue`. */
  ghost predicate OnlyDequeuer(r: R.State<Task>, w: nat) {
    forall t :: t in r.threads && InDequeue(r.threads[t]) ==> t == w
  }

  /** With one worker, a producer at its sequence load finds its cell released: were it not, the
      tokens would add up to more than the capacity. */
  lemma LoadsReleased(s: State, t: nat)
    requires Shape(s) && R.Core(s.ring) && SlotsAdd(s) && ReadsLast(s.ring) && t in s.pcs && s.ring.threads[t].EnqLoadSeq?
    ensures s.ring.mem.cells[Slot(s.ring.threads[t].pos, s.ring.mem.k)].sequence >= s.ring.threads[t].pos
  {
    LoaderFindsNoReader(s, t);
    LoadFindsReleased(s.ring, t);
  }

  lemma LoaderFindsNoReader(s: State, t: nat)
    requires Shape(s) && R.Bounds(s.ring) && R.Owners(s.ring) && ReadsLast(s.ring) && SlotsAdd(s)
    requires t in s.pcs && s.ring.threads[t].EnqLoadSeq?
    ensures NoReaderLeft(s.ring, t)
  {
    LoaderHolds(s, t);
    TokensLeaveNoReader(s, s.ring.threads[t].pos);
  }

  /** There is room in the ring, and nobody reads what was in the cell that the thread wants to write. */
  ghost predicate NoReaderLeft(r: R.State<Task>, t: nat) {
    && t in r.threads && r.threads[t].EnqLoadSeq? && r.mem.enqueuePos < r.mem.dequeuePos + Pow2(r.mem.k)
    && (r.threads[t].pos == r.mem.enqueuePos ==> r.threads[t].pos - Pow2(r.mem.k) !in r.reading)
  }

  lemma LoadFindsReleased(r: R.State<Task>, t: nat)
    requires R.Core(r) && NoReaderLeft(r, t)
    ensures r.mem.cells[Slot(r.threads[t].pos, r.mem.k)].sequence >= r.threads[t].pos
  {
    LoadBound(r, t);
    ReleasedSequence(r, r.threads[t].pos);
  }

  /** A producer inside `enqueue` that has claimed nothing yet holds a slot token. */
  lemma LoaderHolds(s: State, t: nat)
    requires Shape(s) && t in s.pcs && s.ring.threads[t].EnqLoadSeq?
    ensures |Those(s, Holder)| >= 1
  {
    assert PcMatches(s.pcs[t], s.ring.threads[t]);
    Counted(s, t, Holder);
  }

  lemma LoadBound(r: R.State<Task>, t: nat)
    requires R.Bounds(r) && R.Locals(r) && t in r.threads
    ensures r.threads[t].EnqLoadSeq? ==> r.threads[t].pos <= r.mem.enqueuePos
    ensures r.threads[t].DeqLoadSeq? ==> r.threads[t].pos <= r.mem.dequeuePos
  {
    assert R.LocalOk(r, r.threads[t]);
  }

  lemma ReleasedSequence(r: R.State<Task>, pos: nat)
    requires R.Bounds(r) && R.Owners(r) && R.Window(r) && pos <= r.mem.enqueuePos < r.mem.dequeuePos + Pow2(r.mem.k)
    requires pos == r.mem.enqueuePos ==> pos - Pow2(r.mem.k) !in r.reading
    ensures r.mem.cells[Slot(pos, r.mem.k)].sequence >= pos
  {
    RT.CurrentSequence(r, pos);
  }

  lemma PublishedSequence(r: R.State<Task>, pos: nat)
    requires R.Bounds(r) && R.Owners(r) && R.Window(r) && pos <= r.mem.dequeuePos < r.mem.enqueuePos
    requires pos !in r.writing
    ensures r.mem.cells[Slot(pos, r.mem.k)].sequence >= pos + 1
  {
    RT.CurrentSequence(r, pos);
  }

  lemma TokensLeaveNoReader(s: State, pos: nat)
    requires Shape(s) && R.Bounds(s.ring) && R.Owners(s.ring) && ReadsLast(s.ring) && SlotsAdd(s)
    requires |Those(s, Holder)| >= 1
    ensures s.ring.mem.enqueuePos < s.ring.mem.dequeuePos + Pow2(s.ring.mem.k)
    ensures pos == s.ring.mem.enqueuePos ==> pos - Pow2(s.ring.mem.k) !in s.ring.reading
  {
    var r := s.ring;
    if pos == r.mem.enqueuePos && pos >= Pow2(r.mem.k) {
      var p: nat := pos - Pow2(r.mem.k);
      if p in r.reading {
        var u := r.reading[p];
        assert r.threads[u].OwnsRead() && PcMatches(s.pcs[u], r.threads[u]);
        Counted(s, u, Freeing);
        assert false;
      }
    }
  }

  lemma NoFailFrame(s: State, s': State, t: nat)
    requires NoEnqueueFails(s) && t in s'.ring.threads && t in s'.pcs
    requires s'.pcs == s.pcs[t := s'.pcs[t]] && s'.ring.threads == s.ring.threads[t := s'.ring.threads[t]]
    requires s'.pcs[t] != Failed && NoFail(s'.ring.threads[t])
    ensures NoEnqueueFails(s')
  {
  }

  lemma StepNoEnqueueFails(s: State, a: Action)
    requires Inv(s) && ReadsLast(s.ring) && NoEnqueueFails(s) && Enabled(s, a)
    ensures NoEnqueueFails(Apply(s, a))
  {
    if a.Inside? {
      if s.ring.threads[a.t].EnqLoadSeq? {
        LoadsReleased(s, a.t);
      }
      InsideKeepsNoFail(s, a);
    } else {
      OuterKeepsNoFail(s, a);
    }
  }

  lemma InsideKeepsNoFail(s: State, a: Action)
    requires s.ring.mem.WellSized() && s.ring.threads.Keys == s.pcs.Keys && Enabled(s, a) && a.Inside? && NoEnqueueFails(s)
    requires var l := s.ring.threads[a.t]; l.EnqLoadSeq? ==> s.ring.mem.cells[Slot(l.pos, s.ring.mem.k)].sequence >= l.pos
    ensures NoEnqueueFails(Apply(s, a))
  {
    InsidePc(s, a);
    InsideNoFail(s.ring, a.t, a.spurious);
    assert s.pcs == s.pcs[a.t := s.pcs[a.t]];
    NoFailFrame(s, Apply(s, a), a.t);
  }

  lemma OuterKeepsNoFail(s: State, a: Action)
    requires s.ring.mem.WellSized() && s.ring.threads.Keys == s.pcs.Keys && Enabled(s, a) && !a.Inside? && NoEnqueueFails(s)
    ensures NoEnqueueFails(Apply(s, a))
  {
    assert NoFail(s.ring.threads[a.t]);
    OuterLocal(s, a);
    OuterPc(s, a);
    NoFailFrame(s, Apply(s, a), a.t);
  }

  lemma InsideNoFail(r: R.State<Task>, t: nat, spurious: bool)
    requires r.mem.WellSized() && R.Enabled(r, R.Step(t, spurious)) && NoFail(r.threads[t])
    requires r.threads[t].EnqLoadSeq? ==> r.mem.cells[Slot(r.threads[t].pos, r.mem.k)].sequence >= r.threads[t].pos
    ensures NoFail(R.Exec(r.mem, r.threads[t], spurious).1)
    ensures R.Apply(r, R.Step(t, spurious)).threads == r.threads[t := R.Exec(r.mem, r.threads[t], spurious).1]
  {
  }

  lemma ReadsFrame(r: R.State<Task>, r': R.State<Task>, t: nat, w: nat)
    requires ReadsLast(r) && OnlyDequeuer(r, w) && t in r.threads && t in r'.threads
    requires r'.threads == r.threads[t := r'.threads[t]]
    requires InDequeue(r'.threads[t]) ==> t == w
    requires r'.threads[t].OwnsRead() ==> r'.threads[t].pos == r'.mem.dequeuePos - 1
    requires r'.mem.dequeuePos == r.mem.dequeuePos || t == w
    ensures ReadsLast(r') && OnlyDequeuer(r', w)
  {
  }

  lemma StepReadsLast(s: State, a: Action, w: nat)
    requires Shape(s) && ReadsLast(s.ring) && OnlyDequeuer(s.ring, w) && Enabled(s, a) && (a.AcquireItem? ==> a.t == w)
    ensures ReadsLast(Apply(s, a).ring)
  {
    if a.Inside? {
      InsidePc(s, a);
      InsideEffect(s, a.t, a.spurious);
      InsideReads(s.ring, a.t, a.spurious);
    } else {
      OuterLocal(s, a);
    }
    ReadsFrame(s.ring, Apply(s, a).ring, a.t, w);
  }

  /** A thread that owns a position to read either owned it before or has just claimed it. */
  lemma InsideReads(r: R.State<Task>, t: nat, spurious: bool)
    requires r.mem.WellSized() && R.Enabled(r, R.Step(t, spurious))
    ensures var r' := R.Apply(r, R.Step(t, spurious));
      t in r'.threads && (r'.mem, r'.threads[t]) == R.Exec(r.mem, r.threads[t], spurious)
    ensures var (m', l') := R.Exec(r.mem, r.threads[t], spurious);
      l'.OwnsRead() ==>
        (if r.threads[t].OwnsRead() then l'.pos == r.threads[t].pos && m'.dequeuePos == r.mem.dequeuePos
         else l'.pos == m'.dequeuePos - 1)
  {
    ExecReads(r.mem, r.threads[t], spurious);
  }

  lemma ExecReads(m: R.Shared<Task>, l: R.Local<Task>, spurious: bool)
    requires m.WellSized() && l.Running()
    ensures var (m', l') := R.Exec(m, l, spurious);
      l'.OwnsRead() ==>
        (if l.OwnsRead() then l'.pos == l.pos && m'.dequeuePos == m.dequeuePos else l'.pos == m'.dequeuePos - 1)
  {
  }

  // ---------------------------------------------------------------- one producer

  ghost predicate NoEmpty(l: R.Local<Task>) { !l.DeqEmpty? && (l.DeqTest? ==> l.sequence >= l.pos + 1) }

  /** No `dequeue` has failed or is about to: no item token was ever lost. */
  ghost predicate NoDequeueFails(s: State) {
    s.lost == 0 && forall t :: t in s.ring.threads ==> NoEmpty(s.ring.threads[t])
  }

  ghost predicate WritesLast(r: R.State<Task>) {
    forall t :: t in r.threads && r.threads[t].OwnsWrite() ==> r.threads[t].pos == r.mem.enqueuePos - 1
  }

  ghost predicate OnlyEnqueuer(r: R.State<Task>, p: nat) {
    forall t :: t in r.threads && InEnqueue(r.threads[t]) ==> t == p
  }

  /** With one producer, a worker holding an item token finds its position published. */
  lemma LoadsPublished(s: State, t: nat)
    requires Inv(s) && WritesLast(s.ring) && t in s.pcs && s.ring.threads[t].DeqLoadSeq?
    ensures s.ring.mem.cells[Slot(s.ring.threads[t].pos, s.ring.mem.k)].sequence >= s.ring.threads[t].pos + 1
  {
    assert PcMatches(s.pcs[t], s.ring.threads[t]);
    Counted(s, t, Taker);
    LoadBound(s.ring, t);
    TokensLeaveNoWriter(s, s.ring.threads[t].pos);
    PublishedSequence(s.ring, s.ring.threads[t].pos);
  }

  lemma TokensLeaveNoWriter(s: State, pos: nat)
    requires Shape(s) && R.Bounds(s.ring) && R.Owners(s.ring) && WritesLast(s.ring) && ItemsAdd(s)
    requires |Those(s, Taker)| >= 1 && pos <= s.ring.mem.dequeuePos
    ensures s.ring.mem.dequeuePos < s.ring.mem.enqueuePos && pos !in s.ring.writing
  {
    var r := s.ring;
    if pos in r.writing {
      var u := r.writing[pos];
      assert r.threads[u].OwnsWrite() && PcMatches(s.pcs[u], r.threads[u]);
      Counted(s, u, Signalling);
      assert false;
    }
  }

  lemma NoEmptyFrame(s: State, s': State, t: nat)
    requires NoDequeueFails(s) && t in s'.ring.threads && s'.lost == s.lost
    requires s'.ring.threads == s.ring.threads[t := s'.ring.threads[t]] && NoEmpty(s'.ring.threads[t])
    ensures NoDequeueFails(s')
  {
  }

  lemma StepNoDequeueFails(s: State, a: Action)
    requires Inv(s) && WritesLast(s.ring) && NoDequeueFails(s) && Enabled(s, a)
    ensures NoDequeueFails(Apply(s, a))
  {
    assert NoEmpty(s.ring.threads[a.t]);
    if a.Inside? {
      if s.ring.threads[a.t].DeqLoadSeq? {
        LoadsPublished(s, a.t);
      }
      InsidePc(s, a);
      InsideNoEmpty(s.ring, a.t, a.spurious);
    } else {
      OuterLocal(s, a);
      OuterLost(s, a);
    }
    NoEmptyFrame(s, Apply(s, a), a.t);
  }

  lemma OuterLost(s: State, a: Action)
    requires s.ring.mem.WellSized() && s.ring.threads.Keys == s.pcs.Keys && Enabled(s, a) && !a.Inside?
    requires !s.ring.threads[a.t].DeqEmpty?
    ensures Apply(s, a).lost == s.lost && Apply(s, a).ring == RingApply(s, a)
  {
  }

  lemma InsideNoEmpty(r: R.State<Task>, t: nat, spurious: bool)
    requires r.mem.WellSized() && R.Enabled(r, R.Step(t, spurious)) && NoEmpty(r.threads[t])
    requires r.threads[t].DeqLoadSeq? ==>
      r.mem.cells[Slot(r.threads[t].pos, r.mem.k)].sequence >= r.threads[t].pos + 1
    ensures NoEmpty(R.Exec(r.mem, r.threads[t], spurious).1)
    ensures R.Apply(r, R.Step(t, spurious)).threads == r.threads[t := R.Exec(r.mem, r.threads[t], spurious).1]
  {
  }

  lemma WritesFrame(r: R.State<Task>, r': R.State<Task>, t: nat, p: nat)
    requires WritesLast(r) && OnlyEnqueuer(r, p) && t in r.threads && t in r'.threads
    requires r'.threads == r.threads[t := r'.threads[t]]
    requires InEnqueue(r'.threads[t]) ==> t == p
    requires r'.threads[t].OwnsWrite() ==> r'.threads[t].pos == r'.mem.enqueuePos - 1
    requires r'.mem.enqueuePos == r.mem.enqueuePos || t == p
    ensures WritesLast(r') && OnlyEnqueuer(r', p)
  {
  }

  lemma StepWritesLast(s: State, a: Action, p: nat)
    requires Shape(s) && WritesLast(s.ring) && OnlyEnqueuer(s.ring, p) && Enabled(s, a) && (a.AcquireSlot? ==> a.t == p)
    ensures WritesLast(Apply(s, a).ring)
  {
    if a.Inside? {
      InsidePc(s, a);
      InsideEffect(s, a.t, a.spurious);
      InsideWrites(s.ring, a.t, a.spurious);
    } else {
      OuterLocal(s, a);
    }
    WritesFrame(s.ring, Apply(s, a).ring, a.t, p);
  }

  lemma InsideWrites(r: R.State<Task>, t: nat, spurious: bool)
    requires r.mem.WellSized() && R.Enabled(r, R.Step(t, spurious))
    ensures var r' := R.Apply(r, R.Step(t, spurious));
      t in r'.threads && (r'.mem, r'.threads[t]) == R.Exec(r.mem, r.threads[t], spurious)
    ensures var (m', l') := R.Exec(r.mem, r.threads[t], spurious);
      l'.OwnsWrite() ==>
        (if r.threads[t].OwnsWrite() then l'.pos == r.threads[t].pos && m'.enqueuePos == r.mem.enqueuePos
         else l'.pos == m'.enqueuePos - 1)
  {
    ExecWrites(r.mem, r.threads[t], spurious);
  }

  lemma ExecWrites(m: R.Shared<Task>, l: R.Local<Task>, spurious: bool)
    requires m.WellSized() && l.Running()
    ensures var (m', l') := R.Exec(m, l, spurious);
      l'.OwnsWrite() ==>
        (if l.OwnsWrite() then l'.pos == l.pos && m'.enqueuePos == m.enqueuePos else l'.pos == m'.enqueuePos - 1)
  {
  }

  // ---------------------------------------------------------------- all runs

  ghost predicate Base(s: State, producers: set<nat>, workers: set<nat>) {
    Inv(s) && Roles(s, producers) && s.pcs.Keys == producers + workers
  }

  /** The invariant of every run, with what one worker and one producer add. */
  ghost predicate FullInv(s: State, producers: set<nat>, workers: set<nat>) {
    && Base(s, producers, workers)
    && (|workers| <= 1 ==> ReadsLast(s.ring) && NoEnqueueFails(s))
    && (|producers| <= 1 ==> WritesLast(s.ring) && NoDequeueFails(s))
  }

  lemma AtMostOne(ts: set<nat>, t: nat, u: nat)
    requires |ts| <= 1 && t in ts && u in ts
    ensures t == u
  {
    if t != u {
      assert {t, u} <= ts;
      SubsetSize({t, u}, ts);
    }
  }

  lemma SubsetSize(a: set<nat>, b: set<nat>)
    requires a <= b
    ensures |a| <= |b|
  {
    assert b == a + (b - a);
  }

  lemma OneDequeuer(s: State, producers: set<nat>, workers: set<nat>, w: nat)
    requires Shape(s) && Roles(s, producers) && s.pcs.Keys == producers + workers
    requires |workers| <= 1 && (w in workers || workers == {})
    ensures OnlyDequeuer(s.ring, w)
  {
    forall t | t in s.ring.threads && InDequeue(s.ring.threads[t]) ensures t == w {
      assert PcMatches(s.pcs[t], s.ring.threads[t]) && t in workers;
      AtMostOne(workers, t, w);
    }
  }

  lemma OneEnqueuer(s: State, producers: set<nat>, p: nat)
    requires Shape(s) && Roles(s, producers) && |producers| <= 1 && (p in producers || producers == {})
    ensures OnlyEnqueuer(s.ring, p)
  {
    forall t | t in s.ring.threads && InEnqueue(s.ring.threads[t]) ensures t == p {
      assert PcMatches(s.pcs[t], s.ring.threads[t]) && t in producers;
      AtMostOne(producers, t, p);
    }
  }

  lemma OneWorkerStep(s: State, a: Action, producers: set<nat>, workers: set<nat>)
    requires Base(s, producers, workers) && ReadsLast(s.ring) && NoEnqueueFails(s)
    requires producers !! workers && |workers| <= 1 && Enabled(s, a)
    ensures ReadsLast(Apply(s, a).ring) && NoEnqueueFails(Apply(s, a))
  {
    StepNoEnqueueFails(s, a);
    var w :| w in workers || workers == {};
    OneDequeuer(s, producers, workers, w);
    if a.AcquireItem? {
      AtMostOne(workers, a.t, w);
    }
    StepReadsLast(s, a, w);
  }

  lemma OneProducerStep(s: State, a: Action, producers: set<nat>, workers: set<nat>)
    requires Base(s, producers, workers) && WritesLast(s.ring) && NoDequeueFails(s)
    requires |producers| <= 1 && Enabled(s, a)
    ensures WritesLast(Apply(s, a).ring) && NoDequeueFails(Apply(s, a))
  {
    StepNoDequeueFails(s, a);
    var p :| p in producers || producers == {};
    OneEnqueuer(s, producers, p);
    if a.AcquireSlot? {
      AtMostOne(producers, a.t, p);
    }
    StepWritesLast(s, a, p);
  }

  lemma BaseStep(s: State, a: Action, producers: set<nat>, workers: set<nat>)
    requires Base(s, producers, workers) && Enabled(s, a)
    ensures Base(Apply(s, a), producers, workers)
  {
    StepInv(s, a);
    StepRoles(s, a, producers);
  }

  lemma NextInv(s: State, a: Action, s': State, producers: set<nat>, workers: set<nat>)
    requires FullInv(s, producers, workers) && producers !! workers && Enabled(s, a) && s' == Apply(s, a)
    ensures FullInv(s', producers, workers)
  {
    BaseStep(s, a, producers, workers);
    if |workers| <= 1 {
      OneWorkerStep(s, a, producers, workers);
    }
    if |producers| <= 1 {
      OneProducerStep(s, a, producers, workers);
    }
  }

  /** What holds first, and at each next state when it holds before, holds throughout a run. */
  lemma {:induction false} Throughout(ss: seq<State>, n: nat, p: State -> bool)
    requires n < |ss| && p(ss[0])
    requires forall i :: 0 <= i < n && p(ss[i]) ==> p(ss[i + 1])
    ensures p(ss[n])
  {
    if n > 0 {
      Throughout(ss, n - 1, p);
      assert p(ss[n - 1 + 1]);
    }
  }

  lemma RunInv(ss: seq<State>, acts: seq<Action>, n: nat, producers: set<nat>, workers: set<nat>)
    requires IsRun(ss, acts) && FullInv(ss[0], producers, workers) && producers !! workers && n <= |acts|
    ensures FullInv(ss[n], producers, workers)
  {
    var p := (s: State) => FullInv(s, producers, workers);
    forall i | 0 <= i < n && p(ss[i]) ensures p(ss[i + 1]) {
      assert StepOk(ss, acts, i);
      NextInv(ss[i], acts[i], ss[i + 1], producers, workers);
    }
    Throughout(ss, n, p);
  }

  lemma {:induction false} SameCapacity(ss: seq<State>, acts: seq<Action>, n: nat)
    requires IsRun(ss, acts) && n <= |acts|
    ensures ss[n].ring.mem.k == ss[0].ring.mem.k
  {
    if n > 0 {
      SameCapacity(ss, acts, n - 1);
      assert StepOk(ss, acts, n - 1);
    }
  }

  lemma ReachableInv(s: State, k: nat, producers: set<nat>, workers: set<nat>)
    requires k >= 1 && producers !! workers && Reachable(s, k, producers, workers)
    ensures FullInv(s, producers, workers) && s.ring.mem.k == k
  {
    InitInv(k, producers, workers);
    var s0 := Init(k, producers, workers);
    var ss, acts :| IsRun(ss, acts) && ss[0] == s0 && ss[|acts|] == s;
    RunInv(ss, acts, |acts|, producers, workers);
    SameCapacity(ss, acts, |acts|);
  }

  /** With one worker and any number of producers, a producer that holds a slot token never
      sees `enqueue` fail: the assertion of line 87 holds. */
  lemma OneWorkerAssertionHolds(s: State, k: nat, producers: set<nat>, workers: set<nat>, t: nat)
    requires k >= 1 && producers !! workers && |workers| <= 1 && Reachable(s, k, producers, workers) && t in s.pcs
    ensures !s.pcs[t].Failed? && t in s.ring.threads && !s.ring.threads[t].EnqFull?
  {
    ReachableInv(s, k, producers, workers);
  }

  /** With one producer and any number of workers, a worker that holds an item token never sees
      `dequeue` fail, so no announcement is lost: whenever nobody is on the move, every item in
      the ring is announced by a token. */
  lemma OneProducerStrandsNothing(s: State, k: nat, producers: set<nat>, workers: set<nat>)
    requires k >= 1 && producers !! workers && |producers| <= 1 && Reachable(s, k, producers, workers)
    ensures s.lost == 0 && s.ring.threads.Keys == s.pcs.Keys
    ensures Those(s, Taker) == {} && Those(s, Signalling) == {} ==> s.items == |R.Contents(s.ring)|
  {
    ReachableInv(s, k, producers, workers);
  }

  /** For any numbers of producers and workers both semaphores stay within the capacity. */
  lemma SemaphoresBounded(s: State, k: nat, producers: set<nat>, workers: set<nat>)
    requires k >= 1 && producers !! workers && Reachable(s, k, producers, workers)
    ensures s.slots <= Pow2(k) && s.items <= Pow2(k)
  {
    ReachableInv(s, k, producers, workers);
  }
}
