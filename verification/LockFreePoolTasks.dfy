/** Where the pool's tasks are: nothing that is submitted gets lost or runs twice, and one producer's tasks
    start in order on one worker. */
module LockFreePoolTasks {
  import opened Wrappers
  import R = Ring
  import RT = RingTheorems
  import opened LockFreePool
  import opened LockFreePoolTheorems

  /** The position a dequeuing thread has claimed. */
  predicate HasTaken(l: R.Local<Task>) { l.DeqRead? || l.DeqRelease? || l.DeqDone? }

  /** The task in a thread's hands: a producer's until its `enqueue` has claimed a position, and a worker's
      from the moment its `dequeue` has claimed one until it runs the task. */
  function Hand(ring: R.State<Task>, pc: Pc, l: R.Local<Task>): Option<Task> {
    match pc
    case WantSlot(x) => Some(x)
    case Enqueuing(x) => if l.EnqWrite? || l.EnqPublish? || l.EnqDone? then None else Some(x)
    case Dequeuing => if HasTaken(l) && l.pos < |ring.items| then Some(ring.items[l.pos]) else None
    case FreeSlot(x) => Some(x)
    case Execute(x) => Some(x)
    case _ => None
  }

  function HandOf(s: State, t: nat): Option<Task> {
    if t in s.pcs && t in s.ring.threads then Hand(s.ring, s.pcs[t], s.ring.threads[t]) else None
  }

  /** Those of `ts` that have `x` in their hands. */
  ghost function Holding(s: State, x: Task, ts: set<nat>): set<nat> {
    set t | t in ts && HandOf(s, t) == Some(x)
  }

  /** How often `x` is neither in hand nor yet to be accounted for. */
  ghost function AtRest(s: State, x: Task): nat {
    multiset(R.Contents(s.ring))[x] + multiset(s.failed)[x] + multiset(s.started)[x]
  }

  /** Every submission of `x` is in a thread's hands, in the ring, failed, or started. */
  ghost predicate Accounted(s: State, x: Task) {
    multiset(s.submitted)[x] == |Holding(s, x, s.pcs.Keys)| + AtRest(s, x)
  }

  function One(h: Option<Task>, x: Task): nat { if h == Some(x) then 1 else 0 }

  // ---------------------------------------------------------------- one step

  /** The other threads' hands do not change. */
  ghost predicate OthersKeep(s: State, s': State, t: nat) {
    s'.pcs.Keys == s.pcs.Keys && forall u :: u in s.pcs && u != t ==> HandOf(s', u) == HandOf(s, u)
  }

  lemma HoldingMoves(s: State, s': State, t: nat, x: Task)
    requires OthersKeep(s, s', t) && t in s.pcs
    ensures |Holding(s', x, s'.pcs.Keys)| - |Holding(s, x, s.pcs.Keys)| == One(HandOf(s', t), x) - One(HandOf(s, t), x)
  {
    var h, h' := Holding(s, x, s.pcs.Keys), Holding(s', x, s'.pcs.Keys);
    assert h - {t} == h' - {t};
    SizesDiffer(h, h', t);
  }

  /** What a step inside the ring means for the hands: items once claimed stay, and a position is claimed, by
      either side, in one step. */
  ghost predicate RingHands(r: R.State<Task>, r': R.State<Task>, t: nat)
    requires t in r.threads && t in r'.threads
  {
    var l, l' := r.threads[t], r'.threads[t];
    && r'.items == r.items + (if l.EnqTest? && l'.EnqWrite? then [l.item] else [])
    && ((l'.EnqWrite? || l'.EnqPublish? || l'.EnqDone?) <==> (l.EnqWrite? || l.EnqPublish? || (l.EnqTest? && l'.EnqWrite?)))
    && (HasTaken(l') <==> HasTaken(l) || (l.DeqTest? && l'.DeqRead?)) && (HasTaken(l) ==> l'.pos == l.pos)
  }

  lemma ExecHands(m: R.Shared<Task>, l: R.Local<Task>, spurious: bool)
    requires m.WellSized() && l.Running()
    ensures var l' := R.Exec(m, l, spurious).1;
            && ((l'.EnqWrite? || l'.EnqPublish? || l'.EnqDone?) <==> (l.EnqWrite? || l.EnqPublish? || (l.EnqTest? && l'.EnqWrite?)))
            && (HasTaken(l') <==> HasTaken(l) || (l.DeqTest? && l'.DeqRead?)) && (HasTaken(l) ==> l'.pos == l.pos)
            && (l'.EnqWrite? ==> l.EnqTest? && l'.item == l.item)
  {
  }

  lemma RecordItems(r: R.State<Task>, t: nat, l: R.Local<Task>, m': R.Shared<Task>, l': R.Local<Task>)
    ensures R.Record(r, t, l, m', l').items == r.items + (if l'.EnqWrite? then [l'.item] else [])
    ensures R.Record(r, t, l, m', l').threads == r.threads[t := l']
  {
  }

  lemma RingStepHands(r: R.State<Task>, t: nat, spurious: bool)
    requires r.mem.WellSized() && R.Enabled(r, R.Step(t, spurious))
    ensures RingHands(r, R.Apply(r, R.Step(t, spurious)), t)
  {
    ExecHands(r.mem, r.threads[t], spurious);
    var (m', l') := R.Exec(r.mem, r.threads[t], spurious);
    RecordItems(r, t, r.threads[t], m', l');
  }

  /** A thread that has taken a position has taken a claimed one, and its result is that position's item. */
  lemma TakenOk(r: R.State<Task>, t: nat)
    requires R.Bounds(r) && R.Locals(r) && t in r.threads && HasTaken(r.threads[t])
    ensures r.threads[t].pos < |r.items|
    ensures r.threads[t].DeqDone? ==> r.threads[t].out == Some(r.items[r.threads[t].pos])
  {
    assert R.LocalOk(r, r.threads[t]);
  }

  lemma InsideOthers(s: State, t: nat, spurious: bool)
    requires Inv(s) && Enabled(s, Inside(t, spurious))
    ensures OthersKeep(s, Apply(s, Inside(t, spurious)), t)
  {
    var s' := Apply(s, Inside(t, spurious));
    InsideEffect(s, t, spurious);
    RingStepHands(s.ring, t, spurious);
    forall u | u in s.pcs && u != t ensures HandOf(s', u) == HandOf(s, u) {
      OtherKeeps(s, s', t, u);
    }
  }

  lemma OtherKeeps(s: State, s': State, t: nat, u: nat)
    requires s.ring.threads.Keys == s.pcs.Keys && R.Bounds(s.ring) && R.Locals(s.ring) && t in s.pcs && t in s'.ring.threads
    requires s' == s.(ring := s'.ring) && RingHands(s.ring, s'.ring, t)
    requires s'.ring.threads == s.ring.threads[t := s'.ring.threads[t]] && u in s.pcs && u != t
    ensures HandOf(s', u) == HandOf(s, u)
  {
    if HasTaken(s.ring.threads[u]) { TakenOk(s.ring, u); }
  }

  lemma OwnThreadHands(s: State, s': State, t: nat)
    requires s.ring.threads.Keys == s.pcs.Keys && t in s.pcs && OwnThreadOnly(s, s', t)
    ensures OthersKeep(s, s', t) && R.Contents(s'.ring) == R.Contents(s.ring)
  {
  }

  /** Inside the ring a task passes from a hand into the ring, or from the ring into a hand. */
  lemma InsideBalance(s: State, t: nat, spurious: bool, x: Task)
    requires Inv(s) && Enabled(s, Inside(t, spurious))
    ensures var s' := Apply(s, Inside(t, spurious));
            One(HandOf(s', t), x) + multiset(R.Contents(s'.ring))[x] == One(HandOf(s, t), x) + multiset(R.Contents(s.ring))[x]
  {
    var s' := Apply(s, Inside(t, spurious));
    InsideEffect(s, t, spurious);
    RT.StepIsFifo(s.ring, R.Step(t, spurious));
    RingStepHands(s.ring, t, spurious);
    if HasTaken(s.ring.threads[t]) { TakenOk(s.ring, t); }
    HandBalance(s, s', t, x);
  }

  lemma AppendCounts(q: seq<Task>, y: Task, x: Task)
    ensures multiset(q + [y])[x] == multiset(q)[x] + One(Some(y), x)
    ensures multiset([y] + q)[x] == multiset(q)[x] + One(Some(y), x)
  {
  }

  /** The hand of a thread that has claimed a position to write, to read, or none. */
  lemma HandStep(s: State, r': R.State<Task>, t: nat)
    requires s.ring.threads.Keys == s.pcs.Keys && t in s.pcs && t in r'.threads
    requires PcMatches(s.pcs[t], s.ring.threads[t]) && s.ring.threads[t].Running() && RingHands(s.ring, r', t)
    requires HasTaken(s.ring.threads[t]) ==> s.ring.threads[t].pos < |s.ring.items|
    ensures var l, l' := s.ring.threads[t], r'.threads[t];
            var h, h' := HandOf(s, t), HandOf(s.(ring := r'), t);
            if l.EnqTest? && l'.EnqWrite? then h == Some(l.item) && h' == None
            else if l.DeqTest? && l'.DeqRead? then
              h == None && r'.items == s.ring.items && (l'.pos < |r'.items| ==> h' == Some(r'.items[l'.pos]))
            else h' == h
  {
  }

  lemma HandBalance(s: State, s': State, t: nat, x: Task)
    requires s.ring.threads.Keys == s.pcs.Keys && t in s.pcs && t in s'.ring.threads && s' == s.(ring := s'.ring)
    requires PcMatches(s.pcs[t], s.ring.threads[t]) && s.ring.threads[t].Running()
    requires RT.FifoStep(s.ring, s'.ring, t) && RingHands(s.ring, s'.ring, t)
    requires HasTaken(s.ring.threads[t]) ==> s.ring.threads[t].pos < |s.ring.items|
    ensures One(HandOf(s', t), x) + multiset(R.Contents(s'.ring))[x] == One(HandOf(s, t), x) + multiset(R.Contents(s.ring))[x]
  {
    HandStep(s, s'.ring, t);
    var l, l' := s.ring.threads[t], s'.ring.threads[t];
    if l.EnqTest? && l'.EnqWrite? {
      AppendCounts(R.Contents(s.ring), l.item, x);
    } else if l.DeqTest? && l'.DeqRead? {
      AppendCounts(R.Contents(s'.ring), s.ring.items[l'.pos], x);
    }
  }

  /** The task that the action ends: its `enqueue` has failed, or it starts. */
  lemma OuterHand(s: State, a: Action)
    requires Shape(s) && Enabled(s, a) && !a.Inside? && OwnThreadOnly(s, Apply(s, a), a.t)
    requires var l := s.ring.threads[a.t]; l.DeqDone? ==> l.pos < |s.ring.items| && l.out == Some(s.ring.items[l.pos])
    ensures var s', h, h' := Apply(s, a), HandOf(s, a.t), HandOf(Apply(s, a), a.t);
            && s'.submitted == s.submitted + (if a.Submit? then [a.task] else [])
            && (a.Submit? ==> h == None && h' == Some(a.task))
            && (a.Start? ==> h == Some(s.pcs[a.t].task) && h' == None)
            && s'.started == s.started + (if a.Start? then [s.pcs[a.t].task] else [])
            && var fails := a.EndEnqueue? && s.ring.threads[a.t].EnqFull?;
               s'.failed == s.failed + (if fails then [s.pcs[a.t].task] else [])
               && (fails ==> h == Some(s.pcs[a.t].task) && h' == None)
               && (!a.Submit? && !a.Start? && !fails ==> h' == h)
  {
    assert PcMatches(s.pcs[a.t], s.ring.threads[a.t]);
  }

  /** Outside the ring a task passes from its submission into a hand, and from a hand to its end. */
  lemma OuterBalance(s: State, a: Action, x: Task)
    requires Inv(s) && Enabled(s, a) && !a.Inside? && OwnThreadOnly(s, Apply(s, a), a.t)
    ensures var s' := Apply(s, a);
            One(HandOf(s', a.t), x) + multiset(s'.failed)[x] + multiset(s'.started)[x] - multiset(s'.submitted)[x]
            == One(HandOf(s, a.t), x) + multiset(s.failed)[x] + multiset(s.started)[x] - multiset(s.submitted)[x]
  {
    if s.ring.threads[a.t].DeqDone? { TakenOk(s.ring, a.t); }
    OuterHand(s, a);
    if a.Submit? {
      AppendCounts(s.submitted, a.task, x);
    } else if a.Start? {
      AppendCounts(s.started, s.pcs[a.t].task, x);
    } else if a.EndEnqueue? {
      AppendCounts(s.failed, s.pcs[a.t].task, x);
    }
  }

  lemma StepAccounted(s: State, a: Action, x: Task)
    requires Inv(s) && Enabled(s, a) && Accounted(s, x)
    ensures Accounted(Apply(s, a), x)
  {
    if a.Inside? {
      InsideOthers(s, a.t, a.spurious);
      InsideBalance(s, a.t, a.spurious, x);
      InsidePc(s, a);
    } else {
      OuterRing(s, a);
      OwnThreadHands(s, Apply(s, a), a.t);
      OuterBalance(s, a, x);
    }
    HoldingMoves(s, Apply(s, a), a.t, x);
  }

  // ---------------------------------------------------------------- the order of submission

  function HandSeq(s: State, t: nat): seq<Task> {
    match HandOf(s, t)
    case Some(x) => [x]
    case None => []
  }

  /** What producer `p` has submitted, in order: what is claimed in the ring, then its failed task, then the
      one in its hands. */
  ghost predicate SubmittedInOrder(s: State, p: nat) {
    && p in s.pcs && s.submitted == s.ring.items + s.failed + HandSeq(s, p)
    && (!s.pcs[p].Failed? ==> s.failed == [])
  }

  /** What has been claimed to be taken, in order: what worker `w` has started, then the task in its hands. */
  ghost predicate StartedInOrder(s: State, w: nat) {
    && w in s.pcs && s.ring.mem.dequeuePos <= |s.ring.items|
    && s.ring.items[..s.ring.mem.dequeuePos] == s.started + HandSeq(s, w)
  }

  /** Steps of the workers do not touch what producer `p` has submitted. */
  lemma WorkerKeepsSubmitted(s: State, a: Action, p: nat)
    requires Shape(s) && Roles(s, {p}) && Enabled(s, a) && a.t != p && SubmittedInOrder(s, p)
    requires OthersKeep(s, Apply(s, a), a.t)
    requires a.Inside? ==> Apply(s, a) == s.(ring := Apply(s, a).ring) && RingHands(s.ring, Apply(s, a).ring, a.t)
    requires !a.Inside? ==> OwnThreadOnly(s, Apply(s, a), a.t)
    ensures SubmittedInOrder(Apply(s, a), p)
  {
    assert PcMatches(s.pcs[a.t], s.ring.threads[a.t]);
  }

  lemma ProducerInside(s: State, r': R.State<Task>, p: nat)
    requires Shape(s) && Roles(s, {p}) && p in s.pcs && p in r'.threads && s.ring.threads[p].Running()
    requires RingHands(s.ring, r', p) && SubmittedInOrder(s, p)
    requires HasTaken(s.ring.threads[p]) ==> s.ring.threads[p].pos < |s.ring.items|
    ensures SubmittedInOrder(s.(ring := r'), p)
  {
    assert PcMatches(s.pcs[p], s.ring.threads[p]);
    HandStep(s, r', p);
  }

  lemma ProducerOutside(s: State, a: Action, p: nat)
    requires Shape(s) && p in s.pcs && ProducerPc(s.pcs[p]) && a.t == p && Enabled(s, a) && !a.Inside? && OwnThreadOnly(s, Apply(s, a), p)
    requires SubmittedInOrder(s, p)
    ensures SubmittedInOrder(Apply(s, a), p)
  {
    assert PcMatches(s.pcs[p], s.ring.threads[p]);
    OuterHand(s, a);
  }

  lemma StepSubmitted(s: State, a: Action, p: nat)
    requires Inv(s) && Roles(s, {p}) && Enabled(s, a) && SubmittedInOrder(s, p)
    ensures SubmittedInOrder(Apply(s, a), p)
  {
    if a.Inside? {
      InsideOthers(s, a.t, a.spurious);
      InsidePc(s, a);
      RingStepHands(s.ring, a.t, a.spurious);
      if a.t == p {
        if HasTaken(s.ring.threads[p]) { TakenOk(s.ring, p); }
        ProducerInside(s, Apply(s, a).ring, p);
      } else {
        WorkerKeepsSubmitted(s, a, p);
      }
    } else {
      OuterRing(s, a);
      OwnThreadHands(s, Apply(s, a), a.t);
      if a.t == p { ProducerOutside(s, a, p); } else { WorkerKeepsSubmitted(s, a, p); }
    }
  }

  /** Steps of the producers do not touch what worker `w` has taken. */
  lemma ProducerKeepsStarted(s: State, a: Action, producers: set<nat>, w: nat)
    requires Shape(s) && Roles(s, producers) && Enabled(s, a) && a.t != w && a.t in producers && StartedInOrder(s, w)
    requires OthersKeep(s, Apply(s, a), a.t)
    requires a.Inside? ==> Apply(s, a) == s.(ring := Apply(s, a).ring) && RingHands(s.ring, Apply(s, a).ring, a.t)
                           && RingStepEffect(s.ring, Apply(s, a).ring, a.t)
    requires !a.Inside? ==> OwnThreadOnly(s, Apply(s, a), a.t)
    ensures StartedInOrder(Apply(s, a), w)
  {
    assert PcMatches(s.pcs[a.t], s.ring.threads[a.t]);
  }

  lemma WorkerInside(s: State, r': R.State<Task>, w: nat)
    requires Shape(s) && w in s.pcs && w in r'.threads && s.ring.threads[w].Running() && s.pcs[w].Dequeuing?
    requires RingHands(s.ring, r', w) && RingStepEffect(s.ring, r', w) && StartedInOrder(s, w) && R.Bounds(r')
    requires HasTaken(s.ring.threads[w]) ==> s.ring.threads[w].pos < |s.ring.items|
    requires s.ring.threads[w].DeqTest? && r'.threads[w].DeqRead? ==> r'.threads[w].pos == s.ring.mem.dequeuePos
    ensures StartedInOrder(s.(ring := r'), w)
  {
    assert PcMatches(s.pcs[w], s.ring.threads[w]);
    HandStep(s, r', w);
    var d := s.ring.mem.dequeuePos;
    if s.ring.threads[w].DeqTest? && r'.threads[w].DeqRead? {
      assert r'.items[..d + 1] == s.ring.items[..d] + [r'.items[d]];
    }
  }

  lemma WorkerOutside(s: State, a: Action, w: nat)
    requires Inv(s) && a.t == w && Enabled(s, a) && !a.Inside? && !ProducerPc(s.pcs[w]) && OwnThreadOnly(s, Apply(s, a), w)
    requires StartedInOrder(s, w)
    ensures StartedInOrder(Apply(s, a), w)
  {
    if s.ring.threads[w].DeqDone? { TakenOk(s.ring, w); }
    OuterHand(s, a);
    assert PcMatches(s.pcs[w], s.ring.threads[w]);
  }

  lemma InsideStarted(s: State, t: nat, spurious: bool, producers: set<nat>, w: nat)
    requires Inv(s) && Roles(s, producers) && s.pcs.Keys == producers + {w} && w !in producers
    requires Enabled(s, Inside(t, spurious)) && R.Bounds(Apply(s, Inside(t, spurious)).ring) && StartedInOrder(s, w)
    ensures StartedInOrder(Apply(s, Inside(t, spurious)), w)
  {
    var a := Inside(t, spurious);
    InsideOthers(s, t, spurious);
    InsideEffect(s, t, spurious);
    RingStepHands(s.ring, t, spurious);
    if t == w {
      if HasTaken(s.ring.threads[w]) { TakenOk(s.ring, w); }
      assert PcMatches(s.pcs[w], s.ring.threads[w]);
      InsideReads(s.ring, w, spurious);
      WorkerInside(s, Apply(s, a).ring, w);
    } else {
      ProducerKeepsStarted(s, a, producers, w);
    }
  }

  lemma StepStarted(s: State, a: Action, producers: set<nat>, w: nat)
    requires Inv(s) && Roles(s, producers) && s.pcs.Keys == producers + {w} && w !in producers
    requires Enabled(s, a) && StartedInOrder(s, w)
    ensures StartedInOrder(Apply(s, a), w)
  {
    if a.Inside? {
      StepInv(s, a);
      InsideStarted(s, a.t, a.spurious, producers, w);
    } else {
      OuterRing(s, a);
      OwnThreadHands(s, Apply(s, a), a.t);
      if a.t == w { WorkerOutside(s, a, w); } else { ProducerKeepsStarted(s, a, producers, w); }
    }
  }

  // ---------------------------------------------------------------- all runs

  lemma NextAccounted(s: State, a: Action, s': State, x: Task)
    requires Inv(s) && Accounted(s, x) && Enabled(s, a) && s' == Apply(s, a)
    ensures Inv(s') && Accounted(s', x)
  {
    StepInv(s, a);
    StepAccounted(s, a, x);
  }

  lemma RunAccounted(ss: seq<State>, acts: seq<Action>, x: Task)
    requires IsRun(ss, acts) && Inv(ss[0]) && Accounted(ss[0], x)
    ensures Accounted(ss[|acts|], x)
  {
    var ok := (s: State) => Inv(s) && Accounted(s, x);
    forall i | 0 <= i < |acts| && ok(ss[i]) ensures ok(ss[i + 1]) {
      assert StepOk(ss, acts, i);
      NextAccounted(ss[i], acts[i], ss[i + 1], x);
    }
    Throughout(ss, |acts|, ok);
  }

  ghost predicate SubmittedInv(s: State, p: nat, workers: set<nat>) {
    FullInv(s, {p}, workers) && SubmittedInOrder(s, p)
  }

  lemma NextSubmitted(s: State, a: Action, s': State, p: nat, workers: set<nat>)
    requires SubmittedInv(s, p, workers) && p !in workers && Enabled(s, a) && s' == Apply(s, a)
    ensures SubmittedInv(s', p, workers)
  {
    NextInv(s, a, s', {p}, workers);
    StepSubmitted(s, a, p);
  }

  lemma RunSubmitted(ss: seq<State>, acts: seq<Action>, p: nat, workers: set<nat>)
    requires IsRun(ss, acts) && SubmittedInv(ss[0], p, workers) && p !in workers
    ensures SubmittedInv(ss[|acts|], p, workers)
  {
    var ok := (s: State) => SubmittedInv(s, p, workers);
    forall i | 0 <= i < |acts| && ok(ss[i]) ensures ok(ss[i + 1]) {
      assert StepOk(ss, acts, i);
      NextSubmitted(ss[i], acts[i], ss[i + 1], p, workers);
    }
    Throughout(ss, |acts|, ok);
  }

  ghost predicate StartedInv(s: State, producers: set<nat>, w: nat) {
    FullInv(s, producers, {w}) && StartedInOrder(s, w)
  }

  lemma NextStarted(s: State, a: Action, s': State, producers: set<nat>, w: nat)
    requires StartedInv(s, producers, w) && w !in producers && Enabled(s, a) && s' == Apply(s, a)
    ensures StartedInv(s', producers, w)
  {
    NextInv(s, a, s', producers, {w});
    StepStarted(s, a, producers, w);
  }

  lemma RunStarted(ss: seq<State>, acts: seq<Action>, producers: set<nat>, w: nat)
    requires IsRun(ss, acts) && StartedInv(ss[0], producers, w) && w !in producers
    ensures StartedInv(ss[|acts|], producers, w)
  {
    var ok := (s: State) => StartedInv(s, producers, w);
    forall i | 0 <= i < |acts| && ok(ss[i]) ensures ok(ss[i + 1]) {
      assert StepOk(ss, acts, i);
      NextStarted(ss[i], acts[i], ss[i + 1], producers, w);
    }
    Throughout(ss, |acts|, ok);
  }

  lemma InitFull(k: nat, producers: set<nat>, workers: set<nat>)
    requires k >= 1 && producers !! workers
    ensures FullInv(Init(k, producers, workers), producers, workers)
  {
    InitInv(k, producers, workers);
  }

  lemma HandsSplit(s: State, x: Task, producers: set<nat>, workers: set<nat>)
    requires s.pcs.Keys == producers + workers && producers !! workers
    ensures |Holding(s, x, s.pcs.Keys)| == |Holding(s, x, producers)| + |Holding(s, x, workers)|
  {
    assert Holding(s, x, s.pcs.Keys) == Holding(s, x, producers) + Holding(s, x, workers);
  }

  /** Whatever the numbers of producers and workers: each submission of a task is in exactly one place, a
      producer's hands, the ring, a worker's hands, the failed ones, or the started ones. So a task is
      started no more often than it was submitted. */
  lemma TaskInOnePlace(s: State, k: nat, producers: set<nat>, workers: set<nat>, x: Task)
    requires k >= 1 && producers !! workers && Reachable(s, k, producers, workers)
    ensures multiset(s.submitted)[x] == |Holding(s, x, producers)| + multiset(R.Contents(s.ring))[x]
              + |Holding(s, x, workers)| + multiset(s.failed)[x] + multiset(s.started)[x]
    ensures multiset(s.started)[x] <= multiset(s.submitted)[x]
  {
    InitInv(k, producers, workers);
    var s0 := Init(k, producers, workers);
    var ss, acts :| IsRun(ss, acts) && ss[0] == s0 && ss[|acts|] == s;
    assert Holding(s0, x, s0.pcs.Keys) == {};
    RunAccounted(ss, acts, x);
    ReachableInv(s, k, producers, workers);
    HandsSplit(s, x, producers, workers);
  }

  /** One producer's tasks enter the ring in the order of submission; only its last can be missing. */
  lemma EntersInOrder(s: State, k: nat, p: nat, workers: set<nat>)
    requires k >= 1 && p !in workers && Reachable(s, k, {p}, workers)
    ensures s.submitted == s.ring.items + s.failed + HandSeq(s, p)
  {
    InitFull(k, {p}, workers);
    var ss, acts :| IsRun(ss, acts) && ss[0] == Init(k, {p}, workers) && ss[|acts|] == s;
    RunSubmitted(ss, acts, p, workers);
  }

  /** One worker starts the tasks in the order in which they entered the ring, all it has taken but the one
      in its hands. */
  lemma StartsInRingOrder(s: State, k: nat, producers: set<nat>, w: nat)
    requires k >= 1 && w !in producers && Reachable(s, k, producers, {w})
    ensures s.ring.mem.dequeuePos <= |s.ring.items|
    ensures s.ring.items[..s.ring.mem.dequeuePos] == s.started + HandSeq(s, w)
  {
    InitFull(k, producers, {w});
    var ss, acts :| IsRun(ss, acts) && ss[0] == Init(k, producers, {w}) && ss[|acts|] == s;
    RunStarted(ss, acts, producers, w);
  }

  /** With one producer and one worker the tasks start in the order of submission, without gaps: what has
      started, what the worker has taken, what is in the ring and what the producer holds make up all that
      was submitted. */
  lemma StartsInOrder(s: State, k: nat, p: nat, w: nat)
    requires k >= 1 && p != w && Reachable(s, k, {p}, {w})
    ensures s.submitted == s.started + HandSeq(s, w) + R.Contents(s.ring) + HandSeq(s, p)
  {
    EntersInOrder(s, k, p, {w});
    StartsInRingOrder(s, k, {p}, w);
    NothingFailed(s, k, p, w);
    var d := s.ring.mem.dequeuePos;
    assert s.ring.items == s.ring.items[..d] + s.ring.items[d..];
  }

  lemma NothingFailed(s: State, k: nat, p: nat, w: nat)
    requires k >= 1 && p != w && Reachable(s, k, {p}, {w})
    ensures s.failed == []
  {
    InitFull(k, {p}, {w});
    var ss, acts :| IsRun(ss, acts) && ss[0] == Init(k, {p}, {w}) && ss[|acts|] == s;
    RunSubmitted(ss, acts, p, {w});
    OneWorkerAssertionHolds(s, k, {p}, {w}, p);
  }
}
