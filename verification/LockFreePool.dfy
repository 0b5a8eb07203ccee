/** The semaphore-wrapped thread pool of base/LockFreeThreadPool.h: producers and workers around
    the ring, any number of each, every interleaving, while the pool runs. */
module LockFreePool {
  import opened Wrappers
  import opened Slots
  import R = Ring
  import RI = RingInvariant
  import RT = RingTheorems

  type Task = nat

  /** Where a thread is in `run` (the first five) or in `runInThread`. */
  datatype Pc =
    | Outside
    | WantSlot(task: Task)
    | Enqueuing(task: Task)
    | Signal
    | Failed
    | WantItem
    | Dequeuing
    | FreeSlot(task: Task)
    | Execute(task: Task)

  /** `submitted`, `failed`, `started` and `lost` are history: the tasks given to `run`, those whose
      `enqueue` returned false, each leaving its thread in `Failed` (the assertion of line 87), those
      that a worker has run, and how many `dequeue`s returned false, each having consumed a token of
      `itemsSem_`. */
  datatype State = State(
    ring: R.State<Task>,
    pcs: map<nat, Pc>,
    slots: nat,
    items: nat,
    lost: nat,
    submitted: seq<Task>,
    failed: seq<Task>,
    started: seq<Task>)

  datatype Action =
    | Submit(t: nat, task: Task)
    | AcquireSlot(t: nat)
    | AcquireItem(t: nat)
    | Inside(t: nat, spurious: bool)
    | EndEnqueue(t: nat)
    | EndDequeue(t: nat)
    | ReleaseItem(t: nat)
    | ReleaseSlot(t: nat)
    | Start(t: nat)

  function Init(k: nat, producers: set<nat>, workers: set<nat>): State {
    State(R.Init<Task>(k, producers + workers),
          map t | t in producers + workers :: if t in producers then Outside else WantItem,
          Pow2(k), 0, 0, [], [], [])
  }

  /** Inside `enqueue` (or back from it) and inside `dequeue` (or back from it). */
  predicate InEnqueue(l: R.Local<Task>) {
    l.EnqLoadPos? || l.EnqLoadSeq? || l.EnqTest? || l.EnqWrite? || l.EnqPublish? || l.EnqDone? || l.EnqFull?
  }

  predicate InDequeue(l: R.Local<Task>) {
    l.DeqLoadPos? || l.DeqLoadSeq? || l.DeqTest? || l.DeqRead? || l.DeqRelease? || l.DeqDone? || l.DeqEmpty?
  }

  /** Before its claim and up to the write, `enqueue` has the task in its locals. */
  predicate CarriesItem(l: R.Local<Task>) { l.EnqLoadPos? || l.EnqLoadSeq? || l.EnqTest? || l.EnqWrite? }

  ghost predicate PcMatches(pc: Pc, l: R.Local<Task>) {
    if pc.Enqueuing? then InEnqueue(l) && (CarriesItem(l) ==> l.item == pc.task) else if pc.Dequeuing? then InDequeue(l) else l.Idle?
  }

  ghost predicate Shape(s: State) {
    s.ring.mem.WellSized() && s.ring.threads.Keys == s.pcs.Keys
    && forall t :: t in s.pcs ==> PcMatches(s.pcs[t], s.ring.threads[t])
  }

  predicate Enabled(s: State, a: Action)
    requires s.ring.threads.Keys == s.pcs.Keys
  {
    a.t in s.pcs &&
    var pc, l := s.pcs[a.t], s.ring.threads[a.t];
    match a
    case Submit(_, _) => pc.Outside?
    case AcquireSlot(_) => pc.WantSlot? && l.Idle? && s.slots > 0
    case AcquireItem(_) => pc.WantItem? && l.Idle? && s.items > 0
    case Inside(_, _) => l.Running()
    case EndEnqueue(_) => pc.Enqueuing? && (l.EnqDone? || l.EnqFull?)
    case EndDequeue(_) => pc.Dequeuing? && (l.DeqDone? || l.DeqEmpty?)
    case ReleaseItem(_) => pc.Signal?
    case ReleaseSlot(_) => pc.FreeSlot?
    case Start(_) => pc.Execute?
  }

  /** What the action does to the ring. */
  function RingApply(s: State, a: Action): (r: R.State<Task>)
    requires s.ring.mem.WellSized() && s.ring.threads.Keys == s.pcs.Keys && Enabled(s, a)
    ensures r.mem.WellSized() && r.mem.k == s.ring.mem.k && r.threads.Keys == s.ring.threads.Keys
  {
    match a
    case AcquireSlot(t) => R.Apply(s.ring, R.CallEnqueue(t, s.pcs[t].task))
    case AcquireItem(t) => R.Apply(s.ring, R.CallDequeue(t))
    case Inside(t, spurious) => R.Apply(s.ring, R.Step(t, spurious))
    case EndEnqueue(t) => R.Apply(s.ring, R.Return(t))
    case EndDequeue(t) => R.Apply(s.ring, R.Return(t))
    case _ => s.ring
  }

  function Apply(s: State, a: Action): State
    requires s.ring.mem.WellSized() && s.ring.threads.Keys == s.pcs.Keys && Enabled(s, a)
  {
    var t := a.t;
    var l := s.ring.threads[t];
    var s' := s.(ring := RingApply(s, a));
    match a
    case Submit(_, task) => s'.(pcs := s.pcs[t := WantSlot(task)], submitted := s.submitted + [task])
    case AcquireSlot(_) => s'.(slots := s.slots - 1, pcs := s.pcs[t := Enqueuing(s.pcs[t].task)])
    case AcquireItem(_) => s'.(items := s.items - 1, pcs := s.pcs[t := Dequeuing])
    case Inside(_, _) => s'
    case EndEnqueue(_) =>
      if l.EnqDone? then s'.(pcs := s.pcs[t := Signal])
      else s'.(pcs := s.pcs[t := Failed], failed := s.failed + [s.pcs[t].task])
    case EndDequeue(_) =>
      if l.DeqDone? && l.out.Some? then s'.(pcs := s.pcs[t := FreeSlot(l.out.value)])
      else if l.DeqDone? then s'.(pcs := s.pcs[t := FreeSlot(0)])
      else s'.(pcs := s.pcs[t := WantItem], lost := s.lost + 1)
    case ReleaseItem(_) => s'.(items := s.items + 1, pcs := s.pcs[t := Outside])
    case ReleaseSlot(_) => s'.(slots := s.slots + 1, pcs := s.pcs[t := Execute(s.pcs[t].task)])
    case Start(_) => s'.(started := s.started + [s.pcs[t].task], pcs := s.pcs[t := WantItem])
  }

  // ---------------------------------------------------------------- counting tokens

  /** What a thread holds: a slot token and no position; a position and no item token given yet;
      an item token and no position; a position whose slot is not given back yet. */
  datatype Kind = Neither | Holder | Signalling | Taker | Freeing

  function KindOf(pc: Pc, l: R.Local<Task>): Kind {
    if pc.Enqueuing? then
      if l.EnqWrite? || l.EnqPublish? || l.EnqDone? then Signalling else Holder
    else if pc.Signal? then Signalling
    else if pc.Dequeuing? then
      if l.DeqRead? || l.DeqRelease? || l.DeqDone? then Freeing else Taker
    else if pc.FreeSlot? then Freeing
    else Neither
  }

  ghost function Those(s: State, kind: Kind): set<nat>
    requires s.ring.threads.Keys == s.pcs.Keys
  {
    set t | t in s.pcs && KindOf(s.pcs[t], s.ring.threads[t]) == kind
  }

  /** When only thread `t` changes, the members of each kind change by `t`. */
  lemma OneMoves(s: State, s': State, t: nat, kind: Kind)
    requires s.ring.threads.Keys == s.pcs.Keys && s'.ring.threads.Keys == s'.pcs.Keys && t in s.pcs && t in s'.pcs
    requires s'.pcs == s.pcs[t := s'.pcs[t]] && s'.ring.threads == s.ring.threads[t := s'.ring.threads[t]]
    ensures |Those(s', kind)| == |Those(s, kind)|
      - (if KindOf(s.pcs[t], s.ring.threads[t]) == kind then 1 else 0)
      + (if KindOf(s'.pcs[t], s'.ring.threads[t]) == kind then 1 else 0)
  {
    assert Those(s, kind) - {t} == Those(s', kind) - {t};
    SizesDiffer(Those(s, kind), Those(s', kind), t);
  }

  lemma SizesDiffer(a: set<nat>, b: set<nat>, t: nat)
    requires a - {t} == b - {t}
    ensures |b| == |a| - (if t in a then 1 else 0) + (if t in b then 1 else 0)
  {
    if t in a { assert a == (a - {t}) + {t}; } else { assert a == a - {t}; }
    if t in b { assert b == (b - {t}) + {t}; } else { assert b == b - {t}; }
  }

  /** Every slot of the ring is accounted for: free, held as a token, lost by a failed
      `enqueue`, in the ring, or waiting to be given back. */
  ghost predicate SlotsAdd(s: State)
    requires s.ring.threads.Keys == s.pcs.Keys
  {
    s.slots + |Those(s, Holder)| + |s.failed| + (s.ring.mem.enqueuePos - s.ring.mem.dequeuePos) + |Those(s, Freeing)|
      == Pow2(s.ring.mem.k)
  }

  /** Every item in the ring is accounted for: announced, about to be taken by a worker with a
      token, about to be announced, or stranded by a `dequeue` that failed with a token. */
  ghost predicate ItemsAdd(s: State)
    requires s.ring.threads.Keys == s.pcs.Keys
  {
    s.items + |Those(s, Taker)| + |Those(s, Signalling)| + s.lost == s.ring.mem.enqueuePos - s.ring.mem.dequeuePos
  }

  ghost predicate Inv(s: State) { Shape(s) && R.Inv(s.ring) && SlotsAdd(s) && ItemsAdd(s) }

  lemma InitInv(k: nat, producers: set<nat>, workers: set<nat>)
    requires k >= 1
    ensures Inv(Init(k, producers, workers))
  {
    RI.InitInv<Task>(k, producers + workers);
    var s := Init(k, producers, workers);
    assert Those(s, Holder) == {} && Those(s, Freeing) == {} && Those(s, Taker) == {} && Those(s, Signalling) == {};
  }

  // ---------------------------------------------------------------- one step

  /** What a step inside the ring means for the pool. */
  ghost predicate RingStepEffect(r: R.State<Task>, r': R.State<Task>, t: nat)
    requires t in r.threads && t in r'.threads
  {
    var l, l' := r.threads[t], r'.threads[t];
    && r'.threads == r.threads[t := l'] && InEnqueue(l) == InEnqueue(l') && InDequeue(l) == InDequeue(l')
    && r'.mem.enqueuePos == r.mem.enqueuePos + (if l.EnqTest? && l'.EnqWrite? then 1 else 0)
    && r'.mem.dequeuePos == r.mem.dequeuePos + (if l.DeqTest? && l'.DeqRead? then 1 else 0)
    && ((l.EnqTest? && l'.EnqWrite?) || KindOf(Enqueuing(0), l) == KindOf(Enqueuing(0), l'))
    && (CarriesItem(l') ==> CarriesItem(l) && l'.item == l.item)
    && ((l.DeqTest? && l'.DeqRead?) || KindOf(Dequeuing, l) == KindOf(Dequeuing, l'))
  }

  lemma EnqueueTestEffect(r: R.State<Task>, t: nat, spurious: bool)
    requires r.mem.WellSized() && t in r.threads && r.threads[t].EnqTest?
    ensures RingStepEffect(r, R.Apply(r, R.Step(t, spurious)), t)
  {
  }

  lemma DequeueTestEffect(r: R.State<Task>, t: nat, spurious: bool)
    requires r.mem.WellSized() && t in r.threads && r.threads[t].DeqTest?
    ensures RingStepEffect(r, R.Apply(r, R.Step(t, spurious)), t)
  {
  }

  lemma EnqueueStepEffect(r: R.State<Task>, t: nat, spurious: bool)
    requires r.mem.WellSized() && R.Enabled(r, R.Step(t, spurious)) && InEnqueue(r.threads[t])
    ensures RingStepEffect(r, R.Apply(r, R.Step(t, spurious)), t)
  {
    if r.threads[t].EnqTest? {
      EnqueueTestEffect(r, t, spurious);
    }
  }

  lemma DequeueStepEffect(r: R.State<Task>, t: nat, spurious: bool)
    requires r.mem.WellSized() && R.Enabled(r, R.Step(t, spurious)) && InDequeue(r.threads[t])
    ensures RingStepEffect(r, R.Apply(r, R.Step(t, spurious)), t)
  {
    if r.threads[t].DeqTest? {
      DequeueTestEffect(r, t, spurious);
    }
  }

  lemma InsideEffect(s: State, t: nat, spurious: bool)
    requires Shape(s) && Enabled(s, Inside(t, spurious))
    ensures var s' := Apply(s, Inside(t, spurious));
      RingStepEffect(s.ring, s'.ring, t) && s' == s.(ring := s'.ring)
  {
    assert PcMatches(s.pcs[t], s.ring.threads[t]);
    if InEnqueue(s.ring.threads[t]) {
      EnqueueStepEffect(s.ring, t, spurious);
    } else {
      DequeueStepEffect(s.ring, t, spurious);
    }
  }

  lemma InsideAdds(s: State, s': State, t: nat)
    requires Shape(s) && SlotsAdd(s) && ItemsAdd(s) && t in s.pcs
    requires s'.ring.threads.Keys == s.pcs.Keys && RingStepEffect(s.ring, s'.ring, t) && s' == s.(ring := s'.ring)
    requires s'.ring.mem.k == s.ring.mem.k
    ensures Shape'(s') && SlotsAdd(s') && ItemsAdd(s')
  {
    assert PcMatches(s.pcs[t], s.ring.threads[t]);
    OneMoves(s, s', t, Holder);
    OneMoves(s, s', t, Signalling);
    OneMoves(s, s', t, Taker);
    OneMoves(s, s', t, Freeing);
  }

  ghost predicate Shape'(s: State)
    requires s.ring.threads.Keys == s.pcs.Keys
  {
    forall t :: t in s.pcs ==> PcMatches(s.pcs[t], s.ring.threads[t])
  }

  lemma InsideInv(s: State, t: nat, spurious: bool)
    requires Inv(s) && Enabled(s, Inside(t, spurious))
    ensures Inv(Apply(s, Inside(t, spurious)))
  {
    InsideEffect(s, t, spurious);
    InsideAdds(s, Apply(s, Inside(t, spurious)), t);
    RI.StepInv(s.ring, R.Step(t, spurious));
  }

  /** The ring's share of entering and leaving it. */
  lemma CallRing(r: R.State<Task>, a: R.Action<Task>)
    requires R.Inv(r) && R.Enabled(r, a) && !a.Step?
    ensures R.Inv(R.Apply(r, a)) && R.Apply(r, a) == r.(threads := R.Apply(r, a).threads)
    ensures R.Apply(r, a).threads == r.threads[a.t := if a.CallEnqueue? then R.EnqLoadPos(a.item)
                                                      else if a.CallDequeue? then R.DeqLoadPos else R.Idle]
  {
    RI.StepInv(r, a);
  }

  /** An action outside the ring changes its own thread only. */
  ghost predicate OwnThreadOnly(s: State, s': State, t: nat)
    requires t in s.pcs && t in s.ring.threads
  {
    && t in s'.pcs && t in s'.ring.threads && s'.pcs == s.pcs[t := s'.pcs[t]]
    && s'.ring == s.ring.(threads := s.ring.threads[t := s'.ring.threads[t]])
  }

  lemma OuterRing(s: State, a: Action)
    requires R.Inv(s.ring) && Shape(s) && Enabled(s, a) && !a.Inside?
    ensures R.Inv(RingApply(s, a)) && OwnThreadOnly(s, Apply(s, a), a.t)
  {
    assert PcMatches(s.pcs[a.t], s.ring.threads[a.t]);
    if a.AcquireSlot? {
      CallRing(s.ring, R.CallEnqueue(a.t, s.pcs[a.t].task));
    } else if a.AcquireItem? {
      CallRing(s.ring, R.CallDequeue(a.t));
    } else if a.EndEnqueue? || a.EndDequeue? {
      CallRing(s.ring, R.Return(a.t));
    }
    OuterOwn(s, a);
  }

  lemma OuterOwn(s: State, a: Action)
    requires Shape(s) && Enabled(s, a) && !a.Inside?
    requires RingApply(s, a) == s.ring || RingApply(s, a) ==
               s.ring.(threads := s.ring.threads[a.t := RingApply(s, a).threads[a.t]])
    ensures OwnThreadOnly(s, Apply(s, a), a.t)
  {
    assert s.ring.threads == s.ring.threads[a.t := s.ring.threads[a.t]];
  }

  lemma OuterMatches(s: State, a: Action)
    requires Shape(s) && Enabled(s, a) && !a.Inside? && OwnThreadOnly(s, Apply(s, a), a.t)
    ensures PcMatches(Apply(s, a).pcs[a.t], Apply(s, a).ring.threads[a.t])
  {
    assert PcMatches(s.pcs[a.t], s.ring.threads[a.t]);
  }

  /** How the tokens of one thread change with the counters. */
  lemma OuterTokens(s: State, a: Action)
    requires Shape(s) && Enabled(s, a) && !a.Inside? && OwnThreadOnly(s, Apply(s, a), a.t)
    ensures var s', t := Apply(s, a), a.t;
      var before, after := KindOf(s.pcs[t], s.ring.threads[t]), KindOf(s'.pcs[t], s'.ring.threads[t]);
      && s'.slots + |s'.failed| + (if after == Holder then 1 else 0) + (if after == Freeing then 1 else 0)
         == s.slots + |s.failed| + (if before == Holder then 1 else 0) + (if before == Freeing then 1 else 0)
      && s'.items + s'.lost + (if after == Taker then 1 else 0) + (if after == Signalling then 1 else 0)
         == s.items + s.lost + (if before == Taker then 1 else 0) + (if before == Signalling then 1 else 0)
  {
    assert PcMatches(s.pcs[a.t], s.ring.threads[a.t]);
  }

  lemma OuterAdds(s: State, a: Action)
    requires Shape(s) && SlotsAdd(s) && ItemsAdd(s) && Enabled(s, a) && !a.Inside?
    requires OwnThreadOnly(s, Apply(s, a), a.t)
    ensures SlotsAdd(Apply(s, a)) && ItemsAdd(Apply(s, a))
  {
    var s' := Apply(s, a);
    OuterTokens(s, a);
    OneMoves(s, s', a.t, Holder);
    OneMoves(s, s', a.t, Signalling);
    OneMoves(s, s', a.t, Taker);
    OneMoves(s, s', a.t, Freeing);
  }

  lemma StepInv(s: State, a: Action)
    requires Inv(s) && Enabled(s, a)
    ensures Inv(Apply(s, a))
  {
    if a.Inside? {
      InsideInv(s, a.t, a.spurious);
    } else {
      OuterRing(s, a);
      OuterMatches(s, a);
      OuterAdds(s, a);
      OuterInv(s, Apply(s, a), a.t);
    }
  }

  lemma OuterInv(s: State, s': State, t: nat)
    requires Inv(s) && t in s.pcs && OwnThreadOnly(s, s', t) && R.Inv(s'.ring)
    requires PcMatches(s'.pcs[t], s'.ring.threads[t]) && SlotsAdd(s') && ItemsAdd(s')
    ensures Inv(s')
  {
  }
}
