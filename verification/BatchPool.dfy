/** The batching thread pool of base/ThreadPool.cc in FIXED mode while it runs: one queue under a lock,
    workers that take batches of adaptive size into a private cache, and two condition variables. */
module BatchPool {
  import opened Wrappers

  const MIN_BATCH: nat := 4
  const MAX_BATCH: nat := 64
  const MAX_QUEUE: nat := 10000

  datatype Cache = Cache(tasks: seq<nat>, index: nat) {
    function Unread(): seq<nat> { if index <= |tasks| then tasks[index..] else [] }
  }

  /** Tasks are numbered in the order in which `run` accepts them. `parked` workers wait on `notEmpty_`
      and have not been notified, `woken` ones have; likewise `waiting` and `roused` producers on
      `notFull_`. `started` logs the tasks started. */
  datatype State = State(
    caches: map<nat, Cache>,
    queue: seq<nat>,
    batchSize: nat,
    accepted: nat,
    parked: set<nat>,
    woken: set<nat>,
    waiting: set<nat>,
    roused: set<nat>,
    started: seq<nat>)

  /** Each action is one critical section, or one task started; `wake` is the worker `notify_one` picks. */
  datatype Action =
    | Run(p: nat, wake: Option<nat>)
    | Fill(w: nat, wake: Option<nat>)
    | Start(w: nat)
    | SpuriousWorker(w: nat)
    | SpuriousProducer(p: nat)

  function Init(workers: set<nat>): State {
    State(map w | w in workers :: Cache([], 0), [], MIN_BATCH, 0, {}, {}, {}, {}, [])
  }

  /** `notify_one` wakes one of the workers parked, if there is one. */
  predicate Picks(parked: set<nat>, wake: Option<nat>) {
    if parked == {} then wake.None? else wake.Some? && wake.value in parked
  }

  function Picked(wake: Option<nat>): set<nat> { if wake.Some? then {wake.value} else {} }

  predicate Pushes(s: State) { s.caches != map[] && |s.queue| < MAX_QUEUE }

  predicate Enabled(s: State, a: Action) {
    match a
    case Run(p, wake) => p !in s.waiting && (if Pushes(s) then Picks(s.parked, wake) else wake.None?)
    case Fill(w, wake) =>
      w in s.caches && w !in s.parked && s.caches[w].Unread() == [] &&
      (if Leftover(s) == [] then wake.None? else Picks(s.parked, wake))
    case Start(w) => w in s.caches && s.caches[w].Unread() != []
    case SpuriousWorker(w) => w in s.parked
    case SpuriousProducer(p) => p in s.waiting
  }

  /** Lines 115-120. */
  function Adapted(batchSize: nat, queued: nat): nat {
    if queued > batchSize * 2 then (if batchSize * 2 < MAX_BATCH then batchSize * 2 else MAX_BATCH)
    else if queued < batchSize / 2 then (if batchSize / 2 > MIN_BATCH then batchSize / 2 else MIN_BATCH)
    else batchSize
  }

  /** Line 122. */
  function Taken(s: State): (n: nat)
    ensures n <= |s.queue|
  {
    var b := Adapted(s.batchSize, |s.queue|);
    if b < |s.queue| then b else |s.queue|
  }

  function Leftover(s: State): seq<nat> { s.queue[Taken(s)..] }

  /** `run`, lines 65-82: without workers a task runs in its caller. */
  function Accepted(s: State, p: nat, wake: Option<nat>): State {
    if s.caches == map[] then s.(accepted := s.accepted + 1, started := s.started + [s.accepted], roused := s.roused - {p})
    else if |s.queue| < MAX_QUEUE then
      s.(queue := s.queue + [s.accepted], accepted := s.accepted + 1, roused := s.roused - {p},
         parked := s.parked - Picked(wake), woken := s.woken + Picked(wake))
    else s.(roused := s.roused - {p}, waiting := s.waiting + {p})
  }

  /** `fillLocalCache`, lines 88-143. */
  function Filled(s: State, w: nat, wake: Option<nat>): State {
    if s.queue == [] then s.(woken := s.woken - {w}, parked := s.parked + {w})
    else
      var s1 := s.(batchSize := Adapted(s.batchSize, |s.queue|), caches := s.caches[w := Cache(s.queue[..Taken(s)], 0)],
                   queue := Leftover(s), parked := s.parked - Picked(wake), woken := s.woken - {w} + Picked(wake));
      if |Leftover(s)| < MAX_QUEUE * 3 / 4 then s1.(waiting := {}, roused := s.roused + s.waiting) else s1
  }

  /** Lines 185-188. */
  function Begun(s: State, w: nat): State
    requires Enabled(s, Start(w))
  {
    var c := s.caches[w];
    s.(started := s.started + [c.Unread()[0]], caches := s.caches[w := Cache(c.tasks, c.index + 1)])
  }

  function Apply(s: State, a: Action): State
    requires Enabled(s, a)
  {
    match a
    case Run(p, wake) => Accepted(s, p, wake)
    case Fill(w, wake) => Filled(s, w, wake)
    case Start(w) => Begun(s, w)
    case SpuriousWorker(w) => s.(parked := s.parked - {w}, woken := s.woken + {w})
    case SpuriousProducer(p) => s.(waiting := s.waiting - {p}, roused := s.roused + {p})
  }

  // ---------------------------------------------------------------- invariant

  /** The number of tasks that have left the queue. */
  function Left(s: State): int { s.accepted - |s.queue| }

  ghost predicate SizesOk(s: State) {
    && s.batchSize in {4, 8, 16, 32, 64} && |s.queue| <= MAX_QUEUE
    && s.parked <= s.caches.Keys && s.woken <= s.caches.Keys && s.parked !! s.woken && s.waiting !! s.roused
    && (s.caches == map[] ==> s.queue == [])
    && (forall w :: w in s.parked || w in s.woken ==> s.caches[w].Unread() == [])
  }

  /** The baton: a parked worker that could work means that another one has been told to. */
  ghost predicate WakeOk(s: State) {
    && (s.queue != [] && s.parked != {} ==> s.woken != {})
    && (s.waiting != {} ==> |s.queue| >= 7500)
  }

  /** The queue holds the tasks accepted last, in order. */
  ghost predicate QueueOk(s: State) {
    Left(s) >= 0 && forall i :: 0 <= i < |s.queue| ==> s.queue[i] == Left(s) + i
  }

  ghost predicate InCache(s: State, w: nat, t: nat) { w in s.caches && t in s.caches[w].Unread() }

  ghost predicate CachesOk(s: State) {
    && (forall w, t: nat :: InCache(s, w, t) ==> t < Left(s) && t !in s.started)
    && (forall v, w, t: nat :: InCache(s, v, t) && InCache(s, w, t) ==> v == w)
    && (forall w, i, j :: w in s.caches && 0 <= i < j < |s.caches[w].Unread()| ==> s.caches[w].Unread()[i] < s.caches[w].Unread()[j])
  }

  ghost predicate StartedOk(s: State) {
    && (forall t :: t in s.started ==> t < Left(s))
    && (forall i, j :: 0 <= i < j < |s.started| ==> s.started[i] != s.started[j])
    && (forall t: nat :: t < Left(s) ==> t in s.started || exists w :: InCache(s, w, t))
  }

  ghost predicate Inv(s: State) {
    SizesOk(s) && WakeOk(s) && QueueOk(s) && CachesOk(s) && StartedOk(s)
  }

  lemma InitInv(workers: set<nat>)
    ensures Inv(Init(workers))
  {
  }

  // ---------------------------------------------------------------- preservation

  lemma RunSizes(s: State, p: nat, wake: Option<nat>)
    requires Inv(s) && Enabled(s, Run(p, wake))
    ensures SizesOk(Accepted(s, p, wake)) && WakeOk(Accepted(s, p, wake)) && QueueOk(Accepted(s, p, wake))
  {
  }

  lemma RunTasks(s: State, p: nat, wake: Option<nat>)
    requires Inv(s) && Enabled(s, Run(p, wake))
    ensures CachesOk(Accepted(s, p, wake)) && StartedOk(Accepted(s, p, wake))
  {
    var s' := Accepted(s, p, wake);
    assert s.accepted !in s.started;
    assert forall w, t: nat :: InCache(s', w, t) <==> InCache(s, w, t);
    forall t: nat | t < Left(s') ensures t in s'.started || exists w :: InCache(s', w, t) {
      if t < Left(s) && t !in s.started {
        var w :| InCache(s, w, t);
        assert InCache(s', w, t);
      }
    }
  }

  lemma AdaptedOk(b: nat, queued: nat)
    requires b in {4, 8, 16, 32, 64}
    ensures Adapted(b, queued) in {4, 8, 16, 32, 64}
    ensures Adapted(b, queued) > b <==> queued > 2 * b && b < MAX_BATCH
    ensures Adapted(b, queued) < b <==> 2 * queued < b && b > MIN_BATCH
    ensures Adapted(b, queued) > b ==> Adapted(b, queued) == 2 * b
    ensures Adapted(b, queued) < b ==> 2 * Adapted(b, queued) == b
  {
  }

  lemma FillSizes(s: State, w: nat, wake: Option<nat>)
    requires SizesOk(s) && WakeOk(s) && Enabled(s, Fill(w, wake))
    ensures SizesOk(Filled(s, w, wake)) && WakeOk(Filled(s, w, wake))
  {
    AdaptedOk(s.batchSize, |s.queue|);
    if s.queue != [] {
      FillSets(s, w, wake);
    }
  }

  lemma FillSets(s: State, w: nat, wake: Option<nat>)
    requires SizesOk(s) && WakeOk(s) && Enabled(s, Fill(w, wake)) && s.queue != []
    requires Adapted(s.batchSize, |s.queue|) in {4, 8, 16, 32, 64}
    ensures SizesOk(Filled(s, w, wake)) && WakeOk(Filled(s, w, wake))
  {
    var s' := Filled(s, w, wake);
    assert s'.parked == s.parked - Picked(wake) && s'.woken == s.woken - {w} + Picked(wake);
    assert s'.caches.Keys == s.caches.Keys;
    forall v | v in s'.parked || v in s'.woken ensures s'.caches[v].Unread() == [] {
      assert v != w;
    }
  }

  lemma FillQueue(s: State, w: nat, wake: Option<nat>)
    requires QueueOk(s) && Enabled(s, Fill(w, wake)) && s.queue != []
    ensures QueueOk(Filled(s, w, wake)) && Left(Filled(s, w, wake)) == Left(s) + Taken(s)
  {
  }

  lemma FillTasks(s: State, w: nat, wake: Option<nat>)
    requires Inv(s) && Enabled(s, Fill(w, wake)) && s.queue != []
    ensures CachesOk(Filled(s, w, wake)) && StartedOk(Filled(s, w, wake))
  {
    var s' := Filled(s, w, wake);
    FillQueue(s, w, wake);
    BatchCached(s, s', w, s.queue[..Taken(s)]);
    BatchStarted(s, s', w, s.queue[..Taken(s)]);
  }

  /** Worker `w`, whose cache was used up, now holds the next tasks `batch`. */
  ghost predicate TookBatch(s: State, s': State, w: nat, batch: seq<nat>) {
    && w in s.caches && s.caches[w].Unread() == [] && s'.caches == s.caches[w := Cache(batch, 0)]
    && s'.started == s.started && Left(s') == Left(s) + |batch| && Left(s) >= 0
    && forall i :: 0 <= i < |batch| ==> batch[i] == Left(s) + i
  }

  lemma BatchWhere(s: State, s': State, w: nat, batch: seq<nat>)
    requires TookBatch(s, s', w, batch)
    ensures s'.caches[w].Unread() == batch
    ensures forall v, t: nat :: InCache(s', v, t) <==> InCache(s, v, t) || (v == w && t in batch)
    ensures forall t: nat :: t in batch <==> Left(s) <= t < Left(s')
  {
    assert batch[0..] == batch;
    forall t: nat | Left(s) <= t < Left(s') ensures t in batch {
      assert batch[t - Left(s)] == t;
    }
  }

  lemma BatchCached(s: State, s': State, w: nat, batch: seq<nat>)
    requires TookBatch(s, s', w, batch) && CachesOk(s) && StartedOk(s)
    ensures CachesOk(s')
  {
    BatchWhere(s, s', w, batch);
  }

  lemma BatchStarted(s: State, s': State, w: nat, batch: seq<nat>)
    requires TookBatch(s, s', w, batch) && StartedOk(s)
    ensures StartedOk(s')
  {
    BatchWhere(s, s', w, batch);
    forall t: nat | t < Left(s') ensures t in s'.started || exists v :: InCache(s', v, t) {
      if t >= Left(s) {
        assert InCache(s', w, t);
      } else if t !in s.started {
        var v :| InCache(s, v, t);
        assert InCache(s', v, t);
      }
    }
  }

  lemma BegunTasks(s: State, w: nat)
    requires CachesOk(s) && Enabled(s, Start(w))
    ensures forall v, t: nat :: InCache(Begun(s, w), v, t) <==> InCache(s, v, t) && t != s.caches[w].Unread()[0]
    ensures CachesOk(Begun(s, w))
  {
    var s', u := Begun(s, w), s.caches[w].Unread();
    assert s'.caches[w].Unread() == u[1..] && u == [u[0]] + u[1..];
    assert InCache(s, w, u[0]);
    forall v, t: nat ensures InCache(s', v, t) <==> InCache(s, v, t) && t != u[0] {
      if v == w && t in u[1..] {
        assert forall j :: 1 <= j < |u| ==> u[0] < u[j];
      }
    }
  }

  lemma BegunStarted(s: State, w: nat)
    requires StartedOk(s) && CachesOk(s) && Enabled(s, Start(w))
    requires forall v, t: nat :: InCache(Begun(s, w), v, t) <==> InCache(s, v, t) && t != s.caches[w].Unread()[0]
    ensures StartedOk(Begun(s, w))
  {
    var s', t0 := Begun(s, w), s.caches[w].Unread()[0];
    assert InCache(s, w, t0);
    forall t: nat | t < Left(s') ensures t in s'.started || exists v :: InCache(s', v, t) {
      if t !in s.started && t != t0 {
        var v :| InCache(s, v, t);
        assert InCache(s', v, t);
      }
    }
  }

  lemma BegunInv(s: State, w: nat)
    requires Inv(s) && Enabled(s, Start(w))
    ensures Inv(Begun(s, w))
  {
    BegunTasks(s, w);
    BegunStarted(s, w);
  }

  /** Steps that leave the caches, the queue and the log alone. */
  lemma SameTasks(s: State, s': State)
    requires QueueOk(s) && CachesOk(s) && StartedOk(s)
    requires s'.caches == s.caches && s'.queue == s.queue && s'.accepted == s.accepted && s'.started == s.started
    ensures QueueOk(s') && CachesOk(s') && StartedOk(s')
  {
    assert forall w, t: nat :: InCache(s', w, t) <==> InCache(s, w, t);
    forall t: nat | t < Left(s') ensures t in s'.started || exists w :: InCache(s', w, t) {
      if t !in s.started {
        var w :| InCache(s, w, t);
        assert InCache(s', w, t);
      }
    }
  }

  lemma StepInv(s: State, a: Action)
    requires Inv(s) && Enabled(s, a)
    ensures Inv(Apply(s, a))
  {
    match a
    case Run(p, wake) => RunSizes(s, p, wake); RunTasks(s, p, wake);
    case Fill(w, wake) =>
      FillSizes(s, w, wake);
      if s.queue == [] {
        SameTasks(s, Apply(s, a));
      } else {
        FillQueue(s, w, wake);
        FillTasks(s, w, wake);
      }
    case Start(w) => BegunInv(s, w);
    case SpuriousWorker(_) => SameTasks(s, Apply(s, a));
    case SpuriousProducer(_) => SameTasks(s, Apply(s, a));
  }

  // ---------------------------------------------------------------- runs

  ghost predicate StepOk(ss: seq<State>, acts: seq<Action>, i: nat)
    requires |ss| == |acts| + 1 && i < |acts|
  {
    Enabled(ss[i], acts[i]) && ss[i + 1] == Apply(ss[i], acts[i])
  }

  ghost predicate IsRun(ss: seq<State>, acts: seq<Action>, workers: set<nat>) {
    && |ss| == |acts| + 1 && ss[0] == Init(workers)
    && forall i {:trigger StepOk(ss, acts, i)} :: 0 <= i < |acts| ==> StepOk(ss, acts, i)
  }

  lemma {:induction false} RunInv(ss: seq<State>, acts: seq<Action>, workers: set<nat>, n: nat)
    requires IsRun(ss, acts, workers) && n <= |acts|
    ensures Inv(ss[n])
  {
    if n == 0 {
      InitInv(workers);
    } else {
      RunInv(ss, acts, workers, n - 1);
      assert StepOk(ss, acts, n - 1);
      StepInv(ss[n - 1], acts[n - 1]);
    }
  }

  ghost predicate Reachable(s: State) {
    exists ss, acts, workers :: IsRun(ss, acts, workers) && ss[|acts|] == s
  }

  lemma ReachableInv(s: State)
    requires Reachable(s)
    ensures Inv(s)
  {
    var ss, acts, workers :| IsRun(ss, acts, workers) && ss[|acts|] == s;
    RunInv(ss, acts, workers, |acts|);
  }

  lemma ReachableStep(s: State, a: Action)
    requires Reachable(s) && Enabled(s, a)
    ensures Reachable(Apply(s, a))
  {
    var ss, acts, workers :| IsRun(ss, acts, workers) && ss[|acts|] == s;
    var ss', acts' := ss + [Apply(s, a)], acts + [a];
    forall i | 0 <= i < |acts'| ensures StepOk(ss', acts', i) {
      if i < |acts| { assert StepOk(ss, acts, i); }
    }
    assert IsRun(ss', acts', workers);
  }

  lemma InitReachable(workers: set<nat>)
    ensures Reachable(Init(workers))
  {
    assert IsRun([Init(workers)], [], workers);
  }

  /** Conservation: every accepted task is in the queue, in the unread part of one worker's cache, or
      has been started; in one of these only, in one cache only, and started once. */
  lemma TaskInOnePlace(s: State, t: nat)
    requires Reachable(s) && t < s.accepted
    ensures (t in s.queue && t !in s.started && (forall w :: !InCache(s, w, t)))
            || (t !in s.queue && t !in s.started && exists w :: InCache(s, w, t) && forall v :: InCache(s, v, t) ==> v == w)
            || (t !in s.queue && t in s.started && (forall w :: !InCache(s, w, t)))
    ensures multiset(s.started)[t] <= 1
  {
    ReachableInv(s);
    if t >= Left(s) {
      assert s.queue[t - Left(s)] == t;
    } else if t !in s.started {
      var w :| InCache(s, w, t);
      assert forall v :: InCache(s, v, t) ==> v == w;
    }
    CountNoDup(s.started, t);
  }

  lemma {:induction false} CountNoDup(q: seq<nat>, t: nat)
    requires forall i, j :: 0 <= i < j < |q| ==> q[i] != q[j]
    ensures multiset(q)[t] <= 1
  {
    if q != [] {
      var r := q[..|q| - 1];
      assert q == r + [q[|q| - 1]];
      CountNoDup(r, t);
      if q[|q| - 1] == t { assert t !in r; }
    }
  }

  /** Batches are first in, first out: a worker that finds tasks takes the oldest ones, at least one and
      at most the batch size, which is one of 4, 8, 16, 32, 64; so it never takes the answer 0 that
      would make it leave. */
  lemma BatchIsOldest(s: State, w: nat, wake: Option<nat>)
    requires Reachable(s) && Enabled(s, Fill(w, wake)) && s.queue != []
    ensures var s' := Apply(s, Fill(w, wake)); var batch := s'.caches[w].tasks;
            && batch + s'.queue == s.queue && s'.caches[w].index == 0
            && 1 <= |batch| <= s'.batchSize && s'.batchSize in {4, 8, 16, 32, 64}
            && (forall i :: 0 <= i < |batch| ==> batch[i] == Left(s) + i)
            && (|batch| < s'.batchSize ==> s'.queue == [])
  {
    ReachableInv(s);
    AdaptedOk(s.batchSize, |s.queue|);
    assert s.queue == s.queue[..Taken(s)] + s.queue[Taken(s)..];
  }

  /** `run` takes the task on if and only if the queue is below its limit or the pool has no workers, and
      otherwise its producer waits; a batch rouses the waiting producers if and only if it leaves fewer than
      three quarters of the limit. */
  lemma BackPressure(s: State, a: Action)
    requires Reachable(s) && Enabled(s, a)
    ensures a.Run? ==> (Apply(s, a).accepted == s.accepted + 1 <==> |s.queue| < 10000 || s.caches == map[])
    ensures a.Run? ==> (a.p in Apply(s, a).waiting <==> Apply(s, a).accepted == s.accepted)
    ensures a.Fill? && s.waiting != {} ==> (Apply(s, a).waiting == {} <==> |Apply(s, a).queue| < 7500)
    ensures a.Fill? && Apply(s, a).waiting == {} ==> s.waiting <= Apply(s, a).roused
    ensures a.Fill? && Apply(s, a).waiting != {} ==> Apply(s, a).waiting == s.waiting
  {
    ReachableInv(s);
    BatchNotEmpty(s);
  }

  /** Each queued task, and each batch that leaves tasks behind, notifies exactly one parked worker if there is
      one; a worker that finds no task parks, and no other step parks a worker. */
  lemma NotifiesOne(s: State, a: Action)
    requires Reachable(s) && Enabled(s, a)
    ensures var s' := Apply(s, a);
            var notifies := (a.Run? && s'.queue != s.queue) || (a.Fill? && s.queue != [] && s'.queue != []);
            && (notifies && s.parked != {} ==>
                  exists v :: v in s.parked && s'.parked == s.parked - {v} && v in s'.woken)
            && (a.Fill? && s.queue == [] ==> s'.parked == s.parked + {a.w} && a.w !in s'.woken)
            && (!(a.Fill? && s.queue == []) ==> s'.parked <= s.parked)
            && (!notifies && !a.Fill? && !a.SpuriousWorker? ==> s'.parked == s.parked && s'.woken == s.woken)
  {
    ReachableInv(s);
    BatchNotEmpty(s);
    if (a.Run? || a.Fill?) && a.wake.Some? {
      assert Picked(a.wake) == {a.wake.value};
      assert Apply(s, a).parked == s.parked - {a.wake.value} || s.queue == [];
    }
  }

  /** The numbers of the first `n` tasks. */
  ghost function Upto(n: nat): seq<nat> { seq(n, (i: nat) => i) }

  /** What has started, what worker `w` holds and what is queued, one after the other, are the tasks in the
      order of acceptance. */
  ghost predicate InOrder(s: State, w: nat) {
    s.caches.Keys == {w} && s.started + s.caches[w].Unread() + s.queue == Upto(s.accepted)
  }

  lemma StepInOrder(s: State, a: Action, w: nat)
    requires Enabled(s, a) && InOrder(s, w)
    ensures InOrder(Apply(s, a), w)
  {
    if a.Run? {
      assert s.caches != map[];
      assert Upto(s.accepted + 1) == Upto(s.accepted) + [s.accepted];
    } else if a.Fill? {
      FillInOrder(s, w, a.wake);
    } else if a.Start? {
      StartInOrder(s, w);
    }
  }

  lemma FillInOrder(s: State, w: nat, wake: Option<nat>)
    requires Enabled(s, Fill(w, wake)) && InOrder(s, w)
    ensures InOrder(Filled(s, w, wake), w)
  {
    var s' := Filled(s, w, wake);
    if s.queue != [] {
      assert s'.caches[w].Unread() == s.queue[..Taken(s)];
      assert s.queue == s.queue[..Taken(s)] + s.queue[Taken(s)..];
    }
  }

  lemma StartInOrder(s: State, w: nat)
    requires Enabled(s, Start(w)) && InOrder(s, w)
    ensures InOrder(Begun(s, w), w)
  {
    var u := s.caches[w].Unread();
    assert u == [u[0]] + u[1..] && Begun(s, w).caches[w].Unread() == u[1..];
  }

  /** With one worker the tasks start in the order in which `run` took them on, without gaps. */
  lemma {:induction false} OneWorkerStartsInOrder(ss: seq<State>, acts: seq<Action>, w: nat, n: nat)
    requires IsRun(ss, acts, {w}) && n <= |acts|
    ensures w in ss[n].caches && ss[n].started + ss[n].caches[w].Unread() + ss[n].queue == Upto(ss[n].accepted)
    ensures InOrder(ss[n], w)
  {
    if n == 0 {
      assert Init({w}).caches == map[w := Cache([], 0)];
    } else {
      OneWorkerStartsInOrder(ss, acts, w, n - 1);
      assert StepOk(ss, acts, n - 1);
      StepInOrder(ss[n - 1], acts[n - 1], w);
    }
  }

  /** No lost wakeup: while a worker is parked un-notified and tasks wait, another has been notified;
      and an un-notified producer waits only for a queue of at least 7500. */
  lemma NoLostWakeup(s: State)
    requires Reachable(s)
    ensures s.queue != [] && s.parked != {} ==> exists w :: w in s.woken && w !in s.parked
    ensures s.waiting != {} ==> 7500 <= |s.queue| <= MAX_QUEUE
  {
    ReachableInv(s);
  }

  /** So the pool cannot stall: while a task is queued, some worker can take or start a task. */
  lemma NoStall(s: State)
    requires Reachable(s) && s.queue != []
    ensures exists w :: w in s.caches && w !in s.parked
                        && (Enabled(s, Start(w)) || exists wake :: Enabled(s, Fill(w, wake)))
  {
    ReachableInv(s);
    var w: nat;
    if s.parked == {} {
      assert s.caches.Keys != {};
      w :| w in s.caches;
    } else {
      w :| w in s.woken;
    }
    if s.caches[w].Unread() == [] {
      if Leftover(s) == [] || s.parked == {} {
        assert Enabled(s, Fill(w, None));
      } else {
        var v :| v in s.parked;
        assert Enabled(s, Fill(w, Some(v)));
      }
    } else {
      assert Enabled(s, Start(w));
    }
  }

  lemma BatchNotEmpty(s: State)
    requires Reachable(s)
    ensures s.queue != [] ==> Taken(s) > 0
  {
    ReachableInv(s);
    AdaptedOk(s.batchSize, |s.queue|);
  }

  // ---------------------------------------------------------------- the object

  /** The shared part of ThreadPool: the queue, the batch size, the waiters of both condition
      variables, and each worker's cache. */
  class ThreadPool {
    var caches: map<nat, Cache>
    var queue: seq<nat>
    var batchSize: nat
    ghost var accepted: nat
    var parked: set<nat>
    var woken: set<nat>
    var waiting: set<nat>
    var roused: set<nat>
    ghost var started: seq<nat>

    ghost function View(): State
      reads this
    {
      State(caches, queue, batchSize, accepted, parked, woken, waiting, roused, started)
    }

    ghost predicate Valid()
      reads this
    {
      Reachable(View())
    }

    constructor (workers: set<nat>)
      ensures Valid() && View() == Init(workers)
    {
      caches := map w | w in workers :: Cache([], 0);
      queue, batchSize, accepted, started := [], MIN_BATCH, 0, [];
      parked, woken, waiting, roused := {}, {}, {}, {};
      new;
      InitReachable(workers);
    }

    /** `notEmpty_.notify_one()`. */
    method NotifyOne(wake: Option<nat>)
      requires Picks(parked, wake)
      modifies this`parked, this`woken
      ensures parked == old(parked) - Picked(wake) && woken == old(woken) + Picked(wake)
    {
      if wake.Some? {
        parked, woken := parked - {wake.value}, woken + {wake.value};
      }
    }

    /** Lines 65-82, from taking the lock; false when the producer has to wait. */
    method Submit(task: nat, p: nat, wake: Option<nat>) returns (done: bool)
      requires Valid() && task == accepted && Enabled(View(), Run(p, wake))
      modifies this
      ensures Valid() && View() == Apply(old(View()), Run(p, wake))
      ensures done <==> p !in waiting
      ensures done <==> |old(queue)| < 10000 || old(caches) == map[]
      ensures done ==> accepted == old(accepted) + 1 && (task in queue || (old(caches) == map[] && task in started))
    {
      ReachableStep(View(), Run(p, wake));
      ReachableInv(View());
      roused := roused - {p};
      if caches == map[] {
        started, accepted := started + [task], accepted + 1;
        return true;
      }
      if |queue| >= MAX_QUEUE {
        waiting := waiting + {p};
        return false;
      }
      queue, accepted := queue + [task], accepted + 1;
      NotifyOne(wake);
      done := true;
    }

    /** Lines 115-120. */
    method AdaptBatchSize()
      modifies this`batchSize
      ensures batchSize == Adapted(old(batchSize), |queue|)
    {
      if |queue| > batchSize * 2 {
        batchSize := if batchSize * 2 < MAX_BATCH then batchSize * 2 else MAX_BATCH;
      } else if |queue| < batchSize / 2 {
        batchSize := if batchSize / 2 > MIN_BATCH then batchSize / 2 else MIN_BATCH;
      }
    }

    /** Lines 122-131. */
    method TakeBatch(w: nat) returns (count: nat)
      modifies this`caches, this`queue
      ensures count == (if batchSize < |old(queue)| then batchSize else |old(queue)|)
      ensures caches == old(caches)[w := Cache(old(queue)[..count], 0)] && queue == old(queue)[count..]
    {
      count := if batchSize < |queue| then batchSize else |queue|;
      var tasks := [];
      for i := 0 to count
        invariant tasks == queue[..i]
      {
        tasks := tasks + [queue[i]];
      }
      caches := caches[w := Cache(tasks, 0)];
      queue := queue[count..];
    }

    /** Lines 88-143 from taking the lock; None when the worker has to wait. */
    method FillLocalCache(w: nat, wake: Option<nat>) returns (n: Option<nat>)
      requires Valid() && Enabled(View(), Fill(w, wake))
      modifies this
      ensures Valid() && View() == Apply(old(View()), Fill(w, wake))
      ensures n.None? <==> old(queue) == []
      ensures n.Some? ==> 0 < n.value == |caches[w].Unread()|
    {
      ReachableStep(View(), Fill(w, wake));
      BatchNotEmpty(View());
      woken := woken - {w};
      if queue == [] {
        parked := parked + {w};
        return None;
      }
      AdaptBatchSize();
      var count := TakeBatch(w);
      if queue != [] {
        NotifyOne(wake);
      }
      if |queue| < MAX_QUEUE * 3 / 4 {
        waiting, roused := {}, roused + waiting;
      }
      n := Some(count);
    }

    /** Lines 185-189: the worker starts the tasks of its cache in order. */
    method Consume(w: nat)
      requires Valid() && w in caches && caches[w].index <= |caches[w].tasks|
      modifies this`caches, this`started
      ensures Valid() && w in caches && caches[w].Unread() == [] && caches.Keys == old(caches).Keys
      ensures started == old(started) + old(caches[w].Unread())
      ensures forall v :: v in caches && v != w ==> caches[v] == old(caches)[v]
    {
      ghost var was, u := caches, caches[w].Unread();
      ghost var log := started;
      while caches[w].index < |caches[w].tasks|
        invariant Valid() && w in caches && caches[w].index <= |caches[w].tasks| && caches.Keys == was.Keys
        invariant log + u == started + caches[w].Unread()
        invariant forall v :: v in caches && v != w ==> caches[v] == was[v]
        decreases |caches[w].tasks| - caches[w].index
      {
        StartNext(w);
      }
    }

    /** Lines 186-187: one task is taken from the cache and started. */
    method StartNext(w: nat)
      requires Valid() && w in caches && caches[w].index < |caches[w].tasks|
      modifies this`caches, this`started
      ensures Valid() && View() == Apply(old(View()), Start(w))
      ensures started + caches[w].Unread() == old(started) + old(caches[w].Unread())
      ensures caches == old(caches)[w := Cache(old(caches)[w].tasks, old(caches)[w].index + 1)]
    {
      ReachableStep(View(), Start(w));
      var c := caches[w];
      caches := caches[w := Cache(c.tasks, c.index + 1)];
      started := started + [c.tasks[c.index]];
      assert c.Unread() == [c.tasks[c.index]] + caches[w].Unread();
    }
  }
}
