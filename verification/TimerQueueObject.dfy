/** The timer queue object: its fields, updated in place, always show a state of the step machine
    in TimerQueue, and each method is a step or a run of it. */
module TimerQueueObject {
  import TQ = TimerQueue
  import opened TimerReaders
  import opened TimerTheorems

  /** What a callback asks of the queue, in order, and how long it takes. */
  datatype Request = Add(addr: nat, when: int, interval: real) | Cancel(id: TQ.TimerId)
  datatype Callback = Callback(requests: seq<Request>, took: nat)

  /** The first half of `addTimer` by thread `t`. */
  function Making(t: nat, addr: nat, when: int, interval: real): TQ.Action {
    if t == TQ.LOOP then TQ.Create(addr, when, interval) else TQ.Post(t, addr, when, interval)
  }

  ghost function BothHalves(s: TQ.State, t: nat, addr: nat, when: int, interval: real): TQ.State
    requires TQ.Enabled(s, Making(t, addr, when, interval))
  {
    TQ.Apply(TQ.Apply(s, Making(t, addr, when, interval)), TQ.ReadId(t))
  }

  class TimerQueue {
    var heap: map<nat, TQ.Timer>
    var numCreated: nat
    var timers: seq<TQ.Entry>
    var activeTimers: set<TQ.TimerId>
    var cancelingTimers: set<TQ.TimerId>
    var callingExpiredTimers: bool
    var timerfd: TQ.Timerfd
    var pendingFunctors: seq<TQ.Functor>
    /** What Timestamp::now() answers. */
    var clock: int
    ghost var phase: TQ.Phase
    ghost var starts: seq<nat>
    ghost var freed: seq<nat>
    ghost var origin: map<nat, int>
    ghost var reading: map<nat, TQ.Unread>
    /** The ids that users have been given. */
    var issued: set<TQ.TimerId>

    ghost function View(): TQ.State
      reads this
    {
      TQ.State(heap, timers, activeTimers, cancelingTimers, phase, pendingFunctors, numCreated, timerfd, clock, starts, freed, origin,
               reading, issued)
    }

    ghost predicate Consistent()
      reads this
    {
      Reachable(View()) && callingExpiredTimers == phase.Running?
    }

    /** The loop thread is not inside `addTimer`. */
    ghost predicate Valid()
      reads this
    {
      Consistent() && TQ.LoopFree(View())
    }

    constructor (now: int)
      ensures Valid() && View() == TQ.Init(now)
    {
      heap, numCreated, timers, activeTimers, cancelingTimers := map[], 0, [], {}, {};
      callingExpiredTimers, timerfd, pendingFunctors := false, TQ.Disarmed, [];
      phase, clock, starts, freed, origin, reading, issued := TQ.Idle, now, [], [], map[], map[], {};
      new;
      ReachesSelf(TQ.Init(now));
    }

    /** Lines 173-186. */
    method Insert(addr: nat) returns (isChange: bool)
      requires addr in heap
      modifies this`timers, this`activeTimers
      ensures View() == TQ.Indexed(old(View()), addr)
      ensures isChange == TQ.Earliest(old(View()), heap[addr].expiration)
    {
      isChange := false;
      var when := heap[addr].expiration;
      if timers == [] || when < timers[0].when {
        isChange := true;
      }
      timers := TQ.Inserted(timers, TQ.Entry(when, addr));
      activeTimers := activeTimers + {TQ.TimerId(addr, heap[addr].sequence)};
    }

    /** Lines 86-93. */
    method AddTimerInLoop(addr: nat)
      requires addr in heap
      modifies this`timers, this`activeTimers, this`timerfd
      ensures View() == TQ.AddedInLoop(old(View()), addr)
    {
      var isChange := Insert(addr);
      if isChange {
        timerfd := TQ.ArmedFor(heap[addr].expiration, clock);
      }
    }

    /** Lines 72-76: thread `t` makes the timer; the loop thread adds it at once, another thread queues
        `addTimerInLoop`. */
    method MakeTimer(t: nat, addr: nat, when: int, interval: real)
      requires Consistent() && TQ.Enabled(View(), Making(t, addr, when, interval))
      modifies this`heap, this`numCreated, this`timers, this`activeTimers, this`timerfd, this`pendingFunctors, this`origin, this`reading
      ensures Consistent() && View() == TQ.Apply(old(View()), Making(t, addr, when, interval))
    {
      if t == TQ.LOOP {
        MakeHere(addr, when, interval);
      } else {
        MakeElsewhere(t, addr, when, interval);
      }
    }

    method MakeHere(addr: nat, when: int, interval: real)
      requires Consistent() && TQ.Enabled(View(), TQ.Create(addr, when, interval))
      modifies this`heap, this`numCreated, this`timers, this`activeTimers, this`timerfd, this`origin, this`reading
      ensures Consistent() && View() == TQ.Apply(old(View()), TQ.Create(addr, when, interval))
    {
      NoDanglingTimer(View(), TQ.Create(addr, when, interval));
      reading := reading[TQ.LOOP := TQ.Unread(TQ.TimerId(addr, numCreated), interval > 0.0)];
      NewTimer(addr, when, interval);
      AddTimerInLoop(addr);
    }

    method MakeElsewhere(t: nat, addr: nat, when: int, interval: real)
      requires Consistent() && TQ.Enabled(View(), TQ.Post(t, addr, when, interval))
      modifies this`heap, this`numCreated, this`pendingFunctors, this`origin, this`reading
      ensures Consistent() && View() == TQ.Apply(old(View()), TQ.Post(t, addr, when, interval))
    {
      NoDanglingTimer(View(), TQ.Post(t, addr, when, interval));
      reading := reading[t := TQ.Unread(TQ.TimerId(addr, numCreated), interval > 0.0)];
      NewTimer(addr, when, interval);
      pendingFunctors := pendingFunctors + [TQ.Add(addr)];
    }

    /** `new Timer`, line 74. */
    method NewTimer(addr: nat, when: int, interval: real)
      modifies this`heap, this`numCreated, this`origin
      ensures View() == TQ.Allocated(old(View()), addr, when, interval)
    {
      heap := heap[addr := TQ.Timer(when, interval, interval > 0.0, numCreated)];
      origin := origin[numCreated := when];
      numCreated := numCreated + 1;
    }

    /** Line 77: the id of the timer at `addr` that thread `t` made, provided it is still alive. */
    method ReadTimerId(t: nat, addr: nat) returns (id: TQ.TimerId)
      requires Consistent() && TQ.Enabled(View(), TQ.ReadId(t)) && TQ.Safe(View(), TQ.ReadId(t)) && addr == reading[t].id.addr
      modifies this`reading, this`issued
      ensures Consistent() && View() == TQ.Apply(old(View()), TQ.ReadId(t)) && id == old(reading)[t].id
    {
      ReachableStep(View(), TQ.ReadId(t));
      id := TQ.TimerId(addr, heap[addr].sequence);
      issued := issued + {id};
      reading := reading - {t};
    }

    /** `addTimer` with nothing in between. */
    method AddTimer(t: nat, addr: nat, when: int, interval: real) returns (id: TQ.TimerId)
      requires Valid() && TQ.Enabled(View(), Making(t, addr, when, interval))
      modifies this`heap, this`numCreated, this`timers, this`activeTimers, this`timerfd, this`pendingFunctors, this`origin, this`reading, this`issued
      ensures Valid() && View() == BothHalves(old(View()), t, addr, when, interval)
      ensures id == TQ.TimerId(addr, old(numCreated)) && TQ.Names(View(), id)
    {
      ghost var s := View();
      MakeTimer(t, addr, when, interval);
      id := ReadTimerId(t, addr);
    }

    /** Lines 95-108. */
    method CancelInLoop(id: TQ.TimerId)
      requires TQ.Canceled(View(), id) <= heap.Keys && callingExpiredTimers == phase.Running?
      modifies this`timers, this`activeTimers, this`heap, this`freed, this`cancelingTimers
      ensures View() == TQ.CanceledInLoop(old(View()), id)
    {
      if id in activeTimers {
        assert id.addr in TQ.Canceled(View(), id);
        timers := TQ.Removed(timers, TQ.Entry(heap[id.addr].expiration, id.addr));
        activeTimers := activeTimers - {id};
        freed := freed + [heap[id.addr].sequence];
        heap := heap - {id.addr};
      } else if callingExpiredTimers {
        cancelingTimers := cancelingTimers + {id};
      }
    }

    /** The loop runs one queued functor. */
    method RunPendingFunctor()
      requires Valid() && TQ.Enabled(View(), TQ.RunFunctor)
      modifies this
      ensures Valid() && TQ.Safe(old(View()), TQ.RunFunctor) && View() == TQ.Apply(old(View()), TQ.RunFunctor)
    {
      NoDanglingTimer(View(), TQ.RunFunctor);
      var f := pendingFunctors[0];
      assert f.Add? ==> f.addr in TQ.Touched(View(), TQ.RunFunctor);
      pendingFunctors := pendingFunctors[1..];
      match f
      case Add(addr) => AddTimerInLoop(addr);
      case Drop(id) => CancelInLoop(id);
    }

    /** Lines 129-145. */
    method GetExpired(now: int) returns (expired: seq<TQ.Entry>)
      requires now == clock && forall e :: e in TQ.Batch(View()) ==> e.addr in heap
      modifies this`timers, this`activeTimers
      ensures expired == TQ.Batch(old(View())) && timers == old(timers)[|expired|..]
      ensures forall e :: e in expired ==> e.addr in heap
      ensures activeTimers == old(activeTimers) - TQ.Ids(heap, expired)
    {
      var it := TQ.Rank(timers, TQ.Entry(now, TQ.TOP));
      expired := timers[..it];
      timers := timers[it..];
      for k := 0 to |expired|
        invariant timers == old(timers)[it..]
        invariant activeTimers == old(activeTimers) - TQ.Ids(heap, expired[..k])
      {
        assert expired[..k + 1] == expired[..k] + [expired[k]];
        activeTimers := activeTimers - {TQ.TimerId(expired[k].addr, heap[expired[k].addr].sequence)};
      }
      assert expired[..|expired|] == expired;
    }

    /** One request made by a callback; one for an address in use is one no allocator makes, one with an
        id that nobody was given cannot be made, and both are passed over. */
    method Serve(r: Request)
      requires Valid() && phase.Running? && phase.next > 0
      modifies this`heap, this`numCreated, this`timers, this`activeTimers, this`timerfd, this`pendingFunctors, this`origin, this`reading, this`issued
      modifies this`freed, this`cancelingTimers
      ensures Valid() && Reaches(old(View()), View()) && BatchSame(phase, old(heap), heap)
    {
      ghost var v := View();
      ReachesSelf(v);
      match r
      case Add(addr, when, interval) =>
        BatchAlive(v);
        if 0 < addr < TQ.TOP && addr !in heap {
          NoDanglingTimer(v, TQ.Create(addr, when, interval));
          ReachesStep(v, v, TQ.Create(addr, when, interval));
          ReachesStep(v, TQ.Apply(v, TQ.Create(addr, when, interval)), TQ.ReadId(TQ.LOOP));
          var id := AddTimer(TQ.LOOP, addr, when, interval);
        }
      case Cancel(id) =>
        BatchAlive(v);
        if id in issued || id.addr == 0 {
          NoDanglingTimer(v, TQ.Cancel(id));
          ReachesStep(v, v, TQ.Cancel(id));
          BatchKept(v, id);
          CancelInLoop(id);
        }
    }

    /** A timer's callback adds and cancels timers, and takes its time. */
    method RunCallback(cb: Callback)
      requires Valid() && phase.Running? && phase.next > 0
      modifies this
      ensures Valid() && Reaches(old(View()), View()) && BatchSame(phase, old(heap), heap)
      ensures phase == old(phase) && starts == old(starts)
    {
      ghost var v := View();
      ReachesSelf(v);
      BatchAlive(v);
      for i := 0 to |cb.requests|
        invariant Valid() && Reaches(v, View()) && BatchSame(phase, v.heap, heap)
        invariant phase == v.phase && starts == v.starts
      {
        ghost var before := View();
        Serve(cb.requests[i]);
        ReachesThen(v, before, View());
      }
      NoDanglingTimer(View(), TQ.Tick(cb.took));
      ReachesStep(v, View(), TQ.Tick(cb.took));
      clock := clock + cb.took;
    }

    /** Lines 119-122: the next timer of the batch is run. */
    method RunTimer(cur: TQ.Entry, cb: Callback)
      requires Valid() && TQ.Enabled(View(), TQ.Start) && cur == phase.batch[phase.next]
      modifies this
      ensures Valid() && Reaches(old(View()), View()) && BatchSame(phase, old(heap), heap)
      ensures phase == TQ.Running(old(phase).batch, old(phase).next + 1, old(phase).now)
      ensures cur.addr in old(heap) && starts == old(starts) + [old(heap)[cur.addr].sequence]
    {
      ghost var v := View();
      ReachesSelf(v);
      NoDanglingTimer(v, TQ.Start);
      ReachesStep(v, v, TQ.Start);
      assert cur.addr in TQ.Touched(v, TQ.Start);
      starts := starts + [heap[cur.addr].sequence];
      phase := TQ.Running(phase.batch, phase.next + 1, phase.now);
      ghost var started := View();
      assert started == TQ.Apply(v, TQ.Start);
      RunCallback(cb);
      ReachesThen(v, started, View());
    }

    /** One iteration of the loop in `reset`, lines 152-159; `restart` is net/Timer.cpp lines 9-16. */
    method ResetOne(cur: TQ.Entry)
      requires Valid() && TQ.Enabled(View(), TQ.Reclaim) && cur == phase.batch[phase.next]
      modifies this`phase, this`heap, this`timers, this`activeTimers, this`freed
      ensures Valid() && Reaches(old(View()), View())
      ensures TQ.Safe(old(View()), TQ.Reclaim) && View() == TQ.Apply(old(View()), TQ.Reclaim)
    {
      Goes(View(), TQ.Reclaim);
      assert cur.addr in TQ.Touched(View(), TQ.Reclaim);
      var rub := TQ.TimerId(cur.addr, heap[cur.addr].sequence);
      phase := TQ.Resetting(phase.batch, phase.next + 1, phase.now);
      if heap[cur.addr].repeat && rub !in cancelingTimers {
        heap := heap[cur.addr := heap[cur.addr].Restarted()];
        var isChange := Insert(cur.addr);
      } else {
        freed := freed + [heap[cur.addr].sequence];
        heap := heap - {cur.addr};
      }
    }

    method ResetNext(cur: TQ.Entry)
      requires Valid() && TQ.Enabled(View(), TQ.Reclaim) && cur == phase.batch[phase.next]
      modifies this`phase, this`heap, this`timers, this`activeTimers, this`freed
      ensures Valid() && Reaches(old(View()), View())
      ensures phase == TQ.Resetting(old(phase).batch, old(phase).next + 1, old(phase).now)
    {
      ResetOne(cur);
    }

    /** Lines 147-171. */
    method Reset(expired: seq<TQ.Entry>, now: int)
      requires Valid() && phase == TQ.Resetting(expired, 0, now)
      modifies this`phase, this`heap, this`timers, this`activeTimers, this`freed, this`timerfd
      ensures Valid() && Reaches(old(View()), View()) && phase.Idle?
      ensures timers != [] && timers[0].when > 0 ==> timerfd == TQ.ArmedFor(timers[0].when, clock)
    {
      ghost var v := View();
      ReachesSelf(v);
      for k := 0 to |expired|
        invariant Valid() && Reaches(v, View()) && phase == TQ.Resetting(expired, k, now)
      {
        ghost var before := View();
        ResetNext(expired[k]);
        ReachesThen(v, before, View());
      }
      ghost var swept := View();
      ArmNext();
      ReachesThen(v, swept, View());
    }

    /** Lines 162-170. */
    method ArmNext()
      requires Valid() && TQ.Enabled(View(), TQ.Rearm)
      modifies this`phase, this`timerfd
      ensures Valid() && Reaches(old(View()), View()) && phase.Idle?
      ensures timers != [] && timers[0].when > 0 ==> timerfd == TQ.ArmedFor(timers[0].when, clock)
    {
      Goes(View(), TQ.Rearm);
      HeadHeld(View());
      phase := TQ.Idle;
      if timers != [] && heap[timers[0].addr].expiration > 0 {
        timerfd := TQ.ArmedFor(heap[timers[0].addr].expiration, clock);
      }
    }

    /** Lines 34-37. */
    method ReadTimerfd()
      modifies this`timerfd
      ensures timerfd == if old(timerfd).Fired? then TQ.Disarmed else old(timerfd)
    {
      if timerfd.Fired? {
        timerfd := TQ.Disarmed;
      }
    }

    /** Lines 112-117. */
    method BeginBatch() returns (expired: seq<TQ.Entry>)
      requires Valid() && phase.Idle?
      modifies this`timerfd, this`timers, this`activeTimers, this`callingExpiredTimers, this`cancelingTimers, this`phase
      ensures Valid() && Reaches(old(View()), View())
      ensures expired == TQ.Batch(old(View())) && phase == TQ.Running(expired, 0, clock)
    {
      ghost var v := View();
      ReadGoes(v);
      ReadTimerfd();
      assert TQ.Batch(View()) == TQ.Batch(v);
      expired := TakeBatch();
      assert View() == TQ.BatchTaken(v);
    }

    /** Lines 115-117. */
    method TakeBatch() returns (expired: seq<TQ.Entry>)
      requires forall e :: e in TQ.Batch(View()) ==> e.addr in heap
      modifies this`timers, this`activeTimers, this`callingExpiredTimers, this`cancelingTimers, this`phase
      ensures expired == TQ.Batch(old(View())) && (forall e :: e in expired ==> e.addr in heap) && callingExpiredTimers
      ensures timers == old(timers)[|expired|..] && activeTimers == old(activeTimers) - TQ.Ids(heap, expired)
      ensures phase == TQ.Running(expired, 0, clock) && cancelingTimers == {}
    {
      expired := GetExpired(clock);
      callingExpiredTimers, cancelingTimers, phase := true, {}, TQ.Running(expired, 0, clock);
    }

    /** Lines 119-124. */
    method RunBatch(expired: seq<TQ.Entry>, now: int, callbacks: seq<Callback>)
      requires Valid() && phase == TQ.Running(expired, 0, now) && |callbacks| >= |expired|
      modifies this
      ensures Valid() && Reaches(old(View()), View()) && phase == TQ.Resetting(expired, 0, now)
      ensures BatchSame(TQ.Running(expired, 0, now), old(heap), old(heap))
      ensures starts == old(starts) + Sequences(old(heap), expired)
    {
      ghost var v := View();
      ReachesSelf(v);
      BatchAlive(v);
      for k := 0 to |expired|
        invariant Valid() && Reaches(v, View()) && phase == TQ.Running(expired, k, now)
        invariant BatchSame(TQ.Running(expired, 0, now), v.heap, heap)
        invariant starts == v.starts + Sequences(v.heap, expired[..k])
      {
        ghost var before := View();
        RunTimer(expired[k], callbacks[k]);
        ReachesThen(v, before, View());
        SequencesGrow(v.heap, expired, k);
      }
      assert expired[..|expired|] == expired;
      ghost var ran := View();
      EndRunning(expired, now);
      ReachesThen(v, ran, View());
    }

    /** Line 124. */
    method EndRunning(expired: seq<TQ.Entry>, now: int)
      requires Valid() && phase == TQ.Running(expired, |expired|, now)
      modifies this`callingExpiredTimers, this`phase
      ensures Valid() && Reaches(old(View()), View()) && phase == TQ.Resetting(expired, 0, now)
    {
      Goes(View(), TQ.EndBatch);
      callingExpiredTimers, phase := false, TQ.Resetting(expired, 0, now);
    }

    /** Lines 110-127. The queue is left as some run of the step machine leaves it; every timer due
        on entry has been started once, in order, and no other. */
    method HandleRead(callbacks: seq<Callback>) returns (expired: seq<TQ.Entry>)
      requires Valid() && phase.Idle? && |callbacks| >= |TQ.Batch(View())|
      modifies this
      ensures Valid() && phase.Idle? && Reaches(old(View()), View())
      ensures expired == TQ.Batch(old(View())) && BatchSame(TQ.Running(expired, 0, old(clock)), old(heap), old(heap))
      ensures starts == old(starts) + Sequences(old(heap), expired)
      ensures timers != [] && timers[0].when > 0 ==> timerfd == TQ.ArmedFor(timers[0].when, clock)
    {
      var now := clock;
      ghost var v := View();
      expired := BeginBatch();
      ghost var begun := View();
      RunBatch(expired, now, callbacks);
      ReachesThen(v, begun, View());
      ghost var ran := View();
      Reset(expired, now);
      ReachesThen(v, ran, View());
    }
  }

  /** The sequence numbers of a batch. */
  ghost function Sequences(heap: map<nat, TQ.Timer>, batch: seq<TQ.Entry>): seq<nat>
    requires forall e :: e in batch ==> e.addr in heap
  {
    if batch == [] then [] else Sequences(heap, batch[..|batch| - 1]) + [heap[batch[|batch| - 1].addr].sequence]
  }

  lemma SequencesGrow(heap: map<nat, TQ.Timer>, batch: seq<TQ.Entry>, k: nat)
    requires k < |batch| && forall e :: e in batch ==> e.addr in heap
    ensures Sequences(heap, batch[..k + 1]) == Sequences(heap, batch[..k]) + [heap[batch[k].addr].sequence]
  {
    assert batch[..k + 1][..k] == batch[..k];
  }

  /** The timers of the running batch are alive, and the same, in both heaps. */
  ghost predicate BatchSame(phase: TQ.Phase, h: map<nat, TQ.Timer>, h': map<nat, TQ.Timer>) {
    forall e :: e in TQ.Owned(phase) ==> e.addr in h && e.addr in h' && h[e.addr] == h'[e.addr]
  }

  /** The next step of the queue itself is safe and leads on. */
  lemma Goes(s: TQ.State, a: TQ.Action)
    requires Reachable(s) && TQ.Enabled(s, a) && !a.ReadId?
    ensures TQ.Safe(s, a) && Reachable(TQ.Apply(s, a)) && Reaches(s, TQ.Apply(s, a))
  {
    NoDanglingTimer(s, a);
    ReachesSelf(s);
    ReachesStep(s, s, a);
  }

  lemma ReadGoes(s: TQ.State)
    requires Reachable(s) && TQ.Enabled(s, TQ.Read)
    ensures forall e :: e in TQ.Batch(s) ==> e.addr in s.heap
    ensures Reachable(TQ.BatchTaken(s)) && Reaches(s, TQ.BatchTaken(s))
  {
    Goes(s, TQ.Read);
    assert forall e :: e in TQ.Batch(s) ==> e.addr in TQ.Touched(s, TQ.Read);
  }

  lemma BatchAlive(s: TQ.State)
    requires Reachable(s)
    ensures BatchSame(s.phase, s.heap, s.heap)
  {
    ReachableInv(s);
    assert forall e :: e in TQ.Owned(s.phase) ==> TQ.Holds(s, e);
  }

  lemma HeadHeld(s: TQ.State)
    requires Reachable(s)
    ensures s.timers != [] ==> s.timers[0].addr in s.heap && s.heap[s.timers[0].addr].expiration == s.timers[0].when
  {
    ReachableInv(s);
    assert s.timers != [] ==> TQ.Holds(s, s.timers[0]);
  }

  /** A cancel frees no timer of the running batch. */
  lemma BatchKept(s: TQ.State, id: TQ.TimerId)
    requires Reachable(s)
    ensures TQ.Canceled(s, id) <= s.heap.Keys
    ensures BatchSame(s.phase, s.heap, TQ.CanceledInLoop(s, id).heap)
  {
    ReachableInv(s);
    BatchAlive(s);
    TQ.CanceledInv(s, id);
    if id in s.active {
      assert TQ.OnePlace(s, id.addr) && TQ.Waiting(s, id.addr);
      assert forall e :: e in TQ.Owned(s.phase) ==> TQ.Holds(s, e);
    }
  }
}
