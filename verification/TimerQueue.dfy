/** The timer queue of net/TimerQueue.cpp and net/Timer.cpp: two indices over manually owned
    timers, callbacks that add and cancel timers while a batch runs, timers posted from other
    threads, and the one-shot kernel timer. Times are integer microseconds. */
module TimerQueue {

  /** One past the largest address a timer object can have (`UINTPTR_MAX`). */
  const TOP: nat := 0xFFFF_FFFF_FFFF_FFFF
  const MIN_DELAY: int := 100
  /** The loop thread; every other number is another thread. */
  const LOOP: nat := 0

  datatype Entry = Entry(when: int, addr: nat)
  datatype TimerId = TimerId(addr: nat, sequence: nat)

  /** net/Timer.h: `interval` is in seconds. */
  datatype Timer = Timer(expiration: int, interval: real, repeat: bool, sequence: nat) {
    /** Microseconds between two runs, truncated as the cast in Timestamp does. */
    function Period(): nat {
      if repeat && interval > 0.0 then (interval * 1000000.0).Floor else 0
    }
    /** Timer::restart, for a repeating timer. */
    function Restarted(): Timer { this.(expiration := expiration + Period()) }
  }

  /** What the kernel knows: not armed, armed at `since` to fire at `at`, or readable. */
  datatype Timerfd = Disarmed | Armed(at: int, since: int) | Fired

  /** Functors other threads have queued on the loop. */
  datatype Functor = Add(addr: nat) | Drop(id: TimerId)

  /** A timer that a thread has made in `addTimer` and whose sequence number it has yet to read. */
  datatype Unread = Unread(id: TimerId, repeats: bool)

  /** Idle: `handleRead` is not running. Running: `batch[..next]` have been started.
      Resetting: `reset` has dealt with `batch[..next]`. */
  datatype Phase =
    | Idle
    | Running(batch: seq<Entry>, next: nat, now: int)
    | Resetting(batch: seq<Entry>, next: nat, now: int)

  /** `starts` and `freed` log sequence numbers, `origin` keeps each timer's first expiration. `reading`
      are the threads between the two halves of `addTimer`, and `issued` the ids it has returned. */
  datatype State = State(
    heap: map<nat, Timer>,
    timers: seq<Entry>,
    active: set<TimerId>,
    canceling: set<TimerId>,
    phase: Phase,
    pending: seq<Functor>,
    created: nat,
    fd: Timerfd,
    clock: int,
    starts: seq<nat>,
    freed: seq<nat>,
    origin: map<nat, int>,
    reading: map<nat, Unread>,
    issued: set<TimerId>)

  datatype Action =
    | Create(addr: nat, when: int, interval: real)
    | Post(t: nat, addr: nat, when: int, interval: real)
    | ReadId(t: nat)
    | Cancel(id: TimerId)
    | PostCancel(id: TimerId)
    | RunFunctor
    | Tick(d: nat)
    | Fire
    | Read
    | Start
    | EndBatch
    | Reclaim
    | Rearm

  function Init(clock: int): State {
    State(map[], [], {}, {}, Idle, [], 0, Disarmed, clock, [], [], map[], map[], {})
  }

  // ---------------------------------------------------------------- the ordered set

  predicate Before(x: Entry, y: Entry) { x.when < y.when || (x.when == y.when && x.addr < y.addr) }

  ghost predicate Sorted(ts: seq<Entry>) {
    forall i, j :: 0 <= i < j < |ts| ==> Before(ts[i], ts[j])
  }

  /** `lower_bound`: the number of leading entries before `e`. */
  function Rank(ts: seq<Entry>, e: Entry): (p: nat)
    ensures p <= |ts| && (p < |ts| ==> !Before(ts[p], e))
    ensures forall k :: 0 <= k < p ==> Before(ts[k], e)
  {
    if ts == [] || !Before(ts[0], e) then 0 else 1 + Rank(ts[1..], e)
  }

  function Inserted(ts: seq<Entry>, e: Entry): seq<Entry> {
    var p := Rank(ts, e);
    if p < |ts| && ts[p] == e then ts else ts[..p] + [e] + ts[p..]
  }

  function Removed(ts: seq<Entry>, e: Entry): seq<Entry> {
    var p := Rank(ts, e);
    if p < |ts| && ts[p] == e then ts[..p] + ts[p + 1..] else ts
  }

  lemma InsertedOk(ts: seq<Entry>, e: Entry)
    requires Sorted(ts)
    ensures Sorted(Inserted(ts, e))
    ensures forall x :: x in Inserted(ts, e) <==> x in ts || x == e
    ensures Inserted(ts, e)[0] == if ts == [] || Before(e, ts[0]) then e else ts[0]
  {
    var p := Rank(ts, e);
    forall x | x in ts ensures x in ts[..p] || x in ts[p..] {
      var k :| 0 <= k < |ts| && ts[k] == x;
      if k < p { assert ts[..p][k] == x; } else { assert ts[p..][k - p] == x; }
    }
  }

  lemma RemovedOk(ts: seq<Entry>, e: Entry)
    requires Sorted(ts)
    ensures Sorted(Removed(ts, e))
    ensures forall x :: x in Removed(ts, e) <==> x in ts && x != e
    ensures Removed(ts, e) != [] ==> ts != [] && (Removed(ts, e)[0] == ts[0] || Before(ts[0], Removed(ts, e)[0]))
  {
    var p := Rank(ts, e);
    forall x | x in ts && x != e ensures x in Removed(ts, e) {
      var k :| 0 <= k < |ts| && ts[k] == x;
      if p < |ts| && ts[p] == e {
        if k < p { assert Removed(ts, e)[k] == x; } else { assert Removed(ts, e)[k - 1] == x; }
      }
    }
    if e in ts {
      var k :| 0 <= k < |ts| && ts[k] == e;
      assert k == p;
    }
  }

  /** `lower_bound` of (now, UINTPTR_MAX) separates exactly the timers due by `now`. */
  lemma DueIsPrefix(ts: seq<Entry>, now: int)
    requires Sorted(ts) && forall e :: e in ts ==> e.addr < TOP
    ensures forall k :: 0 <= k < |ts| ==> (ts[k].when <= now <==> k < Rank(ts, Entry(now, TOP)))
  {
    var p := Rank(ts, Entry(now, TOP));
    forall k | 0 <= k < |ts| ensures ts[k].when <= now <==> k < p {
      assert ts[k] in ts;
      if k > p { assert Before(ts[p], ts[k]); assert ts[p] in ts; }
    }
  }

  // ---------------------------------------------------------------- steps

  /** howMuchTimeFromNow: seconds and nanoseconds, never less than 100 microseconds. */
  function HowMuchTimeFromNow(when: int, now: int): (r: (int, int))
    ensures 0 <= r.1 < 1_000_000_000
    ensures r.0 * 1_000_000_000 + r.1 == 1000 * (if when - now < MIN_DELAY then MIN_DELAY else when - now)
  {
    var us := if when - now < MIN_DELAY then MIN_DELAY else when - now;
    (us / 1_000_000, us % 1_000_000 * 1000)
  }

  /** resetTimerfd at time `now`. */
  function ArmedFor(when: int, now: int): Timerfd {
    var ts := HowMuchTimeFromNow(when, now);
    Armed(now + (ts.0 * 1_000_000_000 + ts.1) / 1000, now)
  }

  /** The timers the running batch still owns, and those of them already started. */
  function Owned(p: Phase): seq<Entry> {
    if p.Running? then p.batch
    else if p.Resetting? && p.next <= |p.batch| then p.batch[p.next..]
    else []
  }

  function Ran(p: Phase): seq<Entry> {
    if p.Running? && p.next <= |p.batch| then p.batch[..p.next] else if p.Resetting? then Owned(p) else []
  }

  function Batch(s: State): seq<Entry> { s.timers[..Rank(s.timers, Entry(s.clock, TOP))] }

  /** The loop thread is not in the middle of `addTimer`. */
  predicate LoopFree(s: State) { LOOP !in s.reading }

  /** User code runs on the loop thread: between events, or inside a timer's callback. */
  predicate UserCodeMayRun(s: State) { LoopFree(s) && (s.phase.Idle? || (s.phase.Running? && s.phase.next > 0)) }

  /** Users hold the ids that `addTimer` has returned, and the default id. */
  predicate Held(s: State, id: TimerId) { id in s.issued || id.addr == 0 }

  predicate Enabled(s: State, a: Action) {
    match a
    case Create(addr, _, _) => UserCodeMayRun(s) && 0 < addr < TOP && addr !in s.heap
    case Post(t, addr, _, _) => t != LOOP && t !in s.reading && 0 < addr < TOP && addr !in s.heap
    case ReadId(t) => t in s.reading
    case Cancel(id) => UserCodeMayRun(s) && Held(s, id)
    case PostCancel(id) => Held(s, id)
    case RunFunctor => LoopFree(s) && s.phase.Idle? && s.pending != []
    case Tick(_) => true
    case Fire => s.fd.Armed? && s.fd.at <= s.clock
    case Read => LoopFree(s) && s.phase.Idle?
    case Start => LoopFree(s) && s.phase.Running? && s.phase.next < |s.phase.batch|
    case EndBatch => LoopFree(s) && s.phase.Running? && s.phase.next == |s.phase.batch|
    case Reclaim => LoopFree(s) && s.phase.Resetting? && s.phase.next < |s.phase.batch|
    case Rearm => LoopFree(s) && s.phase.Resetting? && s.phase.next == |s.phase.batch|
  }

  function Canceled(s: State, id: TimerId): set<nat> { if id in s.active then {id.addr} else {} }

  /** The addresses of timer objects that a step reads, runs or deletes. */
  function Touched(s: State, a: Action): set<nat>
    requires Enabled(s, a)
  {
    match a
    case Cancel(id) => Canceled(s, id)
    case RunFunctor => if s.pending[0].Add? then {s.pending[0].addr} else Canceled(s, s.pending[0].id)
    case Read => set e | e in Batch(s) :: e.addr
    case Start => {s.phase.batch[s.phase.next].addr}
    case Reclaim => {s.phase.batch[s.phase.next].addr}
    case Rearm => if s.timers == [] then {} else {s.timers[0].addr}
    case Create(_, _, _) => {}
    case Post(_, _, _, _) => {}
    case ReadId(t) => {s.reading[t].id.addr}
    case PostCancel(_) => {}
    case Tick(_) => {}
    case Fire => {}
    case EndBatch => {}
  }

  /** `id` names a live timer. */
  predicate Names(s: State, id: TimerId) { id.addr in s.heap && s.heap[id.addr].sequence == id.sequence }

  /** The step dereferences no dangling pointer; the read of a sequence number finds the timer that the
      thread made, not another one at its address. */
  predicate Safe(s: State, a: Action)
    requires Enabled(s, a)
  {
    Touched(s, a) <= s.heap.Keys && (a.ReadId? ==> Names(s, s.reading[a.t].id))
  }

  /** `new Timer`, lines 74-75. */
  function Allocated(s: State, addr: nat, when: int, interval: real): State {
    s.(heap := s.heap[addr := Timer(when, interval, interval > 0.0, s.created)],
       created := s.created + 1,
       origin := s.origin[s.created := when])
  }

  /** Thread `t` has yet to read the new timer's sequence number, line 77. */
  function Made(s: State, t: nat, addr: nat, interval: real): map<nat, Unread> {
    s.reading[t := Unread(TimerId(addr, s.created), interval > 0.0)]
  }

  /** `insert`, lines 173-186. */
  function Indexed(s: State, addr: nat): State
    requires addr in s.heap
  {
    var t := s.heap[addr];
    s.(timers := Inserted(s.timers, Entry(t.expiration, addr)), active := s.active + {TimerId(addr, t.sequence)})
  }

  predicate Earliest(s: State, when: int) { s.timers == [] || when < s.timers[0].when }

  /** `addTimerInLoop`, lines 86-93. */
  function AddedInLoop(s: State, addr: nat): State
    requires addr in s.heap
  {
    var when := s.heap[addr].expiration;
    if Earliest(s, when) then Indexed(s, addr).(fd := ArmedFor(when, s.clock)) else Indexed(s, addr)
  }

  /** `cancelInLoop`, lines 95-108. */
  function CanceledInLoop(s: State, id: TimerId): State
    requires Canceled(s, id) <= s.heap.Keys
  {
    if id in s.active then
      assert id.addr in Canceled(s, id);
      s.(timers := Removed(s.timers, Entry(s.heap[id.addr].expiration, id.addr)),
         active := s.active - {id},
         heap := s.heap - {id.addr},
         freed := s.freed + [s.heap[id.addr].sequence])
    else if s.phase.Running? then s.(canceling := s.canceling + {id})
    else s
  }

  function Ids(heap: map<nat, Timer>, batch: seq<Entry>): set<TimerId>
    requires forall e :: e in batch ==> e.addr in heap
  {
    set e | e in batch :: TimerId(e.addr, heap[e.addr].sequence)
  }

  /** Lines 112-117: read the descriptor, take the due timers out of both indices. */
  function BatchTaken(s: State): State
    requires forall e :: e in Batch(s) ==> e.addr in s.heap
  {
    var batch := Batch(s);
    s.(fd := if s.fd.Fired? then Disarmed else s.fd,
       timers := s.timers[|batch|..],
       active := s.active - Ids(s.heap, batch),
       phase := Running(batch, 0, s.clock),
       canceling := {})
  }

  /** One iteration of the loop in `reset`, lines 151-160. */
  function Reset(s: State): State
    requires s.phase.Resetting? && s.phase.next < |s.phase.batch| && s.phase.batch[s.phase.next].addr in s.heap
  {
    var addr := s.phase.batch[s.phase.next].addr;
    var t := s.heap[addr];
    var s1 := s.(phase := Resetting(s.phase.batch, s.phase.next + 1, s.phase.now));
    if t.repeat && TimerId(addr, t.sequence) !in s.canceling then
      Indexed(s1.(heap := s.heap[addr := t.Restarted()]), addr)
    else s1.(heap := s.heap - {addr}, freed := s.freed + [t.sequence])
  }

  function Apply(s: State, a: Action): State
    requires Enabled(s, a) && Safe(s, a)
  {
    match a
    case Create(addr, when, interval) =>
      AddedInLoop(Allocated(s, addr, when, interval), addr).(reading := Made(s, LOOP, addr, interval))
    case Post(t, addr, when, interval) =>
      var s1 := Allocated(s, addr, when, interval);
      s1.(pending := s.pending + [Add(addr)], reading := Made(s, t, addr, interval))
    case ReadId(t) => s.(reading := s.reading - {t}, issued := s.issued + {s.reading[t].id})
    case Cancel(id) => CanceledInLoop(s, id)
    case PostCancel(id) => s.(pending := s.pending + [Drop(id)])
    case RunFunctor =>
      var s1 := s.(pending := s.pending[1..]);
      if s.pending[0].Add? then
        assert s.pending[0].addr in Touched(s, a);
        AddedInLoop(s1, s.pending[0].addr)
      else CanceledInLoop(s1, s.pending[0].id)
    case Tick(d) => s.(clock := s.clock + d)
    case Fire => s.(fd := Fired)
    case Read =>
      assert forall e :: e in Batch(s) ==> e.addr in Touched(s, a);
      BatchTaken(s)
    case Start =>
      assert s.phase.batch[s.phase.next].addr in Touched(s, a);
      s.(starts := s.starts + [s.heap[s.phase.batch[s.phase.next].addr].sequence],
         phase := Running(s.phase.batch, s.phase.next + 1, s.phase.now))
    case EndBatch => s.(phase := Resetting(s.phase.batch, 0, s.phase.now))
    case Reclaim =>
      assert s.phase.batch[s.phase.next].addr in Touched(s, a);
      Reset(s)
    case Rearm =>
      assert s.timers != [] ==> s.timers[0].addr in Touched(s, a);
      s.(phase := Idle,
         fd := if s.timers != [] && s.heap[s.timers[0].addr].expiration > 0
               then ArmedFor(s.heap[s.timers[0].addr].expiration, s.clock) else s.fd)
  }

  ghost predicate StepOk(ss: seq<State>, acts: seq<Action>, i: nat)
    requires |ss| == |acts| + 1 && i < |acts|
  {
    Enabled(ss[i], acts[i]) && Safe(ss[i], acts[i]) && ss[i + 1] == Apply(ss[i], acts[i])
  }

  ghost predicate IsRun(ss: seq<State>, acts: seq<Action>) {
    |ss| == |acts| + 1 && forall i {:trigger StepOk(ss, acts, i)} :: 0 <= i < |acts| ==> StepOk(ss, acts, i)
  }

  // ---------------------------------------------------------------- invariant

  function EntryOf(s: State, addr: nat): Entry
    requires addr in s.heap
  {
    Entry(s.heap[addr].expiration, addr)
  }

  ghost predicate Holds(s: State, e: Entry) { e.addr in s.heap && s.heap[e.addr].expiration == e.when && 0 < e.addr < TOP }

  ghost predicate Waiting(s: State, addr: nat) { addr in s.heap && EntryOf(s, addr) in s.timers }
  ghost predicate InBatch(s: State, addr: nat) { addr in s.heap && EntryOf(s, addr) in Owned(s.phase) }
  ghost predicate Posted(s: State, addr: nat) { Add(addr) in s.pending }

  /** Both orders are ordered sets over live timers. */
  ghost predicate IndexOk(s: State) {
    && Sorted(s.timers) && (forall e :: e in s.timers ==> Holds(s, e))
    && (forall e :: e in Owned(s.phase) ==> Holds(s, e))
  }

  ghost predicate PhaseOk(s: State) {
    s.phase.Idle? || (
      && s.phase.next <= |s.phase.batch| && Sorted(s.phase.batch) && s.phase.now <= s.clock
      && forall e :: e in s.phase.batch ==> e.when <= s.phase.now)
  }

  ghost predicate PostedOk(s: State) {
    && (forall i :: 0 <= i < |s.pending| && s.pending[i].Add? ==> s.pending[i].addr in s.heap)
    && (forall i, j :: 0 <= i < j < |s.pending| && s.pending[i].Add? ==> s.pending[i] != s.pending[j])
  }

  ghost predicate OnePlace(s: State, addr: nat)
    requires addr in s.heap
  {
    && 0 < addr < TOP
    && (Waiting(s, addr) || InBatch(s, addr) || Posted(s, addr))
    && !(Waiting(s, addr) && InBatch(s, addr))
    && !(Waiting(s, addr) && Posted(s, addr))
    && !(InBatch(s, addr) && Posted(s, addr))
  }

  /** Each allocated timer is in exactly one place. */
  ghost predicate PlaceOk(s: State) {
    forall addr :: addr in s.heap ==> OnePlace(s, addr)
  }

  /** The two indices list the same timers. */
  ghost predicate ActiveOk(s: State) {
    forall id: TimerId :: id in s.active <==> Waiting(s, id.addr) && s.heap[id.addr].sequence == id.sequence
  }

  ghost predicate Live(s: State, q: nat) { exists addr :: addr in s.heap && s.heap[addr].sequence == q }

  /** Every timer ever created is either alive or has been freed once. */
  ghost predicate FreedOk(s: State) {
    && (forall a, b :: a in s.heap && b in s.heap && s.heap[a].sequence == s.heap[b].sequence ==> a == b)
    && (forall a :: a in s.heap ==> s.heap[a].sequence < s.created && s.heap[a].sequence !in s.freed)
    && (forall q: nat :: q < s.created ==> Live(s, q) || q in s.freed)
    && (forall q :: q in s.freed ==> q < s.created)
    && (forall i, j :: 0 <= i < j < |s.freed| ==> s.freed[i] != s.freed[j])
  }

  /** How often a timer has started and been rescheduled since. */
  ghost function Rounds(s: State, addr: nat): int
    requires addr in s.heap
  {
    multiset(s.starts)[s.heap[addr].sequence] as int - (if EntryOf(s, addr) in Ran(s.phase) then 1 else 0)
  }

  ghost predicate TimerOk(s: State, addr: nat)
    requires addr in s.heap
  {
    var t := s.heap[addr];
    && t.repeat == (t.interval > 0.0)
    && t.sequence in s.origin && t.expiration == s.origin[t.sequence] + Rounds(s, addr) * t.Period()
    && Rounds(s, addr) >= 0
    && (!t.repeat || Posted(s, addr) ==> Rounds(s, addr) == 0)
  }

  ghost predicate ScheduleOk(s: State) {
    && (forall q :: q in s.starts ==> q < s.created)
    && (forall addr :: addr in s.heap ==> TimerOk(s, addr))
  }

  ghost predicate Inv(s: State) {
    IndexOk(s) && PhaseOk(s) && PostedOk(s) && PlaceOk(s) && ActiveOk(s) && FreedOk(s) && ScheduleOk(s)
  }

  lemma InitInv(clock: int)
    ensures Inv(Init(clock))
  {
  }

  /** Safety: on a state that keeps the invariant no enabled step of the queue touches a freed timer. */
  lemma InvSafe(s: State, a: Action)
    requires Inv(s) && Enabled(s, a) && !a.ReadId?
    ensures Safe(s, a)
  {
    match a
    case RunFunctor =>
    case Read => assert forall e :: e in Batch(s) ==> e in s.timers;
    case Start => assert s.phase.batch[s.phase.next] in Owned(s.phase);
    case Reclaim => assert s.phase.batch[s.phase.next] == Owned(s.phase)[0]; assert s.phase.batch[s.phase.next] in Owned(s.phase);
    case Rearm => assert s.timers != [] ==> s.timers[0] in s.timers;
    case Cancel(_) =>
    case Create(_, _, _) =>
    case Post(_, _, _, _) =>
    case PostCancel(_) =>
    case Tick(_) =>
    case Fire =>
    case EndBatch =>
  }

  // ---------------------------------------------------------------- adding

  /** All of the invariant, except that timer `addr` is in no place yet. */
  ghost predicate InvBut(s: State, addr: nat) {
    && IndexOk(s) && PhaseOk(s) && PostedOk(s) && ActiveOk(s) && FreedOk(s) && ScheduleOk(s)
    && addr in s.heap && 0 < addr < TOP
    && !Waiting(s, addr) && !InBatch(s, addr) && !Posted(s, addr)
    && forall b :: b in s.heap && b != addr ==> OnePlace(s, b)
  }

  lemma AllocatedInv(s: State, addr: nat, when: int, interval: real)
    requires Inv(s) && addr !in s.heap && 0 < addr < TOP
    ensures InvBut(Allocated(s, addr, when, interval), addr)
    ensures Rounds(Allocated(s, addr, when, interval), addr) == 0
  {
    var s1 := Allocated(s, addr, when, interval);
    AllocatedPlaces(s, addr, when, interval);
    AllocatedFreed(s, addr, when, interval);
    AllocatedSchedule(s, addr, when, interval);
    forall b | b in s1.heap && b != addr ensures OnePlace(s1, b) {
      assert OnePlace(s, b);
    }
  }

  lemma AllocatedPlaces(s: State, addr: nat, when: int, interval: real)
    requires IndexOk(s) && ActiveOk(s) && PlaceOk(s) && PostedOk(s) && addr !in s.heap && 0 < addr < TOP
    ensures var s1 := Allocated(s, addr, when, interval);
            && IndexOk(s1) && ActiveOk(s1) && PostedOk(s1)
            && !Waiting(s1, addr) && !InBatch(s1, addr) && !Posted(s1, addr)
            && forall b :: b in s.heap ==> && EntryOf(s1, b) == EntryOf(s, b) && (Waiting(s1, b) <==> Waiting(s, b))
                                           && (InBatch(s1, b) <==> InBatch(s, b)) && (Posted(s1, b) <==> Posted(s, b))
  {
    var s1 := Allocated(s, addr, when, interval);
    forall id: TimerId ensures id in s1.active <==> Waiting(s1, id.addr) && s1.heap[id.addr].sequence == id.sequence {
      if id.addr != addr { assert Waiting(s1, id.addr) <==> Waiting(s, id.addr); }
    }
  }

  lemma AllocatedFreed(s: State, addr: nat, when: int, interval: real)
    requires FreedOk(s) && addr !in s.heap
    ensures FreedOk(Allocated(s, addr, when, interval))
  {
    var s1 := Allocated(s, addr, when, interval);
    assert s1.heap[addr].sequence == s.created;
    forall q: nat | q < s1.created ensures Live(s1, q) || q in s1.freed {
      if q < s.created && q !in s.freed {
        var b :| b in s.heap && s.heap[b].sequence == q;
        assert b in s1.heap && s1.heap[b].sequence == q;
      }
    }
  }

  lemma AllocatedSchedule(s: State, addr: nat, when: int, interval: real)
    requires ScheduleOk(s) && FreedOk(s) && IndexOk(s) && addr !in s.heap
    ensures ScheduleOk(Allocated(s, addr, when, interval))
    ensures Rounds(Allocated(s, addr, when, interval), addr) == 0
  {
    var s1 := Allocated(s, addr, when, interval);
    assert s.created !in s.starts;
    assert multiset(s.starts)[s.created] == 0;
    RanOwned(s.phase);
    assert EntryOf(s1, addr) !in Ran(s1.phase);
    forall b | b in s1.heap ensures TimerOk(s1, b) {
      if b != addr {
        assert TimerOk(s, b);
        assert Rounds(s1, b) == Rounds(s, b);
      } else {
        assert Rounds(s1, addr) == 0;
      }
    }
  }

  lemma RanOwned(p: Phase)
    ensures forall e :: e in Ran(p) ==> e in Owned(p)
  {
  }

  lemma IndexedInv(s: State, addr: nat)
    requires InvBut(s, addr)
    ensures Inv(Indexed(s, addr))
  {
    var s1 := Indexed(s, addr);
    InsertedOk(s.timers, EntryOf(s, addr));
    forall id: TimerId ensures id in s1.active <==> Waiting(s1, id.addr) && s1.heap[id.addr].sequence == id.sequence {
      if id.addr != addr { assert Waiting(s1, id.addr) <==> Waiting(s, id.addr); }
    }
    forall b | b in s1.heap ensures OnePlace(s1, b) {
      if b != addr { assert OnePlace(s, b); }
    }
    SameLives(s, s1);
    SameSchedule(s, s1);
  }

  /** Steps that change neither the heap nor the history keep what is said about them. */
  lemma SameLives(s: State, s': State)
    requires FreedOk(s) && s'.freed == s.freed && s'.created == s.created && s'.heap.Keys == s.heap.Keys
    requires forall a :: a in s.heap ==> s'.heap[a].sequence == s.heap[a].sequence
    ensures FreedOk(s')
  {
    forall q: nat | q < s'.created ensures Live(s', q) || q in s'.freed {
      if q !in s.freed {
        var a :| a in s.heap && s.heap[a].sequence == q;
        assert a in s'.heap && s'.heap[a].sequence == q;
      }
    }
  }

  lemma SameSchedule(s: State, s': State)
    requires ScheduleOk(s) && s'.starts == s.starts && s'.created >= s.created && s'.origin == s.origin
    requires forall a :: a in s'.heap ==> a in s.heap && s'.heap[a] == s.heap[a]
    requires forall a :: a in s'.heap ==> (EntryOf(s, a) in Ran(s'.phase) <==> EntryOf(s, a) in Ran(s.phase))
    requires forall a :: a in s'.heap && Posted(s', a) ==> Posted(s, a) || Rounds(s, a) == 0
    ensures ScheduleOk(s')
  {
    forall a | a in s'.heap ensures TimerOk(s', a) {
      assert TimerOk(s, a);
      assert Rounds(s', a) == Rounds(s, a);
    }
  }

  lemma SameActive(s: State, s': State)
    requires ActiveOk(s) && s'.active == s.active
    requires forall a :: Waiting(s', a) <==> Waiting(s, a)
    requires forall a :: Waiting(s, a) ==> a in s'.heap && s'.heap[a].sequence == s.heap[a].sequence
    ensures ActiveOk(s')
  {
    forall id: TimerId ensures id in s'.active <==> Waiting(s', id.addr) && s'.heap[id.addr].sequence == id.sequence {
      assert Waiting(s', id.addr) <==> Waiting(s, id.addr);
    }
  }

  /** The posted timers stay where they are while another timer is deleted. */
  lemma SamePosted(s: State, s': State, addr: nat)
    requires PostedOk(s) && s'.pending == s.pending && s'.heap == s.heap - {addr} && !Posted(s, addr)
    ensures PostedOk(s')
  {
    forall i | 0 <= i < |s'.pending| && s'.pending[i].Add? ensures s'.pending[i].addr in s'.heap {
      assert s.pending[i] in s.pending;
    }
  }

  lemma AddedInv(s: State, addr: nat)
    requires InvBut(s, addr)
    ensures Inv(AddedInLoop(s, addr))
  {
    IndexedInv(s, addr);
    SameButFd(Indexed(s, addr), AddedInLoop(s, addr));
  }

  lemma SameButFd(s: State, s': State)
    requires Inv(s) && s' == s.(fd := s'.fd, clock := s'.clock, reading := s'.reading, issued := s'.issued) && s.clock <= s'.clock
    ensures Inv(s')
  {
    SamePlaces(s, s');
    SameLives(s, s');
    SameSchedule(s, s');
  }

  lemma SamePlaces(s: State, s': State)
    requires IndexOk(s) && PlaceOk(s) && ActiveOk(s)
    requires s'.heap == s.heap && s'.timers == s.timers && s'.active == s.active
    requires Owned(s'.phase) == Owned(s.phase) && forall a :: Posted(s', a) <==> Posted(s, a)
    ensures IndexOk(s') && PlaceOk(s') && ActiveOk(s')
  {
    forall id: TimerId ensures id in s'.active <==> Waiting(s', id.addr) && s'.heap[id.addr].sequence == id.sequence {
      assert Waiting(s', id.addr) <==> Waiting(s, id.addr);
    }
    forall a | a in s'.heap ensures OnePlace(s', a) {
      assert OnePlace(s, a);
    }
  }

  lemma CreateInv(s: State, addr: nat, when: int, interval: real)
    requires Inv(s) && Enabled(s, Create(addr, when, interval))
    ensures Inv(Apply(s, Create(addr, when, interval)))
  {
    AllocatedInv(s, addr, when, interval);
    AddedInv(Allocated(s, addr, when, interval), addr);
    SameButFd(AddedInLoop(Allocated(s, addr, when, interval), addr), Apply(s, Create(addr, when, interval)));
  }

  lemma PostInv(s: State, t: nat, addr: nat, when: int, interval: real)
    requires Inv(s) && Enabled(s, Post(t, addr, when, interval))
    ensures Inv(Apply(s, Post(t, addr, when, interval)))
  {
    AllocatedInv(s, addr, when, interval);
    var s1 := Allocated(s, addr, when, interval);
    PostedInv(s1, addr);
    SameButFd(s1.(pending := s1.pending + [Add(addr)]), Apply(s, Post(t, addr, when, interval)));
  }

  lemma PostedInv(s1: State, addr: nat)
    requires InvBut(s1, addr) && Rounds(s1, addr) == 0
    ensures Inv(s1.(pending := s1.pending + [Add(addr)]))
  {
    var s2 := s1.(pending := s1.pending + [Add(addr)]);
    assert forall b :: Posted(s2, b) <==> Posted(s1, b) || b == addr;
    PostedPlaces(s1, s2, addr);
    SameLives(s1, s2);
    SameSchedule(s1, s2);
  }

  lemma PostedPlaces(s1: State, s2: State, addr: nat)
    requires InvBut(s1, addr) && s2 == s1.(pending := s2.pending)
    requires forall b :: Posted(s2, b) <==> Posted(s1, b) || b == addr
    ensures IndexOk(s2) && PlaceOk(s2) && ActiveOk(s2)
  {
    SameActive(s1, s2);
    forall b | b in s2.heap ensures OnePlace(s2, b) {
      if b != addr { assert OnePlace(s1, b); }
    }
  }

  lemma PostCancelInv(s: State, id: TimerId)
    requires Inv(s)
    ensures Inv(s.(pending := s.pending + [Drop(id)]))
  {
    var s' := s.(pending := s.pending + [Drop(id)]);
    SamePlaces(s, s');
    SameLives(s, s');
    SameSchedule(s, s');
  }

  // ---------------------------------------------------------------- canceling

  /** Deleting a timer that is in none of the places, or is leaving the one it was in. */
  lemma ForgottenInv(s: State, s': State, addr: nat)
    requires IndexOk(s) && ActiveOk(s) && FreedOk(s) && ScheduleOk(s) && addr in s.heap
    requires s'.heap == s.heap - {addr} && s'.freed == s.freed + [s.heap[addr].sequence]
    requires s'.created == s.created && s'.starts == s.starts && s'.origin == s.origin
    requires forall a :: Posted(s', a) ==> Posted(s, a)
    requires forall a :: a in s'.heap ==> (EntryOf(s, a) in Ran(s'.phase) <==> EntryOf(s, a) in Ran(s.phase))
    ensures FreedOk(s') && ScheduleOk(s')
  {
    forall q: nat | q < s'.created ensures Live(s', q) || q in s'.freed {
      if q !in s.freed && q != s.heap[addr].sequence {
        var a :| a in s.heap && s.heap[a].sequence == q;
        assert a in s'.heap && s'.heap[a].sequence == q;
      }
    }
    SameSchedule(s, s');
  }

  lemma CanceledInv(s: State, id: TimerId)
    requires Inv(s)
    ensures Canceled(s, id) <= s.heap.Keys && Inv(CanceledInLoop(s, id))
  {
    var s' := CanceledInLoop(s, id);
    if id in s.active {
      assert Waiting(s, id.addr) && OnePlace(s, id.addr);
      ForgottenInv(s, s', id.addr);
      CanceledPlaces(s, id);
      CanceledActive(s, id);
      SamePosted(s, s', id.addr);
    } else {
      SamePlaces(s, s');
      SameLives(s, s');
      SameSchedule(s, s');
    }
  }

  lemma CanceledPlaces(s: State, id: TimerId)
    requires IndexOk(s) && PlaceOk(s) && id in s.active && Waiting(s, id.addr)
    ensures IndexOk(CanceledInLoop(s, id)) && PlaceOk(CanceledInLoop(s, id))
  {
    var s' := CanceledInLoop(s, id);
    assert OnePlace(s, id.addr);
    RemovedOk(s.timers, EntryOf(s, id.addr));
    forall e | e in s'.timers || e in Owned(s'.phase) ensures Holds(s', e) {
      assert Holds(s, e);
      assert e != EntryOf(s, id.addr);
    }
    forall a | a in s'.heap ensures OnePlace(s', a) {
      assert OnePlace(s, a);
    }
  }

  lemma CanceledActive(s: State, id: TimerId)
    requires IndexOk(s) && ActiveOk(s) && id in s.active && Waiting(s, id.addr)
    ensures ActiveOk(CanceledInLoop(s, id))
  {
    var s' := CanceledInLoop(s, id);
    RemovedOk(s.timers, EntryOf(s, id.addr));
    forall x: TimerId ensures x in s'.active <==> Waiting(s', x.addr) && s'.heap[x.addr].sequence == x.sequence {
      if x.addr != id.addr { assert Waiting(s', x.addr) <==> Waiting(s, x.addr); }
    }
  }

  lemma FunctorInv(s: State)
    requires Inv(s) && Enabled(s, RunFunctor)
    ensures Safe(s, RunFunctor) && Inv(Apply(s, RunFunctor))
  {
    var s1, f := s.(pending := s.pending[1..]), s.pending[0];
    if f.Add? {
      PoppedAdd(s, f.addr);
      AddedInv(s1, f.addr);
    } else {
      PoppedDrop(s);
      CanceledInv(s1, f.id);
    }
  }

  lemma PoppedAdd(s: State, addr: nat)
    requires Inv(s) && s.pending != [] && s.pending[0] == Add(addr)
    ensures InvBut(s.(pending := s.pending[1..]), addr)
  {
    var s1 := s.(pending := s.pending[1..]);
    PoppedPosted(s, s1, addr);
    assert OnePlace(s, addr);
    SameLives(s, s1);
    SameSchedule(s, s1);
    SameActive(s, s1);
    forall b | b in s1.heap && b != addr ensures OnePlace(s1, b) {
      assert OnePlace(s, b);
    }
  }

  lemma PoppedPosted(s: State, s1: State, addr: nat)
    requires PostedOk(s) && s.pending != [] && s.pending[0] == Add(addr) && s1 == s.(pending := s.pending[1..])
    ensures PostedOk(s1) && !Posted(s1, addr) && forall a :: Posted(s, a) <==> Posted(s1, a) || a == addr
  {
    forall a | Posted(s, a) && a != addr ensures Posted(s1, a) {
      var k :| 0 <= k < |s.pending| && s.pending[k] == Add(a);
      assert s1.pending[k - 1] == Add(a);
    }
  }

  lemma PoppedDrop(s: State)
    requires Inv(s) && s.pending != [] && s.pending[0].Drop?
    ensures Inv(s.(pending := s.pending[1..]))
  {
    var s1 := s.(pending := s.pending[1..]);
    assert s.pending == [s.pending[0]] + s1.pending;
    assert forall a :: Posted(s, a) <==> Posted(s1, a);
    SamePlaces(s, s1);
    SameLives(s, s1);
    SameSchedule(s, s1);
  }

  // ---------------------------------------------------------------- running a batch

  /** Cutting an ordered set in two leaves no entry on both sides. */
  lemma CutOnce(ts: seq<Entry>, p: nat)
    requires Sorted(ts) && p <= |ts|
    ensures forall e :: e in ts <==> e in ts[..p] || e in ts[p..]
    ensures forall e :: !(e in ts[..p] && e in ts[p..])
    ensures Sorted(ts[..p]) && Sorted(ts[p..])
  {
    assert ts == ts[..p] + ts[p..];
    assert forall i, j :: 0 <= i < p && 0 <= j < |ts| - p ==> Before(ts[i], ts[p..][j]);
  }

  lemma TakenPlaces(s: State)
    requires Inv(s) && Enabled(s, Read) && Safe(s, Read)
    ensures forall e :: e in Batch(s) ==> e.addr in s.heap
    ensures var s' := BatchTaken(s);
            IndexOk(s') && PhaseOk(s') && PlaceOk(s')
  {
    TakenIndices(s);
    TakenPhase(s);
    var s', p := BatchTaken(s), Rank(s.timers, Entry(s.clock, TOP));
    CutOnce(s.timers, p);
    forall a | a in s'.heap ensures OnePlace(s', a) {
      assert OnePlace(s, a);
    }
  }

  lemma TakenIndices(s: State)
    requires IndexOk(s) && Enabled(s, Read) && Safe(s, Read)
    ensures forall e :: e in Batch(s) ==> e.addr in s.heap
    ensures IndexOk(BatchTaken(s))
  {
    var s', p := BatchTaken(s), Rank(s.timers, Entry(s.clock, TOP));
    CutOnce(s.timers, p);
    forall e | e in s'.timers || e in Owned(s'.phase) ensures Holds(s', e) {
      assert Holds(s, e);
    }
  }

  lemma TakenPhase(s: State)
    requires IndexOk(s) && Enabled(s, Read) && Safe(s, Read)
    requires forall e :: e in Batch(s) ==> e.addr in s.heap
    ensures PhaseOk(BatchTaken(s))
  {
    DueIsPrefix(s.timers, s.clock);
    CutOnce(s.timers, Rank(s.timers, Entry(s.clock, TOP)));
  }

  lemma TakenActive(s: State)
    requires IndexOk(s) && ActiveOk(s)
    requires forall e :: e in Batch(s) ==> e.addr in s.heap
    ensures ActiveOk(BatchTaken(s))
  {
    var s', p := BatchTaken(s), Rank(s.timers, Entry(s.clock, TOP));
    CutOnce(s.timers, p);
    forall id: TimerId ensures id in s'.active <==> Waiting(s', id.addr) && s'.heap[id.addr].sequence == id.sequence {
      if id in s.active {
        if EntryOf(s, id.addr) in Batch(s) { assert id !in s'.active; }
      }
    }
  }

  lemma TakenInv(s: State)
    requires Inv(s) && Enabled(s, Read) && Safe(s, Read)
    ensures Inv(BatchTaken(s))
  {
    var s' := BatchTaken(s);
    TakenPlaces(s);
    TakenActive(s);
    SameLives(s, s');
    SameSchedule(s, s');
  }

  lemma RanMore(b: seq<Entry>, n: nat)
    requires Sorted(b) && n < |b|
    ensures forall e :: e in b[..n + 1] <==> e in b[..n] || e == b[n]
    ensures b[n] !in b[..n] && b[n] !in b[n + 1..] && forall e :: e in b[n..] <==> e in b[n + 1..] || e == b[n]
  {
    assert b[n..] == [b[n]] + b[n + 1..];
    assert b[..n + 1] == b[..n] + [b[n]];
  }

  lemma StartedInv(s: State)
    requires Inv(s) && Enabled(s, Start) && Safe(s, Start)
    ensures Inv(Apply(s, Start))
  {
    var s' := Apply(s, Start);
    SamePlaces(s, s');
    SameLives(s, s');
    StartedSchedule(s, s');
  }

  lemma StartedSchedule(s: State, s': State)
    requires IndexOk(s) && PhaseOk(s) && FreedOk(s) && ScheduleOk(s) && PlaceOk(s)
    requires Enabled(s, Start) && Safe(s, Start) && s' == Apply(s, Start)
    ensures ScheduleOk(s')
  {
    var b, n := s.phase.batch, s.phase.next;
    RanMore(b, n);
    assert Holds(s, b[n]) by { assert b[n] in Owned(s.phase); }
    forall a | a in s'.heap ensures TimerOk(s', a) {
      assert TimerOk(s, a) && OnePlace(s, a);
      assert EntryOf(s, a) == b[n] <==> a == b[n].addr;
      assert Rounds(s', a) == Rounds(s, a);
    }
  }

  lemma EndBatchInv(s: State)
    requires Inv(s) && Enabled(s, EndBatch)
    ensures Inv(Apply(s, EndBatch))
  {
    var s' := Apply(s, EndBatch);
    assert s.phase.batch[0..] == s.phase.batch && s.phase.batch[..|s.phase.batch|] == s.phase.batch;
    SamePlaces(s, s');
    SameLives(s, s');
    SameSchedule(s, s');
  }

  lemma RearmInv(s: State)
    requires Inv(s) && Enabled(s, Rearm) && Safe(s, Rearm)
    ensures Inv(Apply(s, Rearm))
  {
    var s' := Apply(s, Rearm);
    assert Owned(s.phase) == [];
    SamePlaces(s, s');
    SameLives(s, s');
    SameSchedule(s, s');
  }

  /** What `reset` does to one timer of the batch, before it is put back or deleted. */
  function Advanced(s: State): State
    requires s.phase.Resetting?
  {
    s.(phase := Resetting(s.phase.batch, s.phase.next + 1, s.phase.now))
  }

  /** The timer `reset` looks at is in the batch and nowhere else. */
  lemma ResetTarget(s: State)
    requires Inv(s) && Enabled(s, Reclaim)
    ensures var b, n, addr := s.phase.batch, s.phase.next, s.phase.batch[s.phase.next].addr;
            && Holds(s, b[n]) && InBatch(s, addr) && !Waiting(s, addr) && !Posted(s, addr)
            && (forall e :: e in Owned(s.phase) <==> e in b[n + 1..] || e == b[n]) && b[n] !in b[n + 1..]
            && (forall e :: e in b[n + 1..] || e in s.timers ==> Holds(s, e) && e.addr != addr)
  {
    var b, n := s.phase.batch, s.phase.next;
    RanMore(b, n);
    assert b[n] in Owned(s.phase);
    assert OnePlace(s, b[n].addr);
    forall e | e in b[n + 1..] || e in s.timers ensures Holds(s, e) && e.addr != b[n].addr {
      assert e in Owned(s.phase) || e in s.timers;
      assert e != b[n];
    }
  }

  lemma ResetPlaces(s: State, s1: State)
    requires Inv(s) && Enabled(s, Reclaim)
    requires s1 == Advanced(s).(heap := s1.heap, freed := s1.freed)
    requires forall a :: a in s1.heap ==> a in s.heap && s1.heap[a].sequence == s.heap[a].sequence
    requires forall a :: a in s.heap && a != s.phase.batch[s.phase.next].addr ==> a in s1.heap && s1.heap[a] == s.heap[a]
    ensures IndexOk(s1) && PhaseOk(s1) && ActiveOk(s1)
    ensures var addr := s.phase.batch[s.phase.next].addr;
            && !Waiting(s1, addr) && !InBatch(s1, addr)
            && forall a :: a in s1.heap && a != addr ==> OnePlace(s1, a)
  {
    var addr := s.phase.batch[s.phase.next].addr;
    ResetTarget(s);
    forall a | a in s1.heap && a != addr ensures OnePlace(s1, a) {
      assert OnePlace(s, a);
      assert EntryOf(s1, a) == EntryOf(s, a) != s.phase.batch[s.phase.next];
    }
    forall e | e in s1.timers || e in Owned(s1.phase) ensures Holds(s1, e) {
      assert Holds(s, e);
    }
    assert !Waiting(s1, addr);
    forall a ensures Waiting(s1, a) <==> Waiting(s, a) {
    }
    SameActive(s, s1);
  }

  lemma ResetDeletes(s: State, s': State)
    requires Inv(s) && Enabled(s, Reclaim)
    requires var addr := s.phase.batch[s.phase.next].addr;
             && addr in s.heap
             && s' == Advanced(s).(heap := s.heap - {addr}, freed := s.freed + [s.heap[addr].sequence])
    ensures Inv(s')
  {
    var addr := s.phase.batch[s.phase.next].addr;
    ResetTarget(s);
    ResetPlaces(s, s');
    forall a | a in s'.heap ensures EntryOf(s, a) in Ran(s'.phase) <==> EntryOf(s, a) in Ran(s.phase) {
      assert EntryOf(s, a) != s.phase.batch[s.phase.next];
    }
    ForgottenInv(s, s', addr);
    SamePosted(s, s', addr);
  }

  lemma ResetRestarts(s: State, s1: State)
    requires Inv(s) && Enabled(s, Reclaim)
    requires var addr := s.phase.batch[s.phase.next].addr;
             && addr in s.heap && s.heap[addr].repeat
             && s1 == Advanced(s).(heap := s.heap[addr := s.heap[addr].Restarted()])
    ensures InvBut(s1, s.phase.batch[s.phase.next].addr)
  {
    ResetTarget(s);
    ResetPlaces(s, s1);
    SameLives(s, s1);
    RestartSchedule(s, s1);
  }

  lemma RestartSchedule(s: State, s1: State)
    requires Inv(s) && Enabled(s, Reclaim)
    requires var addr := s.phase.batch[s.phase.next].addr;
             && addr in s.heap && s.heap[addr].repeat
             && s1 == Advanced(s).(heap := s.heap[addr := s.heap[addr].Restarted()])
    ensures ScheduleOk(s1)
  {
    var addr := s.phase.batch[s.phase.next].addr;
    ResetTarget(s);
    forall a | a in s1.heap ensures TimerOk(s1, a) {
      if a == addr {
        assert Rounds(s1, a) == Rounds(s, a) + 1;
        RestartedTimer(s, s1, addr);
      } else {
        assert TimerOk(s, a);
        assert EntryOf(s, a) != s.phase.batch[s.phase.next];
        assert Rounds(s1, a) == Rounds(s, a);
      }
    }
  }

  /** One round more, one period later, however late the batch ran. */
  lemma RestartedTimer(s: State, s1: State, addr: nat)
    requires addr in s.heap && TimerOk(s, addr) && s.heap[addr].repeat && !Posted(s1, addr)
    requires s1.origin == s.origin && addr in s1.heap && s1.heap[addr] == s.heap[addr].Restarted()
    requires Rounds(s1, addr) == Rounds(s, addr) + 1
    ensures TimerOk(s1, addr)
  {
    var r, p := Rounds(s, addr), s.heap[addr].Period();
    assert (r + 1) * p == r * p + p;
  }

  lemma ResetInv(s: State)
    requires Inv(s) && Enabled(s, Reclaim) && Safe(s, Reclaim)
    ensures Inv(Apply(s, Reclaim))
  {
    var addr := s.phase.batch[s.phase.next].addr;
    var t := s.heap[addr];
    if t.repeat && TimerId(addr, t.sequence) !in s.canceling {
      var s1 := Advanced(s).(heap := s.heap[addr := t.Restarted()]);
      ResetRestarts(s, s1);
      IndexedInv(s1, addr);
    } else {
      ResetDeletes(s, Apply(s, Reclaim));
    }
  }

  lemma StepInv(s: State, a: Action)
    requires Inv(s) && Enabled(s, a) && Safe(s, a)
    ensures Inv(Apply(s, a))
  {
    match a
    case Create(addr, when, interval) => CreateInv(s, addr, when, interval);
    case Post(t, addr, when, interval) => PostInv(s, t, addr, when, interval);
    case ReadId(_) => SameButFd(s, Apply(s, a));
    case Cancel(id) => CanceledInv(s, id);
    case PostCancel(id) => PostCancelInv(s, id);
    case RunFunctor => FunctorInv(s);
    case Tick(d) => SameButFd(s, Apply(s, a));
    case Fire => SameButFd(s, Apply(s, a));
    case Read => TakenInv(s);
    case Start => StartedInv(s);
    case EndBatch => EndBatchInv(s);
    case Reclaim => ResetInv(s);
    case Rearm => RearmInv(s);
  }
}
