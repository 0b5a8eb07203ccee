/** The bounded multi-producer multi-consumer ring of base/MPMCQueue.h as a transition
    system: any number of threads, each atomic load, compare-and-swap, data move and
    sequence store one step, all interleavings, sequentially consistent memory. */
module Ring {
  import opened Wrappers
  import opened Slots

  /** A slot of `buffer_`. `None` is a slot whose item has been moved out (or never set). */
  datatype Cell<T> = Cell(sequence: nat, data: Option<T>)

  /** The shared memory of one queue of capacity `Pow2(k)`. */
  datatype Shared<T> = Shared(k: nat, cells: seq<Cell<T>>, enqueuePos: nat, dequeuePos: nat) {
    ghost predicate WellSized() { |cells| == Pow2(k) }
  }

  /** A thread's program counter with its local `pos`, `seq` and item. */
  datatype Local<T> =
    | Idle
    | EnqLoadPos(item: T)
    | EnqLoadSeq(item: T, pos: nat)
    | EnqTest(item: T, pos: nat, sequence: nat)
    | EnqWrite(item: T, pos: nat)
    | EnqPublish(pos: nat)
    | EnqDone(pos: nat)
    | EnqFull(pos: nat)
    | DeqLoadPos
    | DeqLoadSeq(pos: nat)
    | DeqTest(pos: nat, sequence: nat)
    | DeqRead(pos: nat)
    | DeqRelease(pos: nat, out: Option<T>)
    | DeqDone(pos: nat, out: Option<T>)
    | DeqEmpty(pos: nat)
  {
    /** Between the claiming compare-and-swap and the publishing store. */
    predicate OwnsWrite() { EnqWrite? || EnqPublish? }
    /** Between the claiming compare-and-swap and the releasing store. */
    predicate OwnsRead() { DeqRead? || DeqRelease? }
    predicate Finished() { EnqDone? || EnqFull? || DeqDone? || DeqEmpty? }
    /** Inside `enqueue` or `dequeue`, so that it has a next atomic step. */
    predicate Running() { !Idle? && !Finished() }
  }

  /** `diff` of lines 56 and 92: the sign decides between claim, give up and reload. */
  function Diff(sequence: nat, expected: nat): int { sequence - expected }

  /** One atomic step of a running thread on the shared memory. `spurious` makes a weak
      compare-and-swap fail although the value matches. */
  function Exec<T>(m: Shared<T>, l: Local<T>, spurious: bool): (r: (Shared<T>, Local<T>))
    requires m.WellSized() && l.Running()
    ensures r.0.WellSized() && r.0.k == m.k
  {
    match l
    case EnqLoadPos(item) => (m, EnqLoadSeq(item, m.enqueuePos))
    case EnqLoadSeq(item, pos) => (m, EnqTest(item, pos, m.cells[Slot(pos, m.k)].sequence))
    case EnqTest(item, pos, sq) =>
      var diff := Diff(sq, pos);
      if diff == 0 then
        if m.enqueuePos == pos && !spurious then (m.(enqueuePos := pos + 1), EnqWrite(item, pos))
        else (m, EnqLoadSeq(item, m.enqueuePos))
      else if diff < 0 then (m, EnqFull(pos))
      else (m, EnqLoadPos(item))
    case EnqWrite(item, pos) =>
      var i := Slot(pos, m.k);
      (m.(cells := m.cells[i := m.cells[i].(data := Some(item))]), EnqPublish(pos))
    case EnqPublish(pos) =>
      var i := Slot(pos, m.k);
      (m.(cells := m.cells[i := m.cells[i].(sequence := pos + 1)]), EnqDone(pos))
    case DeqLoadPos => (m, DeqLoadSeq(m.dequeuePos))
    case DeqLoadSeq(pos) => (m, DeqTest(pos, m.cells[Slot(pos, m.k)].sequence))
    case DeqTest(pos, sq) =>
      var diff := Diff(sq, pos + 1);
      if diff == 0 then
        if m.dequeuePos == pos && !spurious then (m.(dequeuePos := pos + 1), DeqRead(pos))
        else (m, DeqLoadSeq(m.dequeuePos))
      else if diff < 0 then (m, DeqEmpty(pos))
      else (m, DeqLoadPos)
    case DeqRead(pos) =>
      var i := Slot(pos, m.k);
      (m.(cells := m.cells[i := m.cells[i].(data := None)]), DeqRelease(pos, m.cells[i].data))
    case DeqRelease(pos, out) =>
      var i := Slot(pos, m.k);
      (m.(cells := m.cells[i := m.cells[i].(sequence := pos + Pow2(m.k))]), DeqDone(pos, out))
  }

  datatype Op<T> = Enq(item: T) | Deq(item: T)

  /** The whole system. `items`, `writing`, `reading`, `taken` and `log` are history that no
      thread reads: the item claimed for each position, who holds each claimed and not yet
      published or released position, what was moved out of each position, and the successful
      operations in the order of their claiming compare-and-swaps. */
  datatype State<T> = State(
    mem: Shared<T>,
    threads: map<nat, Local<T>>,
    items: seq<T>,
    writing: map<nat, nat>,
    reading: map<nat, nat>,
    taken: map<nat, Option<T>>,
    log: seq<Op<T>>)

  datatype Action<T> =
    | CallEnqueue(t: nat, item: T)
    | CallDequeue(t: nat)
    | Step(t: nat, spurious: bool)
    | Return(t: nat)

  /** The constructor, lines 30-37, with every thread outside the queue. */
  function Init<T>(k: nat, tids: set<nat>): State<T> {
    State(Shared(k, seq(Pow2(k), (i: nat) => Cell(i, None)), 0, 0), map t | t in tids :: Idle,
          [], map[], map[], map[], [])
  }

  predicate Enabled<T>(s: State<T>, a: Action<T>) {
    a.t in s.threads &&
    match a
    case CallEnqueue(t, _) => s.threads[t].Idle?
    case CallDequeue(t) => s.threads[t].Idle?
    case Step(t, _) => s.threads[t].Running()
    case Return(t) => s.threads[t].Finished()
  }

  /** Did this step win the claiming compare-and-swap of `enqueue` (or `dequeue`)? */
  predicate Claims<T>(before: Local<T>, after: Local<T>) {
    (before.EnqTest? && after.EnqWrite?) || (before.DeqTest? && after.DeqRead?)
  }

  /** The history after thread `t` stepped from `l` to `l'` and memory became `m'`. */
  function Record<T>(s: State<T>, t: nat, l: Local<T>, m': Shared<T>, l': Local<T>): State<T> {
    var s' := s.(mem := m', threads := s.threads[t := l']);
    match l'
    case EnqWrite(item, pos) =>
      s'.(items := s.items + [item], writing := s.writing[pos := t], log := s.log + [Enq(item)])
    case EnqDone(pos) => s'.(writing := s.writing - {pos})
    case DeqRead(pos) =>
      if pos < |s.items| then
        s'.(reading := s.reading[pos := t], log := s.log + [Deq(s.items[pos])])
      else s'.(reading := s.reading[pos := t])
    case DeqRelease(pos, out) => s'.(taken := s.taken[pos := out])
    case DeqDone(pos, out) => s'.(reading := s.reading - {pos})
    case _ => s'
  }

  function Apply<T>(s: State<T>, a: Action<T>): (s': State<T>)
    requires s.mem.WellSized() && Enabled(s, a)
    ensures s'.mem.WellSized() && s'.mem.k == s.mem.k && s'.threads.Keys == s.threads.Keys
  {
    match a
    case CallEnqueue(t, item) => s.(threads := s.threads[t := EnqLoadPos(item)])
    case CallDequeue(t) => s.(threads := s.threads[t := DeqLoadPos])
    case Return(t) => s.(threads := s.threads[t := Idle])
    case Step(t, spurious) =>
      var l := s.threads[t];
      var (m', l') := Exec(s.mem, l, spurious);
      Record(s, t, l, m', l')
  }

  /** `acts` can be taken one after the other from `s`. */
  ghost predicate Legal<T>(s: State<T>, acts: seq<Action<T>>)
    requires s.mem.WellSized()
    decreases |acts|
  {
    acts == [] || (Enabled(s, acts[0]) && Legal(Apply(s, acts[0]), acts[1..]))
  }

  ghost function Run<T>(s: State<T>, acts: seq<Action<T>>): (s': State<T>)
    requires s.mem.WellSized() && Legal(s, acts)
    ensures s'.mem.WellSized() && s'.mem.k == s.mem.k && s'.threads.Keys == s.threads.Keys
    decreases |acts|
  {
    if acts == [] then s else Run(Apply(s, acts[0]), acts[1..])
  }

  // ---------------------------------------------------------------- the invariant

  ghost predicate Bounds<T>(s: State<T>) {
    var m := s.mem;
    m.WellSized() && m.k >= 1 &&
    m.dequeuePos <= m.enqueuePos <= m.dequeuePos + Pow2(m.k) && |s.items| == m.enqueuePos
  }

  /** `writing` and `reading` name exactly the threads that own a position. */
  ghost predicate Owners<T>(s: State<T>) {
    && (forall t :: t in s.threads && s.threads[t].OwnsWrite() ==>
          s.threads[t].pos in s.writing && s.writing[s.threads[t].pos] == t)
    && (forall t :: t in s.threads && s.threads[t].OwnsRead() ==>
          s.threads[t].pos in s.reading && s.reading[s.threads[t].pos] == t)
    && (forall p :: p in s.writing ==> (
          && s.mem.dequeuePos <= p < s.mem.enqueuePos
          && s.writing[p] in s.threads && s.threads[s.writing[p]].OwnsWrite() && s.threads[s.writing[p]].pos == p))
    && (forall p :: p in s.reading ==> (
          && p < s.mem.dequeuePos && s.mem.enqueuePos <= p + Pow2(s.mem.k)
          && s.reading[p] in s.threads && s.threads[s.reading[p]].OwnsRead() && s.threads[s.reading[p]].pos == p))
  }

  /** The state of the cell that position `q` of the current lap uses. */
  ghost predicate CellOk<T>(s: State<T>, q: nat)
    requires Bounds(s) && s.mem.dequeuePos <= q < s.mem.dequeuePos + Pow2(s.mem.k)
  {
    var c := s.mem.cells[Slot(q, s.mem.k)];
    if q < s.mem.enqueuePos then
      if q in s.writing then c.sequence == q
      else c.sequence == q + 1 && c.data == Some(s.items[q])
    else if q - Pow2(s.mem.k) in s.reading then c.sequence == q - Pow2(s.mem.k) + 1
    else c.sequence == q && c.data == None
  }

  ghost predicate Window<T>(s: State<T>)
    requires Bounds(s)
  {
    forall q {:trigger CellOk(s, q)} :: s.mem.dequeuePos <= q < s.mem.dequeuePos + Pow2(s.mem.k) ==> CellOk(s, q)
  }

  /** What a thread's locals say, relative to the shared memory. */
  ghost predicate LocalOk<T>(s: State<T>, l: Local<T>)
    requires Bounds(s)
  {
    var m := s.mem;
    match l
    case EnqLoadSeq(_, pos) => pos <= m.enqueuePos
    case EnqTest(_, pos, sq) => pos <= m.enqueuePos && sq <= m.cells[Slot(pos, m.k)].sequence
    case EnqWrite(item, pos) => pos < m.enqueuePos && s.items[pos] == item && m.cells[Slot(pos, m.k)].data == None
    case EnqPublish(pos) => pos < m.enqueuePos && m.cells[Slot(pos, m.k)].data == Some(s.items[pos])
    case EnqDone(pos) => pos < m.enqueuePos && pos !in s.writing
    case DeqLoadSeq(pos) => pos <= m.dequeuePos
    case DeqTest(pos, sq) => pos <= m.dequeuePos && sq <= m.cells[Slot(pos, m.k)].sequence
    case DeqRead(pos) => pos < m.dequeuePos && pos !in s.taken && m.cells[Slot(pos, m.k)].data == Some(s.items[pos])
    case DeqRelease(pos, out) =>
      pos < m.dequeuePos && pos in s.taken && out == Some(s.items[pos]) && m.cells[Slot(pos, m.k)].data == None
    case DeqDone(pos, out) => pos in s.taken && pos !in s.reading && pos < m.dequeuePos && out == Some(s.items[pos])
    case _ => true
  }

  ghost predicate Locals<T>(s: State<T>)
    requires Bounds(s)
  {
    forall t :: t in s.threads ==> LocalOk(s, s.threads[t])
  }

  /** `taken` holds, for each claimed position whose item has left the ring, that item. */
  ghost predicate Taken<T>(s: State<T>)
    requires Bounds(s)
  {
    && (forall p :: p in s.taken ==> p < s.mem.dequeuePos && s.taken[p] == Some(s.items[p]))
    && (forall p {:trigger p in s.taken} :: 0 <= p < s.mem.dequeuePos && p !in s.taken ==>
          p in s.reading && s.reading[p] in s.threads && s.threads[s.reading[p]].DeqRead?)
  }

  ghost predicate Core<T>(s: State<T>) {
    Bounds(s) && Owners(s) && Window(s) && Locals(s) && Taken(s)
  }

  /** The logged operations, in the order of their compare-and-swaps, are a run of a sequential
      queue that ends with the present contents. */
  ghost predicate Linear<T>(s: State<T>)
    requires Bounds(s)
  {
    && Replay([], s.log) == Some(Contents(s))
    && EnqueuedBy(s.log) == s.items
    && DequeuedBy(s.log) == s.items[..s.mem.dequeuePos]
  }

  ghost predicate Inv<T>(s: State<T>) { Core(s) && Linear(s) }

  // ---------------------------------------------------------------- the sequential queue

  /** Runs a sequential first-in first-out queue; `None` when a `Deq` names an item that is
      not the one at the front. */
  ghost function Replay<T>(q: seq<T>, log: seq<Op<T>>): Option<seq<T>> {
    if log == [] then Some(q)
    else
      match Replay(q, log[..|log| - 1])
      case None => None
      case Some(r) =>
        match log[|log| - 1]
        case Enq(x) => Some(r + [x])
        case Deq(x) => if r != [] && r[0] == x then Some(r[1..]) else None
  }

  ghost function EnqueuedBy<T>(log: seq<Op<T>>): seq<T> {
    if log == [] then []
    else EnqueuedBy(log[..|log| - 1]) + (match log[|log| - 1] case Enq(x) => [x] case Deq(_) => [])
  }

  ghost function DequeuedBy<T>(log: seq<Op<T>>): seq<T> {
    if log == [] then []
    else DequeuedBy(log[..|log| - 1]) + (match log[|log| - 1] case Enq(_) => [] case Deq(x) => [x])
  }

  /** The abstract queue: items claimed by an `enqueue` and by no `dequeue` yet. */
  ghost function Contents<T>(s: State<T>): seq<T> {
    if s.mem.dequeuePos <= |s.items| then s.items[s.mem.dequeuePos..] else []
  }

  /** The memory of a ring that no thread is inside of and that holds `q`. */
  ghost predicate Settled<T>(m: Shared<T>, q: seq<T>) {
    && m.WellSized() && m.k >= 1
    && m.enqueuePos == m.dequeuePos + |q| && |q| <= Pow2(m.k)
    && (forall p :: m.dequeuePos <= p < m.enqueuePos ==>
          m.cells[Slot(p, m.k)] == Cell(p + 1, Some(q[p - m.dequeuePos])))
    && (forall p :: m.enqueuePos <= p < m.dequeuePos + Pow2(m.k) ==> m.cells[Slot(p, m.k)].sequence == p)
  }
}
