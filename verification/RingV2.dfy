/** The double-word variant of base/MPMCQueueV2.h, and its simulation by the single-word ring:
    while positions do not wrap the version tags decide nothing. */
module RingV2 {
  import opened Wrappers
  import opened Slots
  import R = Ring
  import RT = RingTheorems

  /** `DoubleWord`: compared and swapped as a whole. */
  datatype Word = Word(value: nat, tag: nat)

  datatype Cell<T> = Cell(sequence: Word, data: Option<T>)

  datatype Shared<T> = Shared(k: nat, cells: seq<Cell<T>>, enqueuePos: Word, dequeuePos: Word) {
    ghost predicate WellSized() { |cells| == Pow2(k) }
  }

  /** As in the single-word ring; after a failed compare-and-swap the reload is a step of its
      own (`EnqReload`, `DeqReload`). */
  datatype Local<T> =
    | Idle
    | EnqLoadPos(item: T)
    | EnqLoadSeq(item: T, pos: Word)
    | EnqTest(item: T, pos: Word, sequence: Word)
    | EnqReload(item: T, pos: Word, sequence: Word)
    | EnqWrite(item: T, pos: Word)
    | EnqPublish(pos: Word)
    | EnqDone(pos: Word)
    | EnqFull(pos: Word)
    | DeqLoadPos
    | DeqLoadSeq(pos: Word)
    | DeqTest(pos: Word, sequence: Word)
    | DeqReload(pos: Word, sequence: Word)
    | DeqRead(pos: Word)
    | DeqRelease(pos: Word, out: Option<T>)
    | DeqDone(pos: Word, out: Option<T>)
    | DeqEmpty(pos: Word)
  {
    predicate Finished() { EnqDone? || EnqFull? || DeqDone? || DeqEmpty? }
    predicate Running() { !Idle? && !Finished() }
    predicate Enqueuing() {
      EnqLoadPos? || EnqLoadSeq? || EnqTest? || EnqReload? || EnqWrite? || EnqPublish?
    }
  }

  function Exec<T>(m: Shared<T>, l: Local<T>): (r: (Shared<T>, Local<T>))
    requires m.WellSized() && l.Running()
    ensures r.0.WellSized() && r.0.k == m.k
  {
    match l
    case EnqLoadPos(item) => (m, EnqLoadSeq(item, m.enqueuePos))
    case EnqLoadSeq(item, pos) => (m, EnqTest(item, pos, m.cells[Slot(pos.value, m.k)].sequence))
    case EnqTest(item, pos, sq) =>
      if sq.value == pos.value then
        if m.enqueuePos == pos then
          (m.(enqueuePos := Word(pos.value + 1, pos.tag)), EnqWrite(item, pos))
        else (m, EnqReload(item, pos, sq))
      else if sq.value < pos.value then (m, EnqFull(pos))
      else (m, EnqLoadPos(item))
    case EnqReload(item, _, _) => (m, EnqLoadSeq(item, m.enqueuePos))
    case EnqWrite(item, pos) =>
      var i := Slot(pos.value, m.k);
      (m.(cells := m.cells[i := m.cells[i].(data := Some(item))]), EnqPublish(pos))
    case EnqPublish(pos) =>
      var i := Slot(pos.value, m.k);
      (m.(cells := m.cells[i := m.cells[i].(sequence := Word(pos.value + 1, pos.tag))]), EnqDone(pos))
    case DeqLoadPos => (m, DeqLoadSeq(m.dequeuePos))
    case DeqLoadSeq(pos) => (m, DeqTest(pos, m.cells[Slot(pos.value, m.k)].sequence))
    case DeqTest(pos, sq) =>
      if sq.value == pos.value + 1 then
        if m.dequeuePos == pos then
          (m.(dequeuePos := Word(pos.value + 1, pos.tag)), DeqRead(pos))
        else (m, DeqReload(pos, sq))
      else if sq.value < pos.value + 1 then (m, DeqEmpty(pos))
      else (m, DeqLoadPos)
    case DeqReload(_, _) => (m, DeqLoadSeq(m.dequeuePos))
    case DeqRead(pos) =>
      var i := Slot(pos.value, m.k);
      (m.(cells := m.cells[i := m.cells[i].(data := None)]), DeqRelease(pos, m.cells[i].data))
    case DeqRelease(pos, out) =>
      var i := Slot(pos.value, m.k);
      (m.(cells := m.cells[i := m.cells[i].(sequence := Word(pos.value + Pow2(m.k), pos.tag + 1))]),
       DeqDone(pos, out))
  }

  datatype State<T> = State(mem: Shared<T>, threads: map<nat, Local<T>>)

  datatype Action<T> =
    | CallEnqueue(t: nat, item: T)
    | CallDequeue(t: nat)
    | Step(t: nat)
    | Return(t: nat)

  function Init<T>(k: nat, tids: set<nat>): State<T> {
    State(Shared(k, seq(Pow2(k), (i: nat) => Cell(Word(i, 0), None)), Word(0, 0), Word(0, 0)),
          map t | t in tids :: Idle)
  }

  predicate Enabled<T>(s: State<T>, a: Action<T>) {
    a.t in s.threads &&
    match a
    case CallEnqueue(t, _) => s.threads[t].Idle?
    case CallDequeue(t) => s.threads[t].Idle?
    case Step(t) => s.threads[t].Running()
    case Return(t) => s.threads[t].Finished()
  }

  function Apply<T>(s: State<T>, a: Action<T>): (s': State<T>)
    requires s.mem.WellSized() && Enabled(s, a)
    ensures s'.mem.WellSized() && s'.mem.k == s.mem.k && s'.threads.Keys == s.threads.Keys
  {
    match a
    case CallEnqueue(t, item) => s.(threads := s.threads[t := EnqLoadPos(item)])
    case CallDequeue(t) => s.(threads := s.threads[t := DeqLoadPos])
    case Return(t) => s.(threads := s.threads[t := Idle])
    case Step(t) =>
      var (m', l') := Exec(s.mem, s.threads[t]);
      State(m', s.threads[t := l'])
  }

  ghost predicate Legal<T>(s: State<T>, acts: seq<Action<T>>)
    requires s.mem.WellSized()
    decreases |acts|
  {
    acts == [] || (Enabled(s, acts[0]) && Legal(Apply(s, acts[0]), acts[1..]))
  }

  ghost function Run<T>(s: State<T>, acts: seq<Action<T>>): (s': State<T>)
    requires s.mem.WellSized() && Legal(s, acts)
    ensures s'.mem.WellSized() && s'.mem.k == s.mem.k
    decreases |acts|
  {
    if acts == [] then s else Run(Apply(s, acts[0]), acts[1..])
  }

  // ---------------------------------------------------------------- dropping the tags

  ghost function DropCell<T>(c: Cell<T>): R.Cell<T> { R.Cell(c.sequence.value, c.data) }

  ghost function DropMemory<T>(m: Shared<T>): R.Shared<T> {
    R.Shared(m.k, seq(|m.cells|, i requires 0 <= i < |m.cells| => DropCell(m.cells[i])),
             m.enqueuePos.value, m.dequeuePos.value)
  }

  /** A pending reload is the single-word ring's compare-and-swap that is going to fail. */
  ghost function DropLocal<T>(l: Local<T>): R.Local<T> {
    match l
    case Idle => R.Idle
    case EnqLoadPos(item) => R.EnqLoadPos(item)
    case EnqLoadSeq(item, pos) => R.EnqLoadSeq(item, pos.value)
    case EnqTest(item, pos, sq) => R.EnqTest(item, pos.value, sq.value)
    case EnqReload(item, pos, sq) => R.EnqTest(item, pos.value, sq.value)
    case EnqWrite(item, pos) => R.EnqWrite(item, pos.value)
    case EnqPublish(pos) => R.EnqPublish(pos.value)
    case EnqDone(pos) => R.EnqDone(pos.value)
    case EnqFull(pos) => R.EnqFull(pos.value)
    case DeqLoadPos => R.DeqLoadPos
    case DeqLoadSeq(pos) => R.DeqLoadSeq(pos.value)
    case DeqTest(pos, sq) => R.DeqTest(pos.value, sq.value)
    case DeqReload(pos, sq) => R.DeqTest(pos.value, sq.value)
    case DeqRead(pos) => R.DeqRead(pos.value)
    case DeqRelease(pos, out) => R.DeqRelease(pos.value, out)
    case DeqDone(pos, out) => R.DeqDone(pos.value, out)
    case DeqEmpty(pos) => R.DeqEmpty(pos.value)
  }

  ghost function LocalTag<T>(l: Local<T>): nat {
    if l.Idle? || l.EnqLoadPos? || l.DeqLoadPos? then 0 else l.pos.tag
  }

  /** A reload is pending only after a successful test. */
  ghost predicate ReloadOk<T>(l: Local<T>) {
    && (l.EnqReload? ==> l.sequence.value == l.pos.value)
    && (l.DeqReload? ==> l.sequence.value == l.pos.value + 1)
  }

  ghost predicate MemoryTags<T>(m: Shared<T>) {
    && m.enqueuePos.tag == 0 && m.dequeuePos.tag == 0
    && (forall i :: 0 <= i < |m.cells| ==> m.cells[i].sequence.tag <= 1)
  }

  /** The position tags are 0 and the cell tags 0 or 1, everywhere. */
  ghost predicate Tags<T>(s: State<T>) {
    && MemoryTags(s.mem)
    && (forall t :: t in s.threads ==> LocalTag(s.threads[t]) == 0 && ReloadOk(s.threads[t]))
  }

  lemma StepTags<T>(m: Shared<T>, l: Local<T>)
    requires m.WellSized() && l.Running() && MemoryTags(m) && LocalTag(l) == 0 && ReloadOk(l)
    ensures MemoryTags(Exec(m, l).0) && LocalTag(Exec(m, l).1) == 0 && ReloadOk(Exec(m, l).1)
  {
  }

  lemma {:induction false} TagsNeverMove<T>(s: State<T>, acts: seq<Action<T>>)
    requires s.mem.WellSized() && Tags(s) && Legal(s, acts)
    ensures Tags(Run(s, acts))
    decreases |acts|
  {
    if acts != [] {
      if acts[0].Step? {
        StepTags(s.mem, s.threads[acts[0].t]);
      }
      TagsNeverMove(Apply(s, acts[0]), acts[1..]);
    }
  }

  /** Each double-word compare-and-swap succeeds exactly when the single-word one would. */
  lemma SameCas<T>(m: Shared<T>, l: Local<T>)
    requires m.WellSized() && MemoryTags(m) && l.Running() && LocalTag(l) == 0
    ensures l.EnqTest? ==>
      (Exec(m, l).1.EnqWrite? <==> R.Exec(DropMemory(m), DropLocal(l), false).1.EnqWrite?)
    ensures l.DeqTest? ==>
      (Exec(m, l).1.DeqRead? <==> R.Exec(DropMemory(m), DropLocal(l), false).1.DeqRead?)
  {
  }

  /** The step after which a failed compare-and-swap waits for its reload: it changes nothing
      that the single-word ring can see. */
  ghost predicate Stutters<T>(m: Shared<T>, l: Local<T>)
    requires m.WellSized() && l.Running()
  {
    Exec(m, l).1.EnqReload? || Exec(m, l).1.DeqReload?
  }

  lemma SimulateExec<T>(m: Shared<T>, l: Local<T>)
    requires m.WellSized() && l.Running() && MemoryTags(m) && LocalTag(l) == 0 && ReloadOk(l)
    ensures var (m', l') := Exec(m, l);
      if Stutters(m, l) then DropMemory(m') == DropMemory(m) && DropLocal(l') == DropLocal(l)
      else R.Exec(DropMemory(m), DropLocal(l), l.EnqReload? || l.DeqReload?) == (DropMemory(m'), DropLocal(l'))
  {
    var (m', l') := Exec(m, l);
    if l.EnqWrite? || l.EnqPublish? || l.DeqRead? || l.DeqRelease? {
      var i := Slot(l.pos.value, m.k);
      var c := DropMemory(m).cells;
      assert DropMemory(m').cells == c[i := DropCell(m'.cells[i])];
    }
  }

  /** The two systems are in the same state up to the tags. */
  ghost predicate Matches<T>(s: State<T>, r: R.State<T>) {
    && r.mem == DropMemory(s.mem) && r.threads.Keys == s.threads.Keys
    && (forall t :: t in s.threads ==> r.threads[t] == DropLocal(s.threads[t]))
  }

  /** The actions of the single-word ring that answer one action. */
  ghost function Answer<T>(s: State<T>, a: Action<T>): seq<R.Action<T>>
    requires s.mem.WellSized() && Enabled(s, a)
  {
    match a
    case CallEnqueue(t, item) => [R.CallEnqueue(t, item)]
    case CallDequeue(t) => [R.CallDequeue(t)]
    case Return(t) => [R.Return(t)]
    case Step(t) =>
      var l := s.threads[t];
      if Stutters(s.mem, l) then [] else [R.Step(t, l.EnqReload? || l.DeqReload?)]
  }

  lemma RingStep<T>(r: R.State<T>, t: nat, spurious: bool)
    requires r.mem.WellSized() && R.Enabled(r, R.Step(t, spurious))
    ensures var r', (m', l') := R.Apply(r, R.Step(t, spurious)), R.Exec(r.mem, r.threads[t], spurious);
      r'.mem == m' && r'.threads == r.threads[t := l']
  {
    var (m', l') := R.Exec(r.mem, r.threads[t], spurious);
    RecordMoves(r, t, r.threads[t], m', l');
  }

  lemma RecordMoves<T>(r: R.State<T>, t: nat, l: R.Local<T>, m': R.Shared<T>, l': R.Local<T>)
    ensures R.Record(r, t, l, m', l').mem == m' && R.Record(r, t, l, m', l').threads == r.threads[t := l']
  {
  }

  lemma StepAnswerMatches<T>(s: State<T>, r: R.State<T>, t: nat)
    requires s.mem.WellSized() && Enabled(s, Step(t)) && Tags(s) && Matches(s, r)
    ensures r.mem.WellSized() && MemoryTags(Apply(s, Step(t)).mem) && Tags(Apply(s, Step(t)))
    ensures var b := Answer(s, Step(t));
      if b == [] then Matches(Apply(s, Step(t)), r)
      else R.Enabled(r, b[0]) && Matches(Apply(s, Step(t)), R.Apply(r, b[0]))
  {
    var l := s.threads[t];
    StepTags(s.mem, l);
    SimulateExec(s.mem, l);
    DropRunning(l);
    if !Stutters(s.mem, l) {
      RingStep(r, t, l.EnqReload? || l.DeqReload?);
    }
  }

  /** The locals a call or a return leaves its thread with. */
  ghost function CallLocal<T>(a: Action<T>): Local<T> {
    match a
    case CallEnqueue(_, item) => EnqLoadPos(item)
    case CallDequeue(_) => DeqLoadPos
    case _ => Idle
  }

  lemma CallAnswer<T>(s: State<T>, r: R.State<T>, a: Action<T>)
    requires s.mem.WellSized() && r.mem.WellSized() && Enabled(s, a) && !a.Step?
    requires a.t in r.threads && r.threads[a.t] == DropLocal(s.threads[a.t])
    ensures |Answer(s, a)| == 1 && R.Enabled(r, Answer(s, a)[0])
    ensures R.Apply(r, Answer(s, a)[0]) == r.(threads := r.threads[a.t := DropLocal(CallLocal(a))])
    ensures Apply(s, a) == s.(threads := s.threads[a.t := CallLocal(a)])
  {
  }

  lemma UpdateMatches<T>(s: State<T>, r: R.State<T>, t: nat, l: Local<T>)
    requires Tags(s) && Matches(s, r) && t in s.threads && LocalTag(l) == 0 && ReloadOk(l)
    ensures Tags(s.(threads := s.threads[t := l]))
    ensures Matches(s.(threads := s.threads[t := l]), r.(threads := r.threads[t := DropLocal(l)]))
  {
  }

  lemma AnswerMatches<T>(s: State<T>, r: R.State<T>, a: Action<T>)
    requires s.mem.WellSized() && Enabled(s, a) && Tags(s) && Matches(s, r)
    ensures r.mem.WellSized()
    ensures R.Legal(r, Answer(s, a)) && Matches(Apply(s, a), R.Run(r, Answer(s, a))) && Tags(Apply(s, a))
  {
    if a.Step? {
      StepAnswerMatches(s, r, a.t);
    } else {
      CallAnswer(s, r, a);
      UpdateMatches(s, r, a.t, CallLocal(a));
    }
    var b := Answer(s, a);
    if b != [] {
      RT.Unfold(r, b);
    }
  }

  lemma DropRunning<T>(l: Local<T>)
    ensures DropLocal(l).Running() == l.Running()
  {
  }

  /** Every run of the double-word ring is answered, step for step, by a run of the single-word
      ring that passes through the same states up to the tags. */
  lemma {:induction false} Simulates<T>(s: State<T>, r: R.State<T>, acts: seq<Action<T>>)
    returns (answers: seq<R.Action<T>>)
    requires s.mem.WellSized() && Tags(s) && Matches(s, r) && Legal(s, acts)
    ensures r.mem.WellSized() && |answers| <= |acts|
    ensures R.Legal(r, answers) && Matches(Run(s, acts), R.Run(r, answers))
    decreases |acts|
  {
    answers := [];
    if acts != [] {
      AnswerMatches(s, r, acts[0]);
      var first := Answer(s, acts[0]);
      var rest := Simulates(Apply(s, acts[0]), R.Run(r, first), acts[1..]);
      RT.RunThen(r, first, rest);
      answers := first + rest;
    }
  }

  /** So everything proved of the single-word ring's reachable states holds of the double-word
      ring's: in particular no item is lost, duplicated or reordered. */
  lemma ReachesOnlyRingStates<T(!new)>(k: nat, tids: set<nat>, acts: seq<Action<T>>) returns (r: R.State<T>)
    requires Legal(Init<T>(k, tids), acts)
    ensures RT.Reachable(r, k, tids) && Matches(Run(Init<T>(k, tids), acts), r)
    ensures Tags(Run(Init<T>(k, tids), acts))
  {
    var s0, r0 := Init<T>(k, tids), R.Init<T>(k, tids);
    assert DropMemory(s0.mem).cells == r0.mem.cells;
    var answers := Simulates(s0, r0, acts);
    TagsNeverMove(s0, acts);
    r := R.Run(r0, answers);
  }

  // ---------------------------------------------------------------- the object

  class MPMCQueueV2<T> {
    const k: nat
    const buffer: array<Cell<T>>
    var enqueuePos: Word
    var dequeuePos: Word

    ghost predicate Valid()
      reads this, buffer
    {
      buffer.Length == Pow2(k)
    }

    ghost function Memory(): Shared<T>
      reads this, buffer
    {
      Shared(k, buffer[..], enqueuePos, dequeuePos)
    }

    constructor (k: nat)
      ensures Valid() && fresh(buffer) && this.k == k
      ensures Memory() == Init<T>(k, {}).mem
    {
      var cells := new Cell<T>[Pow2(k)](_ => Cell(Word(0, 0), None));
      for i := 0 to cells.Length
        invariant forall j :: 0 <= j < i ==> cells[j] == Cell(Word(j, 0), None)
        invariant forall j :: i <= j < cells.Length ==> cells[j] == Cell(Word(0, 0), None)
      {
        cells[i] := cells[i].(sequence := Word(i, 0));
      }
      this.k := k;
      buffer := cells;
      enqueuePos, dequeuePos := Word(0, 0), Word(0, 0);
    }

    /** The next atomic step of a thread inside `enqueue`, lines 124-167. */
    method StepEnqueue(l: Local<T>) returns (l': Local<T>)
      requires Valid() && l.Enqueuing()
      modifies this, buffer
      ensures Valid() && (Memory(), l') == Exec(old(Memory()), l)
    {
      match l {
        case EnqLoadPos(item) => l' := EnqLoadSeq(item, enqueuePos);
        case EnqLoadSeq(item, pos) => l' := EnqTest(item, pos, buffer[Slot(pos.value, k)].sequence);
        case EnqTest(item, pos, sq) =>
          if sq.value == pos.value {
            if enqueuePos == pos {
              enqueuePos := Word(pos.value + 1, pos.tag);
              l' := EnqWrite(item, pos);
            } else {
              l' := EnqReload(item, pos, sq);
            }
          } else if sq.value < pos.value {
            l' := EnqFull(pos);
          } else {
            l' := EnqLoadPos(item);
          }
        case EnqReload(item, _, _) => l' := EnqLoadSeq(item, enqueuePos);
        case EnqWrite(item, pos) =>
          var i := Slot(pos.value, k);
          buffer[i] := buffer[i].(data := Some(item));
          l' := EnqPublish(pos);
        case EnqPublish(pos) =>
          var i := Slot(pos.value, k);
          buffer[i] := buffer[i].(sequence := Word(pos.value + 1, pos.tag));
          l' := EnqDone(pos);
      }
    }

    /** The next atomic step of a thread inside `dequeue`, lines 172-209. */
    method StepDequeue(l: Local<T>) returns (l': Local<T>)
      requires Valid() && l.Running() && !l.Enqueuing()
      modifies this, buffer
      ensures Valid() && (Memory(), l') == Exec(old(Memory()), l)
    {
      match l {
        case DeqLoadPos => l' := DeqLoadSeq(dequeuePos);
        case DeqLoadSeq(pos) => l' := DeqTest(pos, buffer[Slot(pos.value, k)].sequence);
        case DeqTest(pos, sq) =>
          if sq.value == pos.value + 1 {
            if dequeuePos == pos {
              dequeuePos := Word(pos.value + 1, pos.tag);
              l' := DeqRead(pos);
            } else {
              l' := DeqReload(pos, sq);
            }
          } else if sq.value < pos.value + 1 {
            l' := DeqEmpty(pos);
          } else {
            l' := DeqLoadPos;
          }
        case DeqReload(_, _) => l' := DeqLoadSeq(dequeuePos);
        case DeqRead(pos) =>
          var i := Slot(pos.value, k);
          l' := DeqRelease(pos, buffer[i].data);
          buffer[i] := buffer[i].(data := None);
        case DeqRelease(pos, out) =>
          var i := Slot(pos.value, k);
          buffer[i] := buffer[i].(sequence := Word(pos.value + Pow2(k), pos.tag + 1));
          l' := DeqDone(pos, out);
      }
    }
  }
}
