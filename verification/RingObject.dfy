/** The queue object itself: cells and counters updated in place, one atomic step at a time. */
module RingObject {
  import opened Wrappers
  import opened Slots
  import opened Ring

  class MPMCQueue<T> {
    const k: nat
    const buffer: array<Cell<T>>
    var enqueuePos: nat
    var dequeuePos: nat

    ghost predicate Valid()
      reads this, buffer
    {
      buffer.Length == Pow2(k)
    }

    ghost function Memory(): Shared<T>
      reads this, buffer
    {
      Shared(k, buffer[..], enqueuePos, dequeuePos)
    }

    constructor (k: nat)
      ensures Valid() && fresh(buffer) && this.k == k
      ensures Memory() == Init<T>(k, {}).mem
    {
      var cells := new Cell<T>[Pow2(k)](_ => Cell(0, None));
      for i := 0 to cells.Length
        invariant forall j :: 0 <= j < i ==> cells[j] == Cell(j, None)
        invariant forall j :: i <= j < cells.Length ==> cells[j] == Cell(0, None)
      {
        cells[i] := cells[i].(sequence := i);
      }
      this.k := k;
      buffer := cells;
      enqueuePos := 0;
      dequeuePos := 0;
    }

    /** `compare_exchange_weak` on `enqueuePos_`. */
    method CasEnqueuePos(expected: nat, spurious: bool) returns (ok: bool)
      modifies this`enqueuePos
      ensures ok == (old(enqueuePos) == expected && !spurious)
      ensures enqueuePos == if ok then expected + 1 else old(enqueuePos)
    {
      ok := enqueuePos == expected && !spurious;
      if ok { enqueuePos := expected + 1; }
    }

    method CasDequeuePos(expected: nat, spurious: bool) returns (ok: bool)
      modifies this`dequeuePos
      ensures ok == (old(dequeuePos) == expected && !spurious)
      ensures dequeuePos == if ok then expected + 1 else old(dequeuePos)
    {
      ok := dequeuePos == expected && !spurious;
      if ok { dequeuePos := expected + 1; }
    }

    /** The next atomic step of a thread inside `enqueue`, lines 49-78. */
    method StepEnqueue(l: Local<T>, spurious: bool) returns (l': Local<T>)
      requires Valid() && (l.EnqLoadPos? || l.EnqLoadSeq? || l.EnqTest? || l.OwnsWrite())
      modifies this, buffer
      ensures Valid() && (Memory(), l') == Exec(old(Memory()), l, spurious)
    {
      match l {
        case EnqLoadPos(item) =>
          l' := EnqLoadSeq(item, enqueuePos);
        case EnqLoadSeq(item, pos) =>
          l' := EnqTest(item, pos, buffer[Slot(pos, k)].sequence);
        case EnqTest(item, pos, sq) =>
          var diff := Diff(sq, pos);
          if diff == 0 {
            var ok := CasEnqueuePos(pos, spurious);
            l' := if ok then EnqWrite(item, pos) else EnqLoadSeq(item, enqueuePos);
          } else if diff < 0 {
            l' := EnqFull(pos);
          } else {
            l' := EnqLoadPos(item);
          }
        case EnqWrite(item, pos) =>
          var i := Slot(pos, k);
          buffer[i] := buffer[i].(data := Some(item));
          l' := EnqPublish(pos);
        case EnqPublish(pos) =>
          var i := Slot(pos, k);
          buffer[i] := buffer[i].(sequence := pos + 1);
          l' := EnqDone(pos);
      }
    }

    /** The next atomic step of a thread inside `dequeue`, lines 82-112. */
    method StepDequeue(l: Local<T>, spurious: bool) returns (l': Local<T>)
      requires Valid() && (l.DeqLoadPos? || l.DeqLoadSeq? || l.DeqTest? || l.OwnsRead())
      modifies this, buffer
      ensures Valid() && (Memory(), l') == Exec(old(Memory()), l, spurious)
    {
      match l {
        case DeqLoadPos =>
          l' := DeqLoadSeq(dequeuePos);
        case DeqLoadSeq(pos) =>
          l' := DeqTest(pos, buffer[Slot(pos, k)].sequence);
        case DeqTest(pos, sq) =>
          var diff := Diff(sq, pos + 1);
          if diff == 0 {
            var ok := CasDequeuePos(pos, spurious);
            l' := if ok then DeqRead(pos) else DeqLoadSeq(dequeuePos);
          } else if diff < 0 {
            l' := DeqEmpty(pos);
          } else {
            l' := DeqLoadPos;
          }
        case DeqRead(pos) =>
          var i := Slot(pos, k);
          l' := DeqRelease(pos, buffer[i].data);
          buffer[i] := buffer[i].(data := None);
        case DeqRelease(pos, out) =>
          var i := Slot(pos, k);
          buffer[i] := buffer[i].(sequence := pos + Pow2(k));
          l' := DeqDone(pos, out);
      }
    }

    /** Run alone, `enqueue` appends its item, unless the ring is full. */
    method EnqueueAlone(item: T, ghost q: seq<T>) returns (ok: bool)
      requires Valid() && Settled(Memory(), q)
      modifies this, buffer
      ensures Valid() && ok == (|q| < Pow2(k))
      ensures Settled(Memory(), if ok then q + [item] else q)
    {
      var l := EnqLoadPos(item);
      ghost var m, pos := Memory(), enqueuePos;
      ghost var i := Slot(pos, k);
      FullOrWritable(m, q);
      if |q| < Pow2(k) { EnqueueSettles(m, q, item); }
      while l.Running()
        invariant Valid()
        invariant match l
          case EnqLoadPos(x) => Memory() == m && x == item
          case EnqLoadSeq(x, p) => Memory() == m && x == item && p == pos
          case EnqTest(x, p, sq) => Memory() == m && x == item && p == pos && sq == m.cells[i].sequence
          case EnqWrite(x, p) => Memory() == m.(enqueuePos := pos + 1) && x == item && p == pos && |q| < Pow2(k)
          case EnqPublish(p) => p == pos && |q| < Pow2(k) &&
            Memory() == m.(enqueuePos := pos + 1, cells := m.cells[i := Cell(pos, Some(item))])
          case EnqDone(p) => |q| < Pow2(k) &&
            Memory() == m.(enqueuePos := pos + 1, cells := m.cells[i := Cell(pos + 1, Some(item))])
          case EnqFull(_) => Memory() == m && |q| == Pow2(k)
          case _ => false
        decreases match l case EnqLoadPos(_) => 5 case EnqLoadSeq(_, _) => 4 case EnqTest(_, _, _) => 3
                    case EnqWrite(_, _) => 2 case EnqPublish(_) => 1 case _ => 0
      {
        l := StepEnqueue(l, false);
      }
      ok := l.EnqDone?;
    }

    /** Run alone, `dequeue` removes the front item, unless the ring is empty. */
    method DequeueAlone(ghost q: seq<T>) returns (result: Option<T>)
      requires Valid() && Settled(Memory(), q)
      modifies this, buffer
      ensures Valid() && result == if q == [] then None else Some(q[0])
      ensures Settled(Memory(), if q == [] then q else q[1..])
    {
      var l := DeqLoadPos;
      ghost var m, pos := Memory(), dequeuePos;
      ghost var i := Slot(pos, k);
      EmptyOrReadable(m, q);
      if q != [] { DequeueSettles(m, q); }
      while l.Running()
        invariant Valid()
        invariant match l
          case DeqLoadPos => Memory() == m
          case DeqLoadSeq(p) => Memory() == m && p == pos
          case DeqTest(p, sq) => Memory() == m && p == pos && sq == m.cells[i].sequence
          case DeqRead(p) => Memory() == m.(dequeuePos := pos + 1) && p == pos && q != []
          case DeqRelease(p, out) => p == pos && q != [] && out == Some(q[0]) &&
            Memory() == m.(dequeuePos := pos + 1, cells := m.cells[i := Cell(pos + 1, None)])
          case DeqDone(p, out) => q != [] && out == Some(q[0]) &&
            Memory() == m.(dequeuePos := pos + 1, cells := m.cells[i := Cell(pos + Pow2(k), None)])
          case DeqEmpty(_) => Memory() == m && q == []
          case _ => false
        decreases match l case DeqLoadPos => 5 case DeqLoadSeq(_) => 4 case DeqTest(_, _) => 3
                    case DeqRead(_) => 2 case DeqRelease(_, _) => 1 case _ => 0
      {
        l := StepDequeue(l, false);
      }
      result := if l.DeqDone? then l.out else None;
    }

    /** `approximate_size`, lines 115-119: exact when nobody is inside. */
    method ApproximateSize(ghost q: seq<T>) returns (n: nat)
      requires Valid() && Settled(Memory(), q)
      ensures n == |q|
    {
      var e := enqueuePos;
      var d := dequeuePos;
      n := if e >= d then e - d else 0;
    }
  }

  /** The cell the next `enqueue` looks at. */
  lemma FullOrWritable<T>(m: Shared<T>, q: seq<T>)
    requires Settled(m, q)
    ensures var sq := m.cells[Slot(m.enqueuePos, m.k)].sequence;
      if |q| < Pow2(m.k) then sq == m.enqueuePos else sq < m.enqueuePos
  {
    SlotLap(m.dequeuePos, m.dequeuePos + Pow2(m.k), m.k);
  }

  /** The cell the next `dequeue` looks at. */
  lemma EmptyOrReadable<T>(m: Shared<T>, q: seq<T>)
    requires Settled(m, q)
    ensures var c := m.cells[Slot(m.dequeuePos, m.k)];
      if q == [] then c.sequence < m.dequeuePos + 1 else c == Cell(m.dequeuePos + 1, Some(q[0]))
  {
  }

  lemma EnqueueSettles<T>(m: Shared<T>, q: seq<T>, item: T)
    requires Settled(m, q) && |q| < Pow2(m.k)
    ensures var pos := m.enqueuePos;
      Settled(m.(enqueuePos := pos + 1, cells := m.cells[Slot(pos, m.k) := Cell(pos + 1, Some(item))]), q + [item])
  {
    SlotLaps(m.k);
  }

  lemma DequeueSettles<T>(m: Shared<T>, q: seq<T>)
    requires Settled(m, q) && q != []
    ensures var pos := m.dequeuePos;
      Settled(m.(dequeuePos := pos + 1, cells := m.cells[Slot(pos, m.k) := Cell(pos + Pow2(m.k), None)]), q[1..])
  {
    SlotLaps(m.k);
  }
}
