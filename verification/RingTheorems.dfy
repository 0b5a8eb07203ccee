/** What the ring promises, for any number of producers and consumers and every interleaving. */
module RingTheorems {
  import opened Wrappers
  import opened Slots
  import opened Ring
  import opened RingInvariant

  /** `s` can be reached by some run of a ring of capacity `Pow2(k)` used by threads `tids`. */
  ghost predicate Reachable<T(!new)>(s: State<T>, k: nat, tids: set<nat>) {
    exists acts :: Legal(Init<T>(k, tids), acts) && Run(Init<T>(k, tids), acts) == s
  }

  lemma ReachableInv<T(!new)>(s: State<T>, k: nat, tids: set<nat>)
    requires k >= 1 && Reachable(s, k, tids)
    ensures Inv(s) && s.mem.k == k
  {
    var acts :| Legal(Init<T>(k, tids), acts) && Run(Init<T>(k, tids), acts) == s;
    InitInv<T>(k, tids);
    RunInv(Init<T>(k, tids), acts);
  }

  /** One step of a sequential first-in first-out queue: a winning compare-and-swap of `enqueue`
      appends its item, one of `dequeue` removes the front item, all else changes nothing. */
  ghost predicate FifoStep<T>(s: State<T>, s': State<T>, t: nat)
    requires t in s.threads && t in s'.threads
  {
    var l, l' := s.threads[t], s'.threads[t];
    if Claims(l, l') && l'.EnqWrite? then Contents(s') == Contents(s) + [l.item]
    else if Claims(l, l') then l'.pos < |s.items| && Contents(s) == [s.items[l'.pos]] + Contents(s')
    else Contents(s') == Contents(s)
  }

  /** Every step of every run refines a step of the sequential queue, whose length never
      exceeds the capacity. */
  lemma RefinesFifo<T(!new)>(s: State<T>, k: nat, tids: set<nat>, a: Action<T>)
    requires k >= 1 && Reachable(s, k, tids) && Enabled(s, a)
    ensures s.mem.WellSized() && FifoStep(s, Apply(s, a), a.t)
    ensures |Contents(s)| == s.mem.enqueuePos - s.mem.dequeuePos <= Pow2(k)
  {
    ReachableInv(s, k, tids);
    StepIsFifo(s, a);
  }

  lemma StepIsFifo<T>(s: State<T>, a: Action<T>)
    requires Core(s) && Enabled(s, a)
    ensures FifoStep(s, Apply(s, a), a.t)
  {
    var l := s.threads[a.t];
    assert LocalOk(s, l);
    if a.Step? {
      if l.DeqTest? && l.pos == s.mem.dequeuePos && l.sequence == l.pos + 1 {
        ReadableAtClaim(s, l.pos, l.sequence);
      }
      if l.EnqTest? || l.EnqLoadPos? || l.EnqLoadSeq? || l.OwnsWrite() {
        EnqueueRefines(s, a.t, a.spurious);
      } else if l.DeqTest? {
        DequeueTestRefines(s, a.t, a.spurious);
      } else {
        DequeuePlainRefines(s, a.t, a.spurious);
      }
    }
  }

  lemma EnqueueRefines<T>(s: State<T>, t: nat, spurious: bool)
    requires Bounds(s) && Enabled(s, Step(t, spurious))
    requires var l := s.threads[t]; l.EnqTest? || l.EnqLoadPos? || l.EnqLoadSeq? || l.OwnsWrite()
    ensures FifoStep(s, Apply(s, Step(t, spurious)), t)
  {
  }

  lemma DequeuePlainRefines<T>(s: State<T>, t: nat, spurious: bool)
    requires s.mem.WellSized() && Enabled(s, Step(t, spurious))
    requires var l := s.threads[t]; l.DeqLoadPos? || l.DeqLoadSeq? || l.OwnsRead()
    ensures FifoStep(s, Apply(s, Step(t, spurious)), t)
  {
  }

  lemma DequeueTestRefines<T>(s: State<T>, t: nat, spurious: bool)
    requires Bounds(s) && t in s.threads && s.threads[t].DeqTest?
    requires var l := s.threads[t]; l.pos == s.mem.dequeuePos && l.sequence == l.pos + 1 ==> l.pos < |s.items|
    ensures FifoStep(s, Apply(s, Step(t, spurious)), t)
  {
    var l, s' := s.threads[t], Apply(s, Step(t, spurious));
    DequeueTestMoves(s, t, spurious);
    if Claims(l, s'.threads[t]) {
      var d := s.mem.dequeuePos;
      assert s.items[d..] == [s.items[d]] + s.items[d + 1..];
    }
  }

  lemma DequeueTestMoves<T>(s: State<T>, t: nat, spurious: bool)
    requires s.mem.WellSized() && t in s.threads && s.threads[t].DeqTest?
    ensures var l, s' := s.threads[t], Apply(s, Step(t, spurious));
            && t in s'.threads && s'.items == s.items && !s'.threads[t].EnqWrite?
            && if Claims(l, s'.threads[t]) then
                 l.pos == s.mem.dequeuePos && l.sequence == l.pos + 1 && s'.threads[t] == DeqRead(l.pos)
                 && s'.mem.dequeuePos == l.pos + 1
               else s'.mem == s.mem
  {
  }

  /** The value that a `dequeue` claiming position `pos` returns is the item moved in by the
      `enqueue` that claimed `pos`, which is also the value the sequential queue's `pos`-th
      removal returns in the logged run. */
  lemma DequeueReturnsItsItem<T(!new)>(s: State<T>, k: nat, tids: set<nat>, t: nat)
    requires k >= 1 && Reachable(s, k, tids) && t in s.threads && s.threads[t].DeqDone?
    ensures Replay([], s.log).Some?
    ensures s.threads[t].pos < |DequeuedBy(s.log)| <= |EnqueuedBy(s.log)|
    ensures s.threads[t].out == Some(EnqueuedBy(s.log)[s.threads[t].pos])
    ensures s.threads[t].out == Some(DequeuedBy(s.log)[s.threads[t].pos])
  {
    ReachableInv(s, k, tids);
    assert LocalOk(s, s.threads[t]);
  }

  /** No duplication: a position whose item is being moved out has never been moved out. */
  lemma ItemMovedOutOnce<T(!new)>(s: State<T>, k: nat, tids: set<nat>, t: nat, spurious: bool)
    requires k >= 1 && Reachable(s, k, tids) && t in s.threads && s.threads[t].DeqRead?
    ensures s.threads[t].pos !in s.taken && s.threads[t].pos < |s.items|
    ensures s.mem.WellSized()
    ensures Apply(s, Step(t, spurious)).taken == s.taken[s.threads[t].pos := Some(s.items[s.threads[t].pos])]
  {
    ReachableInv(s, k, tids);
    MovesOut(s, t, spurious);
  }

  lemma MovesOut<T>(s: State<T>, t: nat, spurious: bool)
    requires Bounds(s) && t in s.threads && s.threads[t].DeqRead? && LocalOk(s, s.threads[t])
    ensures s.threads[t].pos !in s.taken && s.threads[t].pos < |s.items|
    ensures Apply(s, Step(t, spurious)).taken == s.taken[s.threads[t].pos := Some(s.items[s.threads[t].pos])]
  {
  }

  /** The claimant of `p` has not yet moved its item into the cell. */
  ghost predicate InHand<T>(s: State<T>, p: nat) {
    p in s.writing && s.writing[p] in s.threads && s.threads[s.writing[p]].EnqWrite?
  }

  ghost predicate InCell<T>(s: State<T>, p: nat)
    requires s.mem.WellSized()
  {
    var c := s.mem.cells[Slot(p, s.mem.k)];
    (c.sequence == p || c.sequence == p + 1) && p < |s.items| && c.data == Some(s.items[p])
  }

  /** No loss and no duplication: the item of each claimed position is in exactly one of its
      producer's hand, its cell, and the values moved out. */
  lemma ItemInOnePlace<T(!new)>(s: State<T>, k: nat, tids: set<nat>, p: nat)
    requires k >= 1 && Reachable(s, k, tids) && p < |s.items|
    ensures s.mem.WellSized()
    ensures p in s.taken ==> s.taken[p] == Some(s.items[p]) && !InHand(s, p)
    ensures InHand(s, p) ==> p !in s.taken && s.threads[s.writing[p]].item == s.items[p]
    ensures InCell(s, p) <==> !InHand(s, p) && p !in s.taken
  {
    ReachableInv(s, k, tids);
    EmptiedCell(s, p);
    if p in s.writing {
      assert LocalOk(s, s.threads[s.writing[p]]);
    }
    if p >= s.mem.dequeuePos {
      assert CellOk(s, p);
      UnreadItemInCell(s, p);
    } else if p !in s.taken {
      assert LocalOk(s, s.threads[s.reading[p]]);
      assert CellOk(s, p + Pow2(k));
      ReadingItemInCell(s, p);
    }
  }

  /** A position in its producer's hand, or moved out, has left no item in its cell. */
  lemma EmptiedCell<T>(s: State<T>, p: nat)
    requires Bounds(s) && Owners(s) && Window(s) && Locals(s) && Taken(s)
    ensures InHand(s, p) || p in s.taken ==> !InCell(s, p)
  {
    if InHand(s, p) {
      assert LocalOk(s, s.threads[s.writing[p]]);
    } else if p in s.taken {
      if p in s.reading {
        assert LocalOk(s, s.threads[s.reading[p]]);
      }
      CurrentSequence(s, p);
    }
  }

  lemma ReadingItemInCell<T>(s: State<T>, p: nat)
    requires Bounds(s) && p < s.mem.dequeuePos && p in s.reading && s.mem.enqueuePos <= p + Pow2(s.mem.k)
    requires CellOk(s, p + Pow2(s.mem.k))
    requires s.reading[p] in s.threads && LocalOk(s, s.threads[s.reading[p]])
    requires s.threads[s.reading[p]].DeqRead? && s.threads[s.reading[p]].pos == p
    ensures InCell(s, p)
  {
    SlotLap(p, p + Pow2(s.mem.k), s.mem.k);
  }

  lemma UnreadItemInCell<T>(s: State<T>, p: nat)
    requires Bounds(s) && s.mem.dequeuePos <= p < |s.items| && CellOk(s, p)
    requires p in s.writing ==> s.writing[p] in s.threads
    requires p in s.writing ==> s.threads[s.writing[p]].OwnsWrite() && s.threads[s.writing[p]].pos == p
    requires p in s.writing ==> LocalOk(s, s.threads[s.writing[p]])
    ensures !InHand(s, p) ==> InCell(s, p)
  {
  }

  /** At most one thread at a time is between its claim and its sequence store on a cell, so
      no two threads access the same cell's data. */
  lemma CellHasOneOwner<T(!new)>(s: State<T>, k: nat, tids: set<nat>, t: nat, u: nat)
    requires k >= 1 && Reachable(s, k, tids) && t in s.threads && u in s.threads && t != u
    requires s.threads[t].OwnsWrite() || s.threads[t].OwnsRead()
    requires s.threads[u].OwnsWrite() || s.threads[u].OwnsRead()
    ensures Slot(s.threads[t].pos, k) != Slot(s.threads[u].pos, k)
  {
    ReachableInv(s, k, tids);
    OwnedApart(s, s.threads[t].pos, s.threads[u].pos);
  }

  ghost predicate Published<T>(s: State<T>, p: nat) { p < s.mem.enqueuePos && p !in s.writing }

  ghost predicate Released<T>(s: State<T>, p: nat) { p < s.mem.dequeuePos && p !in s.reading }

  /** At its sequence load an `enqueue` sees "full" exactly when the position one lap back has
      not been released by its consumer. */
  lemma EnqueueFailsExactly<T(!new)>(s: State<T>, k: nat, tids: set<nat>, t: nat, spurious: bool)
    requires k >= 1 && Reachable(s, k, tids) && t in s.threads && s.threads[t].EnqLoadSeq?
    ensures s.mem.WellSized()
    ensures var l' := Apply(s, Step(t, spurious)).threads[t];
      l'.EnqTest? && (Diff(l'.sequence, l'.pos) < 0 <==>
        s.threads[t].pos >= Pow2(k) && !Released(s, s.threads[t].pos - Pow2(k)))
  {
    ReachableInv(s, k, tids);
    assert LocalOk(s, s.threads[t]);
    CurrentSequence(s, s.threads[t].pos);
    LoadsSequence(s, t, spurious);
  }

  lemma LoadsSequence<T>(s: State<T>, t: nat, spurious: bool)
    requires s.mem.WellSized() && t in s.threads && (s.threads[t].EnqLoadSeq? || s.threads[t].DeqLoadSeq?)
    ensures var l, l' := s.threads[t], Apply(s, Step(t, spurious)).threads[t];
      (if l.EnqLoadSeq? then l'.EnqTest? else l'.DeqTest?) && l'.pos == l.pos &&
      l'.sequence == s.mem.cells[Slot(l.pos, s.mem.k)].sequence
  {
  }

  /** At its sequence load a `dequeue` sees "empty" exactly when its position has not been
      published: either unclaimed, or claimed by a producer that has not finished. */
  lemma DequeueFailsExactly<T(!new)>(s: State<T>, k: nat, tids: set<nat>, t: nat, spurious: bool)
    requires k >= 1 && Reachable(s, k, tids) && t in s.threads && s.threads[t].DeqLoadSeq?
    ensures s.mem.WellSized()
    ensures var l' := Apply(s, Step(t, spurious)).threads[t];
      l'.DeqTest? && (Diff(l'.sequence, l'.pos + 1) < 0 <==> !Published(s, s.threads[t].pos))
  {
    ReachableInv(s, k, tids);
    assert LocalOk(s, s.threads[t]);
    CurrentSequence(s, s.threads[t].pos);
    LoadsSequence(s, t, spurious);
  }

  /** The sequence number in the cell of any position up to the enqueue counter. */
  lemma CurrentSequence<T>(s: State<T>, pos: nat)
    requires Bounds(s) && Owners(s) && Window(s) && pos <= s.mem.enqueuePos
    ensures var sq, d, c := s.mem.cells[Slot(pos, s.mem.k)].sequence, s.mem.dequeuePos, Pow2(s.mem.k);
      && (pos < d ==> sq > pos)
      && (pos < d && pos !in s.reading ==> sq > pos + 1)
      && (pos == d + c ==> sq == d || sq == d + 1)
      && (d <= pos < d + c && pos in s.writing ==> sq == pos)
      && (d <= pos < s.mem.enqueuePos && pos !in s.writing ==> sq == pos + 1)
      && (d <= pos < d + c && pos == s.mem.enqueuePos ==>
            sq == if pos - c in s.reading then pos - c + 1 else pos)
  {
    var d, k := s.mem.dequeuePos, s.mem.k;
    SlotLaps(k);
    if pos == d + Pow2(k) {
      assert CellOk(s, d);
    } else if pos >= d {
      assert CellOk(s, pos);
    } else {
      var q := SamePlaceInWindow(pos, d, k);
      assert CellOk(s, q);
    }
  }

  lemma {:induction false} SamePlaceInWindow(pos: nat, d: nat, k: nat) returns (q: nat)
    requires pos < d
    ensures d <= q < d + Pow2(k) && Slot(q, k) == Slot(pos, k) && q >= pos + Pow2(k)
    decreases d - pos
  {
    q := pos + Pow2(k);
    SlotLap(pos, q, k);
    if q < d {
      q := SamePlaceInWindow(q, d, k);
    }
  }

  /** A stale successful test `seq == pos` is still valid, the cell being writable and
      unclaimed, exactly when the compare-and-swap that follows would succeed. */
  lemma StaleTestValidIffCasSucceeds<T(!new)>(s: State<T>, k: nat, tids: set<nat>, t: nat)
    requires k >= 1 && Reachable(s, k, tids) && t in s.threads && s.threads[t].EnqTest?
    requires s.threads[t].sequence == s.threads[t].pos
    ensures s.mem.WellSized()
    ensures var pos := s.threads[t].pos;
      Apply(s, Step(t, false)).threads[t].EnqWrite? <==>
        s.mem.cells[Slot(pos, k)].sequence == pos && pos !in s.writing
  {
    ReachableInv(s, k, tids);
    assert LocalOk(s, s.threads[t]);
    CurrentSequence(s, s.threads[t].pos);
    if s.threads[t].pos == s.mem.enqueuePos {
      WritableAtClaim(s, s.threads[t].pos, s.threads[t].pos);
    }
    CasSucceeds(s, t);
  }

  lemma CasSucceeds<T>(s: State<T>, t: nat)
    requires s.mem.WellSized() && t in s.threads
    ensures s.threads[t].EnqTest? && s.threads[t].sequence == s.threads[t].pos ==>
      (Apply(s, Step(t, false)).threads[t].EnqWrite? <==> s.threads[t].pos == s.mem.enqueuePos)
    ensures s.threads[t].DeqTest? && s.threads[t].sequence == s.threads[t].pos + 1 ==>
      (Apply(s, Step(t, false)).threads[t].DeqRead? <==> s.threads[t].pos == s.mem.dequeuePos)
  {
  }

  /** The same for `dequeue`: the cell is still published and unclaimed. */
  lemma StaleReadTestValidIffCasSucceeds<T(!new)>(s: State<T>, k: nat, tids: set<nat>, t: nat)
    requires k >= 1 && Reachable(s, k, tids) && t in s.threads && s.threads[t].DeqTest?
    requires s.threads[t].sequence == s.threads[t].pos + 1
    ensures s.mem.WellSized()
    ensures var pos := s.threads[t].pos;
      Apply(s, Step(t, false)).threads[t].DeqRead? <==>
        s.mem.cells[Slot(pos, k)].sequence == pos + 1 && pos !in s.reading
  {
    ReachableInv(s, k, tids);
    var pos := s.threads[t].pos;
    assert LocalOk(s, s.threads[t]);
    CurrentSequence(s, pos);
    if pos == s.mem.dequeuePos {
      ReadableAtClaim(s, pos, pos + 1);
    }
    CasSucceeds(s, t);
  }

  /** Whenever no thread is inside the ring, its memory is exactly that of a queue holding the
      contents: what a lone `enqueue` or `dequeue` starts from. */
  lemma IdleRingIsSettled<T(!new)>(s: State<T>, k: nat, tids: set<nat>)
    requires k >= 1 && Reachable(s, k, tids)
    requires forall t :: t in s.threads ==> s.threads[t].Idle?
    ensures Settled(s.mem, Contents(s))
  {
    ReachableInv(s, k, tids);
    IdleOwnsNothing(s);
    SettledByWindow(s);
  }

  lemma IdleOwnsNothing<T>(s: State<T>)
    requires Owners(s) && forall t :: t in s.threads ==> s.threads[t].Idle?
    ensures s.writing == map[] && s.reading == map[]
  {
    assert s.writing.Keys == {} && s.reading.Keys == {};
  }

  lemma SettledByWindow<T>(s: State<T>)
    requires Bounds(s) && Window(s) && s.writing == map[] && s.reading == map[]
    ensures Settled(s.mem, Contents(s))
  {
    var m := s.mem;
    forall p | m.dequeuePos <= p < m.enqueuePos
      ensures m.cells[Slot(p, m.k)] == Cell(p + 1, Some(Contents(s)[p - m.dequeuePos]))
    {
      assert CellOk(s, p);
    }
    forall p | m.enqueuePos <= p < m.dequeuePos + Pow2(m.k) ensures m.cells[Slot(p, m.k)].sequence == p {
      assert CellOk(s, p);
    }
  }

  // ---------------------------------------------------------------- the capacity bound

  lemma Unfold<T>(s: State<T>, acts: seq<Action<T>>)
    requires s.mem.WellSized() && acts != [] && Enabled(s, acts[0])
    ensures Legal(s, acts) <==> Legal(Apply(s, acts[0]), acts[1..])
    ensures Legal(s, acts) ==> Run(s, acts) == Run(Apply(s, acts[0]), acts[1..])
  {
  }

  /** Runs can be put one after the other. */
  lemma {:induction false} RunThen<T>(s: State<T>, a: seq<Action<T>>, b: seq<Action<T>>)
    requires s.mem.WellSized() && Legal(s, a) && Legal(Run(s, a), b)
    ensures Legal(s, a + b) && Run(s, a + b) == Run(Run(s, a), b)
    decreases |a|
  {
    if a == [] {
      assert a + b == b;
    } else {
      assert (a + b)[0] == a[0] && (a + b)[1..] == a[1..] + b;
      Unfold(s, a);
      RunThen(Apply(s, a[0]), a[1..], b);
      Unfold(s, a + b);
    }
  }

  /** Some run leads from `s` to `s'`. */
  ghost predicate Reaches(s: State<nat>, s': State<nat>)
    requires s.mem.WellSized()
  {
    exists acts :: Legal(s, acts) && Run(s, acts) == s'
  }

  lemma ReachesThen(s: State<nat>, s': State<nat>, s'': State<nat>)
    requires s.mem.WellSized() && s'.mem.WellSized() && Reaches(s, s') && Reaches(s', s'')
    ensures Reaches(s, s'')
  {
    var a :| Legal(s, a) && Run(s, a) == s';
    var b :| Legal(s', b) && Run(s', b) == s'';
    RunThen(s, a, b);
  }

  lemma TwoSteps(s: State<nat>, a: Action<nat>, b: Action<nat>)
    requires s.mem.WellSized() && Enabled(s, a) && Enabled(Apply(s, a), b)
    ensures Reaches(s, Apply(Apply(s, a), b))
  {
    var acts := [a, b];
    Unfold(Apply(s, a), acts[1..]);
    Unfold(s, acts);
  }

  /** A solo `enqueue` into a ring of one cell, up to the load of its position. */
  lemma OneCellCall(s: State<nat>, x: nat) returns (s': State<nat>)
    requires s.mem.k == 0 && s.mem.WellSized() && s.threads == map[0 := Idle]
    ensures Reaches(s, s') && s' == s.(threads := map[0 := EnqLoadSeq(x, s.mem.enqueuePos)])
  {
    TwoSteps(s, CallEnqueue(0, x), Step(0, false));
    s' := Apply(Apply(s, CallEnqueue(0, x)), Step(0, false));
  }

  /** From there, with a matching sequence in the cell, through the claim. */
  lemma OneCellClaim(s: State<nat>, x: nat) returns (s': State<nat>)
    requires s.mem.k == 0 && s.mem.WellSized() && s.threads == map[0 := EnqLoadSeq(x, s.mem.enqueuePos)]
    requires s.mem.cells[0].sequence == s.mem.enqueuePos
    ensures Reaches(s, s')
    ensures s'.mem == s.mem.(enqueuePos := s.mem.enqueuePos + 1)
    ensures s'.threads == map[0 := EnqWrite(x, s.mem.enqueuePos)]
    ensures s'.items == s.items + [x] && s'.taken == s.taken
  {
    TwoSteps(s, Step(0, false), Step(0, false));
    var s1 := Apply(s, Step(0, false));
    assert s1.threads[0] == EnqTest(x, s.mem.enqueuePos, s.mem.enqueuePos);
    s' := Apply(s1, Step(0, false));
  }

  lemma OneCellPublish(s: State<nat>, x: nat, e: nat) returns (s': State<nat>)
    requires s.mem.k == 0 && s.mem.WellSized() && s.threads == map[0 := EnqWrite(x, e)]
    ensures Reaches(s, s')
    ensures s'.mem == s.mem.(cells := [Cell(e + 1, Some(x))]) && s'.threads == map[0 := EnqDone(e)]
    ensures s'.items == s.items && s'.taken == s.taken
  {
    TwoSteps(s, Step(0, false), Step(0, false));
    s' := Apply(Apply(s, Step(0, false)), Step(0, false));
  }

  lemma OneCellReturn(s: State<nat>, e: nat) returns (s': State<nat>)
    requires s.mem.k == 0 && s.mem.WellSized() && s.threads == map[0 := EnqDone(e)]
    ensures Reaches(s, s') && s' == s.(threads := map[0 := Idle])
  {
    var acts := [Return(0)];
    Unfold(s, acts);
    s' := Apply(s, Return(0));
    assert Run(s, acts) == s';
  }

  lemma OneCellFirstHalf(s: State<nat>, x: nat) returns (s': State<nat>)
    requires s.mem.k == 0 && s.mem.WellSized() && s.threads == map[0 := Idle]
    requires s.mem.cells[0].sequence == s.mem.enqueuePos
    ensures Reaches(s, s')
    ensures s'.mem == s.mem.(enqueuePos := s.mem.enqueuePos + 1)
    ensures s'.threads == map[0 := EnqWrite(x, s.mem.enqueuePos)]
    ensures s'.items == s.items + [x] && s'.taken == s.taken
  {
    var s1 := OneCellCall(s, x);
    s' := OneCellClaim(s1, x);
    ReachesThen(s, s1, s');
  }

  lemma OneCellSecondHalf(s: State<nat>, x: nat, e: nat) returns (s': State<nat>)
    requires s.mem.k == 0 && s.mem.WellSized() && s.threads == map[0 := EnqWrite(x, e)]
    ensures Reaches(s, s')
    ensures s'.mem == s.mem.(cells := [Cell(e + 1, Some(x))]) && s'.threads == map[0 := Idle]
    ensures s'.items == s.items && s'.taken == s.taken
  {
    var s1 := OneCellPublish(s, x, e);
    s' := OneCellReturn(s1, e);
    ReachesThen(s, s1, s');
  }

  /** With one cell `pos + 1` is both "published" for `pos` and "writable" for `pos + 1`: a solo
      `enqueue` succeeds on a full ring. */
  lemma OneCellEnqueue(s: State<nat>, x: nat) returns (s': State<nat>)
    requires s.mem.k == 0 && s.mem.WellSized() && s.threads == map[0 := Idle]
    requires s.mem.cells[0].sequence == s.mem.enqueuePos
    ensures Reaches(s, s')
    ensures s'.mem == Shared(0, [Cell(s.mem.enqueuePos + 1, Some(x))], s.mem.enqueuePos + 1, s.mem.dequeuePos)
    ensures s'.threads == map[0 := Idle] && s'.items == s.items + [x] && s'.taken == s.taken
  {
    var s1 := OneCellFirstHalf(s, x);
    s' := OneCellSecondHalf(s1, x, s.mem.enqueuePos);
    ReachesThen(s, s1, s');
  }

  /** Capacity 1, which the source's static assertion admits: the second item overwrites the
      first, which is then in no cell, no hand and was never dequeued. */
  lemma CapacityOneLosesItem(x: nat, y: nat) returns (s: State<nat>)
    requires x != y
    ensures Reachable(s, 0, {0}) && s.mem.WellSized()
    ensures s.items == [x, y] && s.taken == map[] && s.mem.dequeuePos == 0 && s.mem.enqueuePos == 2
    ensures !InCell(s, 0) && !InHand(s, 0) && s.threads[0] == Idle
  {
    var s0 := Init<nat>(0, {0});
    assert s0.threads == map[0 := Idle];
    var s1 := OneCellEnqueue(s0, x);
    s := OneCellEnqueue(s1, y);
    ReachesThen(s0, s1, s);
    assert s.mem.cells[Slot(0, 0)].data == Some(y);
  }

  /** Of the capacities `Pow2(k)`, exactly those of at least two keep every reachable state
      within the capacity. */
  lemma BoundedIffCapacityAtLeastTwo(k: nat)
    ensures (forall s: State<nat>, tids: set<nat> :: Reachable(s, k, tids) ==>
               s.mem.enqueuePos <= s.mem.dequeuePos + Pow2(k)) <==> Pow2(k) >= 2
  {
    if k >= 1 {
      forall s: State<nat>, tids: set<nat> | Reachable(s, k, tids)
        ensures s.mem.enqueuePos <= s.mem.dequeuePos + Pow2(k)
      {
        ReachableInv(s, k, tids);
      }
    } else {
      var s := CapacityOneLosesItem(0, 1);
    }
  }
}
