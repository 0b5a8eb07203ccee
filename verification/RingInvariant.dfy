/** The ring's invariant holds in every reachable state. */
module RingInvariant {
  import opened Wrappers
  import opened Slots
  import opened Ring

  lemma InitInv<T>(k: nat, tids: set<nat>)
    requires k >= 1
    ensures Inv(Init<T>(k, tids))
  {
    var s := Init<T>(k, tids);
    forall q | 0 <= q < Pow2(k) ensures CellOk(s, q) {
      SlotSmall(q, k);
    }
  }

  // ---------------------------------------------------------------- steps that own nothing

  /** Thread `t` neither owns a position in `s` nor with locals `l`. */
  ghost predicate QuietStep<T>(s: State<T>, t: nat, l: Local<T>) {
    t in s.threads && !s.threads[t].OwnsWrite() && !s.threads[t].OwnsRead() && !l.OwnsWrite() && !l.OwnsRead()
  }

  lemma QuietOwners<T>(s: State<T>, t: nat, l: Local<T>)
    requires Core(s) && QuietStep(s, t, l)
    ensures Owners(s.(threads := s.threads[t := l])) && Taken(s.(threads := s.threads[t := l]))
  {
  }

  lemma QuietWindow<T>(s: State<T>, t: nat, l: Local<T>, q: nat)
    requires Bounds(s) && s.mem.dequeuePos <= q < s.mem.dequeuePos + Pow2(s.mem.k) && CellOk(s, q)
    ensures CellOk(s.(threads := s.threads[t := l]), q)
  {
  }

  lemma QuietLocals<T>(s: State<T>, t: nat, l: Local<T>)
    requires Core(s) && QuietStep(s, t, l) && LocalOk(s, l)
    ensures Locals(s.(threads := s.threads[t := l]))
  {
  }

  /** A step that leaves memory and history alone and neither gains nor drops ownership. */
  lemma Quiet<T>(s: State<T>, t: nat, l: Local<T>)
    requires Core(s) && QuietStep(s, t, l) && LocalOk(s, l)
    ensures Core(s.(threads := s.threads[t := l]))
  {
    QuietOwners(s, t, l);
    var s' := s.(threads := s.threads[t := l]);
    forall q | s.mem.dequeuePos <= q < s.mem.dequeuePos + Pow2(s.mem.k) ensures CellOk(s', q) {
      QuietWindow(s, t, l, q);
    }
    QuietLocals(s, t, l);
  }

  // ---------------------------------------------------------------- claiming a position

  /** A loaded `seq == pos` is still current when the position counter has not moved. */
  lemma WritableAtClaim<T>(s: State<T>, pos: nat, sq: nat)
    requires Bounds(s) && Owners(s) && Window(s) && pos == s.mem.enqueuePos
    requires pos == sq <= s.mem.cells[Slot(pos, s.mem.k)].sequence
    ensures pos < s.mem.dequeuePos + Pow2(s.mem.k)
    ensures s.mem.cells[Slot(pos, s.mem.k)] == Cell(pos, None)
    ensures pos - Pow2(s.mem.k) !in s.reading
  {
    SlotLaps(s.mem.k);
    var d := s.mem.dequeuePos;
    assert CellOk(s, d);
    if pos < d + Pow2(s.mem.k) {
      assert CellOk(s, pos);
    }
  }

  lemma ReadableAtClaim<T>(s: State<T>, pos: nat, sq: nat)
    requires Bounds(s) && Owners(s) && Window(s) && pos == s.mem.dequeuePos
    requires pos + 1 == sq <= s.mem.cells[Slot(pos, s.mem.k)].sequence
    ensures pos < s.mem.enqueuePos && pos !in s.writing
    ensures s.mem.cells[Slot(pos, s.mem.k)] == Cell(pos + 1, Some(s.items[pos]))
  {
    assert CellOk(s, pos);
  }

  ghost function ClaimedWrite<T>(s: State<T>, t: nat, item: T): State<T> {
    var e := s.mem.enqueuePos;
    s.(mem := s.mem.(enqueuePos := e + 1), threads := s.threads[t := EnqWrite(item, e)],
       items := s.items + [item], writing := s.writing[e := t], log := s.log + [Enq(item)])
  }

  /** Thread `t` is about to win the compare-and-swap of line 60. */
  ghost predicate WritesNext<T>(s: State<T>, t: nat) {
    t in s.threads && s.threads[t].EnqTest?
    && s.threads[t].pos == s.threads[t].sequence == s.mem.enqueuePos
  }

  /** The facts about the cell that make the claim of line 60 sound. */
  ghost predicate Writable<T>(s: State<T>) {
    Bounds(s) && s.mem.enqueuePos < s.mem.dequeuePos + Pow2(s.mem.k)
    && s.mem.cells[Slot(s.mem.enqueuePos, s.mem.k)] == Cell(s.mem.enqueuePos, None)
    && s.mem.enqueuePos - Pow2(s.mem.k) !in s.reading
  }

  lemma ClaimWriteOwners<T>(s: State<T>, t: nat, item: T)
    requires Owners(s) && Writable(s) && t in s.threads && s.threads[t].EnqTest?
    ensures Bounds(ClaimedWrite(s, t, item)) && Owners(ClaimedWrite(s, t, item))
  {
  }

  lemma ClaimWriteWindow<T>(s: State<T>, t: nat, item: T, q: nat)
    requires Writable(s) && Bounds(ClaimedWrite(s, t, item))
    requires s.mem.dequeuePos <= q < s.mem.dequeuePos + Pow2(s.mem.k) && CellOk(s, q)
    ensures CellOk(ClaimedWrite(s, t, item), q)
  {
  }

  lemma ClaimWriteLocals<T>(s: State<T>, t: nat, item: T)
    requires Writable(s) && Locals(s) && Taken(s) && t in s.threads && s.threads[t].EnqTest?
    requires Bounds(ClaimedWrite(s, t, item))
    ensures Locals(ClaimedWrite(s, t, item)) && Taken(ClaimedWrite(s, t, item))
  {
  }

  lemma ClaimWrite<T>(s: State<T>, t: nat)
    requires Core(s) && WritesNext(s, t)
    ensures Core(ClaimedWrite(s, t, s.threads[t].item))
  {
    var l := s.threads[t];
    assert LocalOk(s, l);
    WritableAtClaim(s, l.pos, l.sequence);
    ClaimWriteOwners(s, t, l.item);
    var s' := ClaimedWrite(s, t, l.item);
    forall q | s'.mem.dequeuePos <= q < s'.mem.dequeuePos + Pow2(s.mem.k) ensures CellOk(s', q) {
      ClaimWriteWindow(s, t, l.item, q);
    }
    ClaimWriteLocals(s, t, l.item);
  }

  ghost function ClaimedRead<T>(s: State<T>, t: nat): State<T>
    requires s.mem.dequeuePos < |s.items|
  {
    var d := s.mem.dequeuePos;
    s.(mem := s.mem.(dequeuePos := d + 1), threads := s.threads[t := DeqRead(d)],
       reading := s.reading[d := t], log := s.log + [Deq(s.items[d])])
  }

  /** Thread `t` is about to win the compare-and-swap of line 93. */
  ghost predicate ReadsNext<T>(s: State<T>, t: nat) {
    t in s.threads && s.threads[t].DeqTest?
    && s.threads[t].pos == s.mem.dequeuePos && s.threads[t].sequence == s.mem.dequeuePos + 1
  }

  /** The facts about the cell that make the claim of line 93 sound. */
  ghost predicate Readable<T>(s: State<T>) {
    Bounds(s) && s.mem.dequeuePos < s.mem.enqueuePos && s.mem.dequeuePos !in s.writing
    && s.mem.cells[Slot(s.mem.dequeuePos, s.mem.k)]
       == Cell(s.mem.dequeuePos + 1, Some(s.items[s.mem.dequeuePos]))
  }

  lemma ClaimReadOwners<T>(s: State<T>, t: nat)
    requires Owners(s) && Readable(s) && t in s.threads && s.threads[t].DeqTest?
    ensures Bounds(ClaimedRead(s, t)) && Owners(ClaimedRead(s, t))
  {
  }

  lemma ClaimReadWindow<T>(s: State<T>, t: nat, q: nat)
    requires Readable(s) && Bounds(ClaimedRead(s, t))
    requires s.mem.dequeuePos < q <= s.mem.dequeuePos + Pow2(s.mem.k)
    requires q < s.mem.dequeuePos + Pow2(s.mem.k) ==> CellOk(s, q)
    ensures CellOk(ClaimedRead(s, t), q)
  {
    SlotLap(s.mem.dequeuePos, q, s.mem.k);
  }

  lemma ClaimReadLocals<T>(s: State<T>, t: nat)
    requires Readable(s) && Owners(s) && Locals(s) && Taken(s) && t in s.threads && s.threads[t].DeqTest?
    requires Bounds(ClaimedRead(s, t))
    ensures Locals(ClaimedRead(s, t)) && Taken(ClaimedRead(s, t))
  {
  }

  lemma ClaimRead<T>(s: State<T>, t: nat)
    requires Core(s) && ReadsNext(s, t)
    ensures s.mem.dequeuePos < |s.items| && Core(ClaimedRead(s, t))
  {
    assert LocalOk(s, s.threads[t]);
    ReadableAtClaim(s, s.threads[t].pos, s.threads[t].sequence);
    ClaimReadOwners(s, t);
    var s' := ClaimedRead(s, t);
    forall q | s'.mem.dequeuePos <= q < s'.mem.dequeuePos + Pow2(s.mem.k) ensures CellOk(s', q) {
      ClaimReadWindow(s, t, q);
    }
    ClaimReadLocals(s, t);
  }

  // ---------------------------------------------------------------- the owner's steps

  /** The cells of two owned positions differ. */
  lemma OwnedApart<T>(s: State<T>, p: nat, q: nat)
    requires Bounds(s) && Owners(s) && p != q
    requires (p in s.writing || p in s.reading) && (q in s.writing || q in s.reading)
    ensures Slot(p, s.mem.k) != Slot(q, s.mem.k)
  {
    SlotLap(p, q, s.mem.k);
    SlotLap(q, p, s.mem.k);
  }

  ghost predicate OwnerNext<T>(s: State<T>, t: nat) {
    Bounds(s) && Owners(s) && t in s.threads && (s.threads[t].OwnsWrite() || s.threads[t].OwnsRead())
  }

  /** The state after the owner `t` of a position stored `c` into its cell and moved on to `l`,
      with the history its step leaves behind. */
  ghost function Touch<T>(s: State<T>, t: nat, c: Cell<T>, l: Local<T>): State<T>
    requires OwnerNext(s, t)
  {
    var p := s.threads[t].pos;
    s.(mem := s.mem.(cells := s.mem.cells[Slot(p, s.mem.k) := c]),
       threads := s.threads[t := l],
       writing := if l.EnqDone? then s.writing - {p} else s.writing,
       reading := if l.DeqDone? then s.reading - {p} else s.reading,
       taken := if l.DeqRelease? then s.taken[p := l.out] else s.taken)
  }

  /** The owner's four steps: move the item in, publish, move the item out, release. */
  ghost predicate OwnerMoves<T>(s: State<T>, t: nat, c: Cell<T>, l: Local<T>)
    requires OwnerNext(s, t)
  {
    var before := s.mem.cells[Slot(s.threads[t].pos, s.mem.k)];
    match s.threads[t]
    case EnqWrite(item, p) => c == before.(data := Some(item)) && l == EnqPublish(p)
    case EnqPublish(p) => c == before.(sequence := p + 1) && l == EnqDone(p)
    case DeqRead(p) => c == before.(data := None) && l == DeqRelease(p, before.data)
    case DeqRelease(p, out) => c == before.(sequence := p + Pow2(s.mem.k)) && l == DeqDone(p, out)
    case _ => false
  }

  lemma OwnerIsTouch<T>(s: State<T>, t: nat, spurious: bool) returns (c: Cell<T>, l: Local<T>)
    requires OwnerNext(s, t)
    ensures OwnerMoves(s, t, c, l) && Apply(s, Step(t, spurious)) == Touch(s, t, c, l)
  {
    var s' := Apply(s, Step(t, spurious));
    c, l := s'.mem.cells[Slot(s.threads[t].pos, s.mem.k)], s'.threads[t];
  }

  lemma TouchOwners<T>(s: State<T>, t: nat, c: Cell<T>, l: Local<T>)
    requires OwnerNext(s, t) && OwnerMoves(s, t, c, l)
    ensures Bounds(Touch(s, t, c, l)) && Owners(Touch(s, t, c, l))
  {
  }

  lemma TouchTaken<T>(s: State<T>, t: nat, c: Cell<T>, l: Local<T>)
    requires OwnerNext(s, t) && OwnerMoves(s, t, c, l)
    requires LocalOk(s, s.threads[t]) && Taken(s) && Bounds(Touch(s, t, c, l))
    ensures Taken(Touch(s, t, c, l))
  {
  }

  /** The position, in the current lap, whose cell the owner of `p` holds. */
  ghost function OwnPosition<T>(s: State<T>, t: nat): nat
    requires OwnerNext(s, t)
  {
    if s.threads[t].OwnsWrite() then s.threads[t].pos else s.threads[t].pos + Pow2(s.mem.k)
  }

  lemma OwnCell<T>(s: State<T>, t: nat)
    requires OwnerNext(s, t) && Window(s)
    ensures s.mem.dequeuePos <= OwnPosition(s, t) < s.mem.dequeuePos + Pow2(s.mem.k)
    ensures CellOk(s, OwnPosition(s, t))
    ensures Slot(OwnPosition(s, t), s.mem.k) == Slot(s.threads[t].pos, s.mem.k)
    ensures s.mem.cells[Slot(s.threads[t].pos, s.mem.k)].sequence
         == if s.threads[t].OwnsWrite() then s.threads[t].pos else s.threads[t].pos + 1
  {
    SlotLaps(s.mem.k);
    assert CellOk(s, OwnPosition(s, t));
  }

  lemma TouchWindow<T>(s: State<T>, t: nat, c: Cell<T>, l: Local<T>, q: nat)
    requires OwnerNext(s, t) && OwnerMoves(s, t, c, l) && Window(s) && LocalOk(s, s.threads[t])
    requires Bounds(Touch(s, t, c, l)) && s.mem.dequeuePos <= q < s.mem.dequeuePos + Pow2(s.mem.k)
    ensures CellOk(Touch(s, t, c, l), q)
  {
    OwnCell(s, t);
    var own, k := OwnPosition(s, t), s.mem.k;
    assert CellOk(s, q);
    if q != own {
      SlotLap(q, own, k);
      SlotLap(own, q, k);
    }
  }

  lemma TouchOwnLocal<T>(s: State<T>, t: nat, c: Cell<T>, l: Local<T>)
    requires OwnerNext(s, t) && OwnerMoves(s, t, c, l) && LocalOk(s, s.threads[t])
    requires Bounds(Touch(s, t, c, l))
    ensures LocalOk(Touch(s, t, c, l), l)
  {
  }

  lemma TouchLocal<T>(s: State<T>, t: nat, c: Cell<T>, l: Local<T>, u: nat)
    requires OwnerNext(s, t) && OwnerMoves(s, t, c, l) && Window(s)
    requires Bounds(Touch(s, t, c, l)) && u in s.threads && u != t && LocalOk(s, s.threads[u])
    ensures LocalOk(Touch(s, t, c, l), s.threads[u])
  {
    OwnCell(s, t);
    var p, m := s.threads[t].pos, s.threads[u];
    if m.OwnsWrite() || m.OwnsRead() {
      assert m.pos != p;
      OwnedApart(s, p, m.pos);
    }
  }

  lemma Owner<T>(s: State<T>, t: nat, c: Cell<T>, l: Local<T>)
    requires OwnerNext(s, t) && OwnerMoves(s, t, c, l) && Core(s)
    ensures Core(Touch(s, t, c, l))
  {
    var s' := Touch(s, t, c, l);
    TouchOwners(s, t, c, l);
    TouchTaken(s, t, c, l);
    forall q | s'.mem.dequeuePos <= q < s'.mem.dequeuePos + Pow2(s.mem.k) ensures CellOk(s', q) {
      TouchWindow(s, t, c, l, q);
    }
    forall u | u in s'.threads ensures LocalOk(s', s'.threads[u]) {
      if u == t {
        TouchOwnLocal(s, t, c, l);
      } else {
        TouchLocal(s, t, c, l, u);
      }
    }
  }

  // ---------------------------------------------------------------- all steps, all runs

  /** Neither the log nor the contents change unless a claim is won. */
  lemma SameLinear<T>(s: State<T>, s': State<T>)
    requires Bounds(s) && Linear(s) && Bounds(s') && s'.log == s.log && s'.items == s.items
    requires s'.mem.dequeuePos == s.mem.dequeuePos
    ensures Linear(s')
  {
  }

  lemma ClaimWriteLinear<T>(s: State<T>, t: nat, item: T)
    requires Bounds(s) && Linear(s) && Bounds(ClaimedWrite(s, t, item))
    ensures Linear(ClaimedWrite(s, t, item))
    ensures Contents(ClaimedWrite(s, t, item)) == Contents(s) + [item]
  {
    var s' := ClaimedWrite(s, t, item);
    assert s'.log[..|s'.log| - 1] == s.log;
    assert s'.items[..s.mem.dequeuePos] == s.items[..s.mem.dequeuePos];
    assert Contents(s') == Contents(s) + [item];
  }

  lemma ClaimReadLinear<T>(s: State<T>, t: nat)
    requires Bounds(s) && Linear(s) && s.mem.dequeuePos < |s.items| && Bounds(ClaimedRead(s, t))
    ensures Linear(ClaimedRead(s, t))
    ensures Contents(s) == [s.items[s.mem.dequeuePos]] + Contents(ClaimedRead(s, t))
  {
    var s' := ClaimedRead(s, t);
    assert s'.log[..|s'.log| - 1] == s.log;
    var r, d := Contents(s), s.mem.dequeuePos;
    assert r[0] == s.items[d] && r[1..] == Contents(s');
    assert s.items[..d + 1] == s.items[..d] + [s.items[d]];
  }

  /** What a step of a thread that owns nothing does: nothing to memory, or a claim. */
  ghost predicate FreeOutcome<T>(s: State<T>, t: nat, s': State<T>)
    requires Bounds(s) && t in s.threads && t in s'.threads
  {
    || (WritesNext(s, t) && s' == ClaimedWrite(s, t, s.threads[t].item))
    || (ReadsNext(s, t) && s.mem.dequeuePos < |s.items| && s' == ClaimedRead(s, t))
    || (s' == s.(threads := s.threads[t := s'.threads[t]])
        && QuietStep(s, t, s'.threads[t]) && LocalOk(s, s'.threads[t]))
  }

  lemma EnqueueFreeStep<T>(s: State<T>, t: nat, spurious: bool)
    requires Bounds(s) && Enabled(s, Step(t, spurious)) && LocalOk(s, s.threads[t])
    requires s.threads[t].EnqLoadPos? || s.threads[t].EnqLoadSeq? || s.threads[t].EnqTest?
    ensures FreeOutcome(s, t, Apply(s, Step(t, spurious)))
  {
  }

  lemma DequeueFreeStep<T>(s: State<T>, t: nat, spurious: bool)
    requires Bounds(s) && Enabled(s, Step(t, spurious)) && LocalOk(s, s.threads[t])
    requires s.threads[t].DeqLoadPos? || s.threads[t].DeqLoadSeq? || s.threads[t].DeqTest?
    requires ReadsNext(s, t) ==> s.mem.dequeuePos < |s.items|
    ensures FreeOutcome(s, t, Apply(s, Step(t, spurious)))
  {
    if s.threads[t].DeqTest? {
      DequeueTestStep(s, t, spurious);
    }
  }

  lemma DequeueTestStep<T>(s: State<T>, t: nat, spurious: bool)
    requires Bounds(s) && t in s.threads && s.threads[t].DeqTest? && LocalOk(s, s.threads[t])
    requires ReadsNext(s, t) ==> s.mem.dequeuePos < |s.items|
    ensures FreeOutcome(s, t, Apply(s, Step(t, spurious)))
  {
  }

  lemma StepInv<T>(s: State<T>, a: Action<T>)
    requires Inv(s) && Enabled(s, a)
    ensures Inv(Apply(s, a))
  {
    var l := s.threads[a.t];
    match a
    case CallEnqueue(t, item) => Quiet(s, t, EnqLoadPos(item));
    case CallDequeue(t) => Quiet(s, t, DeqLoadPos);
    case Return(t) => Quiet(s, t, Idle);
    case Step(t, spurious) => RunningStepInv(s, t, spurious);
  }

  lemma RunningStepInv<T>(s: State<T>, t: nat, spurious: bool)
    requires Inv(s) && Enabled(s, Step(t, spurious))
    ensures Inv(Apply(s, Step(t, spurious)))
  {
    var l := s.threads[t];
    var s' := Apply(s, Step(t, spurious));
    if l.OwnsWrite() || l.OwnsRead() {
      var c, l' := OwnerIsTouch(s, t, spurious);
      Owner(s, t, c, l');
      SameLinear(s, s');
    } else {
      assert LocalOk(s, l);
      if ReadsNext(s, t) {
        ReadableAtClaim(s, l.pos, l.sequence);
      }
      if l.EnqLoadPos? || l.EnqLoadSeq? || l.EnqTest? {
        EnqueueFreeStep(s, t, spurious);
      } else {
        DequeueFreeStep(s, t, spurious);
      }
      if WritesNext(s, t) && s' == ClaimedWrite(s, t, l.item) {
        ClaimWrite(s, t);
        ClaimWriteLinear(s, t, l.item);
      } else if ReadsNext(s, t) && s.mem.dequeuePos < |s.items| && s' == ClaimedRead(s, t) {
        ClaimRead(s, t);
        ClaimReadLinear(s, t);
      } else {
        Quiet(s, t, s'.threads[t]);
        SameLinear(s, s');
      }
    }
  }

  /** Every state of every run satisfies the invariant. */
  lemma {:induction false} RunInv<T>(s: State<T>, acts: seq<Action<T>>)
    requires Inv(s) && Legal(s, acts)
    ensures Inv(Run(s, acts))
    decreases |acts|
  {
    if acts != [] {
      StepInv(s, acts[0]);
      RunInv(Apply(s, acts[0]), acts[1..]);
    }
  }
}
