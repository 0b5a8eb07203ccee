/** The ring never keeps a lone thread waiting: from every reachable state a thread inside `enqueue` or
    `dequeue` that steps alone finishes within seven steps, with an answer that the state decides. */
module RingProgress {
  import opened Wrappers
  import opened Slots
  import opened Ring
  import RI = RingInvariant
  import D = Descent
  import opened RingTheorems

  /** `n` steps of thread `t`, none of them a spurious failure. */
  ghost function Alone<T>(t: nat, n: nat): seq<Action<T>> {
    if n == 0 then [] else [Step(t, false)] + Alone(t, n - 1)
  }

  predicate Enqueues<T>(l: Local<T>) { l.EnqLoadPos? || l.EnqLoadSeq? || l.EnqTest? || l.OwnsWrite() }

  predicate Dequeues<T>(l: Local<T>) { l.DeqLoadPos? || l.DeqLoadSeq? || l.DeqTest? || l.OwnsRead() }

  /** The next position to claim is not in use by the lap before, or the next position to take is
      published. */
  ghost predicate Room<T>(s: State<T>) {
    s.mem.enqueuePos < Pow2(s.mem.k) || Released(s, s.mem.enqueuePos - Pow2(s.mem.k))
  }

  ghost predicate Ready<T>(s: State<T>) { Published(s, s.mem.dequeuePos) }

  /** The thread has loaded a sequence number that already says "full", or "empty". */
  predicate GivesUp<T>(l: Local<T>) {
    (l.EnqTest? && l.sequence < l.pos) || (l.DeqTest? && l.sequence < l.pos + 1)
  }

  /** The thread is going to claim a position. */
  ghost predicate WillClaim<T>(s: State<T>, l: Local<T>) {
    if Enqueues(l) then !l.OwnsWrite() && !GivesUp(l) && Room(s)
    else Dequeues(l) && !l.OwnsRead() && !GivesUp(l) && Ready(s)
  }

  /** How the call ends if nobody else moves. */
  ghost function Outcome<T>(s: State<T>, l: Local<T>): Local<T>
    requires Bounds(s)
  {
    if l.OwnsWrite() then EnqDone(l.pos)
    else if Enqueues(l) then
      if GivesUp(l) then EnqFull(l.pos)
      else if Room(s) then EnqDone(s.mem.enqueuePos)
      else EnqFull(s.mem.enqueuePos)
    else if l.OwnsRead() then DeqDone(l.pos, if l.pos < |s.items| then Some(s.items[l.pos]) else None)
    else if Dequeues(l) then
      if GivesUp(l) then DeqEmpty(l.pos)
      else if Ready(s) then DeqDone(s.mem.dequeuePos, Some(s.items[s.mem.dequeuePos]))
      else DeqEmpty(s.mem.dequeuePos)
    else l
  }

  /** A bound on the steps left when nobody else moves. */
  ghost function Rank<T>(s: State<T>, l: Local<T>): nat {
    match l
    case EnqLoadPos(_) => 5
    case EnqLoadSeq(_, pos) => if pos == s.mem.enqueuePos then 4 else 7
    case EnqTest(_, pos, sq) => if sq < pos || (sq == pos && pos == s.mem.enqueuePos) then 3 else 6
    case EnqWrite(_, _) => 2
    case EnqPublish(_) => 1
    case DeqLoadPos => 5
    case DeqLoadSeq(pos) => if pos == s.mem.dequeuePos then 4 else 7
    case DeqTest(pos, sq) => if sq < pos + 1 || (sq == pos + 1 && pos == s.mem.dequeuePos) then 3 else 6
    case DeqRead(_) => 2
    case DeqRelease(_, _) => 1
    case _ => 0
  }

  /** The cell of the next position to claim says whether there is room; never less than that, and never
      more than its own position. */
  lemma RoomIsSequence<T>(s: State<T>)
    requires Bounds(s) && Owners(s) && Window(s)
    ensures var e, sq := s.mem.enqueuePos, s.mem.cells[Slot(s.mem.enqueuePos, s.mem.k)].sequence;
            sq <= e && (sq == e <==> Room(s))
  {
    CurrentSequence(s, s.mem.enqueuePos);
  }

  lemma ReadyIsSequence<T>(s: State<T>)
    requires Bounds(s) && Owners(s) && Window(s)
    ensures var d, sq := s.mem.dequeuePos, s.mem.cells[Slot(s.mem.dequeuePos, s.mem.k)].sequence;
            sq <= d + 1 && (sq == d + 1 <==> Ready(s))
  {
    CurrentSequence(s, s.mem.dequeuePos);
  }

  /** A cell that was claimed meanwhile does not say "full" (or "empty") about the old position. */
  lemma StaleSequence<T>(s: State<T>, pos: nat)
    requires Bounds(s) && Owners(s) && Window(s)
    ensures pos < s.mem.enqueuePos ==> s.mem.cells[Slot(pos, s.mem.k)].sequence >= pos
    ensures pos < s.mem.dequeuePos ==> s.mem.cells[Slot(pos, s.mem.k)].sequence >= pos + 1
  {
    if pos < s.mem.enqueuePos || pos < s.mem.dequeuePos { CurrentSequence(s, pos); }
  }

  /** What a call adds to the ring's items, and what it takes from its front. */
  ghost function Gain<T>(s: State<T>, l: Local<T>): seq<T> {
    if WillClaim(s, l) && (l.EnqLoadPos? || l.EnqLoadSeq? || l.EnqTest?) then [l.item] else []
  }

  ghost function Loss<T>(s: State<T>, l: Local<T>): nat { if Dequeues(l) && WillClaim(s, l) then 1 else 0 }

  // ---------------------------------------------------------------- one step

  /** A step keeps how the call is going to end. */
  ghost predicate Keeps<T>(s: State<T>, s': State<T>, l: Local<T>, l': Local<T>)
    requires Bounds(s)
  {
    && Bounds(s') && Outcome(s', l') == Outcome(s, l)
    && s'.items + Gain(s', l') == s.items + Gain(s, l)
    && s'.mem.dequeuePos + Loss(s', l') == s.mem.dequeuePos + Loss(s, l)
  }

  /** A step that moves its thread only. */
  lemma LocalKeeps<T>(s: State<T>, s': State<T>, t: nat, l: Local<T>, l': Local<T>)
    requires Bounds(s) && s' == s.(threads := s.threads[t := l'])
    requires (Enqueues(l) && Enqueues(l')) || (Dequeues(l) && Dequeues(l')) || (!WillClaim(s, l) && l' == Outcome(s, l) && l'.Finished())
    requires !l.OwnsWrite() && !l.OwnsRead() && !l'.OwnsWrite() && !l'.OwnsRead()
    requires GivesUp(l') <==> GivesUp(l)
    requires GivesUp(l) && !l'.Finished() ==> l'.pos == l.pos
    requires Enqueues(l) && Enqueues(l') ==> l'.item == l.item
    ensures Keeps(s, s', l, l')
  {
    assert Room(s') == Room(s) && Ready(s') == Ready(s);
  }

  ghost predicate Moves<T>(s: State<T>, t: nat, s': State<T>, l': Local<T>) {
    t in s'.threads && s'.threads[t] == l' && s' == s.(threads := s.threads[t := l'])
  }

  lemma EnqLoadSteps<T>(s: State<T>, t: nat, spurious: bool)
    requires Core(s) && t in s.threads && (s.threads[t].EnqLoadSeq? || s.threads[t].EnqLoadPos?)
    ensures var l, s' := s.threads[t], Apply(s, Step(t, spurious)); var l' := s'.threads[t];
            Moves(s, t, s', l') && Enqueues(l') && !l'.OwnsWrite() && l'.item == l.item && Rank(s', l') < Rank(s, l)
    ensures var l' := Apply(s, Step(t, spurious)).threads[t];
            l'.EnqTest? ==> l'.sequence == s.mem.cells[Slot(l'.pos, s.mem.k)].sequence && l'.pos == s.threads[t].pos
  {
    var l := s.threads[t];
    assert LocalOk(s, l);
    if l.EnqLoadSeq? {
      RoomIsSequence(s);
      StaleSequence(s, l.pos);
    }
  }

  lemma DeqLoadSteps<T>(s: State<T>, t: nat, spurious: bool)
    requires Core(s) && t in s.threads && (s.threads[t].DeqLoadSeq? || s.threads[t].DeqLoadPos?)
    ensures var l, s' := s.threads[t], Apply(s, Step(t, spurious)); var l' := s'.threads[t];
            Moves(s, t, s', l') && Dequeues(l') && !l'.OwnsRead() && Rank(s', l') < Rank(s, l)
    ensures var l' := Apply(s, Step(t, spurious)).threads[t];
            l'.DeqTest? ==> l'.sequence == s.mem.cells[Slot(l'.pos, s.mem.k)].sequence && l'.pos == s.threads[t].pos
  {
    var l := s.threads[t];
    assert LocalOk(s, l);
    if l.DeqLoadSeq? {
      ReadyIsSequence(s);
      StaleSequence(s, l.pos);
    }
  }

  /** The loaded sequence number says "full" exactly when the outcome is "full" anyway. */
  lemma EnqLoadsKeep<T>(s: State<T>, t: nat, spurious: bool)
    requires Core(s) && t in s.threads && (s.threads[t].EnqLoadSeq? || s.threads[t].EnqLoadPos?)
    ensures var s' := Apply(s, Step(t, spurious)); Keeps(s, s', s.threads[t], s'.threads[t])
  {
    var l, s' := s.threads[t], Apply(s, Step(t, spurious));
    var l' := s'.threads[t];
    EnqLoadSteps(s, t, spurious);
    if GivesUp(l') {
      assert LocalOk(s, l);
      RoomIsSequence(s);
      StaleSequence(s, l.pos);
      GivesUpRightly(s, s', t, l, l');
    } else {
      LocalKeeps(s, s', t, l, l');
    }
  }

  lemma GivesUpRightly<T>(s: State<T>, s': State<T>, t: nat, l: Local<T>, l': Local<T>)
    requires Bounds(s) && s' == s.(threads := s.threads[t := l']) && GivesUp(l') && !GivesUp(l)
    requires (l.EnqLoadSeq? && l'.EnqTest? && l'.pos == s.mem.enqueuePos && !Room(s))
             || (l.DeqLoadSeq? && l'.DeqTest? && l'.pos == s.mem.dequeuePos && !Ready(s))
    ensures Keeps(s, s', l, l')
  {
  }

  lemma DeqLoadsKeep<T>(s: State<T>, t: nat, spurious: bool)
    requires Core(s) && t in s.threads && (s.threads[t].DeqLoadSeq? || s.threads[t].DeqLoadPos?)
    ensures var s' := Apply(s, Step(t, spurious)); Keeps(s, s', s.threads[t], s'.threads[t])
  {
    var l, s' := s.threads[t], Apply(s, Step(t, spurious));
    var l' := s'.threads[t];
    DeqLoadSteps(s, t, spurious);
    if GivesUp(l') {
      assert LocalOk(s, l);
      ReadyIsSequence(s);
      StaleSequence(s, l.pos);
      GivesUpRightly(s, s', t, l, l');
    } else {
      LocalKeeps(s, s', t, l, l');
    }
  }

  /** A test that does not claim gives up, or loads anew. */
  lemma EnqTestSteps<T>(s: State<T>, t: nat, spurious: bool)
    requires s.mem.WellSized() && t in s.threads && s.threads[t].EnqTest?
    requires !Claims(s.threads[t], Apply(s, Step(t, spurious)).threads[t])
    ensures var l, s' := s.threads[t], Apply(s, Step(t, spurious)); var l' := s'.threads[t];
            && Moves(s, t, s', l') && (!spurious ==> Rank(s', l') < Rank(s, l))
            && if GivesUp(l) then l' == EnqFull(l.pos)
               else Enqueues(l') && !l'.OwnsWrite() && !GivesUp(l') && l'.item == l.item
  {
  }

  lemma DeqTestSteps<T>(s: State<T>, t: nat, spurious: bool)
    requires s.mem.WellSized() && t in s.threads && s.threads[t].DeqTest?
    requires !Claims(s.threads[t], Apply(s, Step(t, spurious)).threads[t])
    ensures var l, s' := s.threads[t], Apply(s, Step(t, spurious)); var l' := s'.threads[t];
            && Moves(s, t, s', l') && (!spurious ==> Rank(s', l') < Rank(s, l))
            && if GivesUp(l) then l' == DeqEmpty(l.pos) else Dequeues(l') && !l'.OwnsRead() && !GivesUp(l')
  {
  }

  lemma TestKeeps<T>(s: State<T>, t: nat, spurious: bool)
    requires Core(s) && t in s.threads && (s.threads[t].EnqTest? || s.threads[t].DeqTest?)
    requires !Claims(s.threads[t], Apply(s, Step(t, spurious)).threads[t])
    ensures var s' := Apply(s, Step(t, spurious)); Keeps(s, s', s.threads[t], s'.threads[t])
    ensures var s' := Apply(s, Step(t, spurious)); !spurious ==> Rank(s', s'.threads[t]) < Rank(s, s.threads[t])
  {
    var l, s' := s.threads[t], Apply(s, Step(t, spurious));
    var l' := s'.threads[t];
    if l.EnqTest? { EnqTestSteps(s, t, spurious); } else { DeqTestSteps(s, t, spurious); }
    if GivesUp(l) {
      GaveUp(s, s', t, l, l');
    } else {
      LocalKeeps(s, s', t, l, l');
    }
  }

  lemma GaveUp<T>(s: State<T>, s': State<T>, t: nat, l: Local<T>, l': Local<T>)
    requires Bounds(s) && s' == s.(threads := s.threads[t := l']) && GivesUp(l)
    requires l' == if l.EnqTest? then EnqFull(l.pos) else DeqEmpty(l.pos)
    ensures Keeps(s, s', l, l')
  {
  }

  lemma EnqueueClaims<T>(s: State<T>, t: nat, spurious: bool)
    requires Core(s) && t in s.threads && s.threads[t].EnqTest?
    requires Claims(s.threads[t], Apply(s, Step(t, spurious)).threads[t])
    ensures var l, s' := s.threads[t], Apply(s, Step(t, spurious)); var l' := s'.threads[t];
            && Room(s) && !GivesUp(l) && s'.items == s.items + [l.item] && s'.mem.dequeuePos == s.mem.dequeuePos
            && l' == EnqWrite(l.item, s.mem.enqueuePos) && Rank(s, l) == 3
  {
    var l := s.threads[t];
    assert LocalOk(s, l);
    EnqueueClaimMoves(s, t, spurious);
    RI.WritableAtClaim(s, l.pos, l.sequence);
    RoomIsSequence(s);
  }

  lemma EnqueueClaimMoves<T>(s: State<T>, t: nat, spurious: bool)
    requires s.mem.WellSized() && t in s.threads && s.threads[t].EnqTest?
    requires Claims(s.threads[t], Apply(s, Step(t, spurious)).threads[t])
    ensures var l, s' := s.threads[t], Apply(s, Step(t, spurious));
            && l.pos == s.mem.enqueuePos && l.sequence == l.pos && s'.items == s.items + [l.item]
            && s'.mem.dequeuePos == s.mem.dequeuePos && s'.threads[t] == EnqWrite(l.item, s.mem.enqueuePos)
  {
  }

  lemma DequeueClaims<T>(s: State<T>, t: nat, spurious: bool)
    requires Core(s) && t in s.threads && s.threads[t].DeqTest?
    requires Claims(s.threads[t], Apply(s, Step(t, spurious)).threads[t])
    ensures var l, s' := s.threads[t], Apply(s, Step(t, spurious)); var l' := s'.threads[t];
            && Ready(s) && !GivesUp(l) && s'.items == s.items && s'.mem.dequeuePos == s.mem.dequeuePos + 1
            && l' == DeqRead(s.mem.dequeuePos) && Rank(s, l) == 3
  {
    var l := s.threads[t];
    assert LocalOk(s, l);
    DequeueClaimMoves(s, t, spurious);
    RI.ReadableAtClaim(s, l.pos, l.sequence);
    ReadyIsSequence(s);
  }

  lemma DequeueClaimMoves<T>(s: State<T>, t: nat, spurious: bool)
    requires s.mem.WellSized() && t in s.threads && s.threads[t].DeqTest?
    requires Claims(s.threads[t], Apply(s, Step(t, spurious)).threads[t])
    ensures var l, s' := s.threads[t], Apply(s, Step(t, spurious));
            && l.pos == s.mem.dequeuePos && l.sequence == l.pos + 1 && s'.items == s.items
            && s'.mem.dequeuePos == s.mem.dequeuePos + 1 && s'.threads[t] == DeqRead(s.mem.dequeuePos)
  {
  }

  lemma ClaimKeeps<T>(s: State<T>, s': State<T>, l: Local<T>, l': Local<T>)
    requires Bounds(s) && Bounds(s') && !GivesUp(l)
    requires (l.EnqTest? && Room(s) && l' == EnqWrite(l.item, s.mem.enqueuePos)
              && s'.items == s.items + [l.item] && s'.mem.dequeuePos == s.mem.dequeuePos)
             || (l.DeqTest? && Ready(s) && l' == DeqRead(s.mem.dequeuePos)
                 && s'.items == s.items && s'.mem.dequeuePos == s.mem.dequeuePos + 1)
    ensures Keeps(s, s', l, l')
  {
  }

  lemma WriterSteps<T>(s: State<T>, t: nat, spurious: bool)
    requires s.mem.WellSized() && t in s.threads && s.threads[t].OwnsWrite()
    ensures var l, s' := s.threads[t], Apply(s, Step(t, spurious)); var l' := s'.threads[t];
            && s'.items == s.items && s'.mem.dequeuePos == s.mem.dequeuePos
            && (l' == EnqPublish(l.pos) || l' == EnqDone(l.pos)) && Rank(s', l') < Rank(s, l)
  {
  }

  lemma ReaderSteps<T>(s: State<T>, t: nat, spurious: bool)
    requires Bounds(s) && t in s.threads && s.threads[t].OwnsRead() && LocalOk(s, s.threads[t])
    ensures var l, s' := s.threads[t], Apply(s, Step(t, spurious)); var l' := s'.threads[t];
            && s'.items == s.items && s'.mem.dequeuePos == s.mem.dequeuePos && l.pos < |s.items|
            && (l' == DeqRelease(l.pos, Some(s.items[l.pos])) || l' == DeqDone(l.pos, Some(s.items[l.pos])))
            && Rank(s', l') < Rank(s, l)
  {
  }

  lemma OwnerSteps<T>(s: State<T>, t: nat, spurious: bool)
    requires Core(s) && t in s.threads && (s.threads[t].OwnsWrite() || s.threads[t].OwnsRead())
    ensures var l, s' := s.threads[t], Apply(s, Step(t, spurious)); var l' := s'.threads[t];
            && s'.items == s.items && s'.mem.dequeuePos == s.mem.dequeuePos && l.pos < |s.items|
            && (if l.OwnsWrite() then l' == EnqPublish(l.pos) || l' == EnqDone(l.pos)
                else l' == DeqRelease(l.pos, Some(s.items[l.pos])) || l' == DeqDone(l.pos, Some(s.items[l.pos])))
            && Rank(s', l') < Rank(s, l)
  {
    assert LocalOk(s, s.threads[t]);
    if s.threads[t].OwnsWrite() { WriterSteps(s, t, spurious); } else { ReaderSteps(s, t, spurious); }
  }

  lemma OwnerKeeps<T>(s: State<T>, s': State<T>, l: Local<T>, l': Local<T>)
    requires Bounds(s) && Bounds(s') && s'.items == s.items && s'.mem.dequeuePos == s.mem.dequeuePos
    requires l.OwnsWrite() || l.OwnsRead()
    requires l.pos < |s.items|
    requires if l.OwnsWrite() then l' == EnqPublish(l.pos) || l' == EnqDone(l.pos)
             else l' == DeqRelease(l.pos, Some(s.items[l.pos])) || l' == DeqDone(l.pos, Some(s.items[l.pos]))
    ensures Keeps(s, s', l, l')
  {
  }

  /** Every step of a call, spurious or not, keeps how it is going to end; every step that is not
      spurious brings the end nearer. */
  lemma StepKeepsOutcome<T>(s: State<T>, t: nat, spurious: bool)
    requires Inv(s) && t in s.threads && s.threads[t].Running() && Bounds(Apply(s, Step(t, spurious)))
    ensures var l, s' := s.threads[t], Apply(s, Step(t, spurious)); var l' := s'.threads[t];
            Keeps(s, s', l, l') && (!spurious ==> Rank(s', l') < Rank(s, l))
  {
    var l, s' := s.threads[t], Apply(s, Step(t, spurious));
    var l' := s'.threads[t];
    if l.OwnsWrite() || l.OwnsRead() {
      OwnerSteps(s, t, spurious);
      OwnerKeeps(s, s', l, l');
    } else if l.EnqLoadSeq? || l.EnqLoadPos? {
      EnqLoadSteps(s, t, spurious);
      EnqLoadsKeep(s, t, spurious);
    } else if l.DeqLoadSeq? || l.DeqLoadPos? {
      DeqLoadSteps(s, t, spurious);
      DeqLoadsKeep(s, t, spurious);
    } else if !Claims(l, l') {
      TestKeeps(s, t, spurious);
    } else {
      if l.EnqTest? { EnqueueClaims(s, t, spurious); } else { DequeueClaims(s, t, spurious); }
      ClaimKeeps(s, s', l, l');
    }
  }

  // ---------------------------------------------------------------- to the end

  /** The call of thread `t`, continued alone for `n` steps, is finished as foreseen. */
  ghost predicate EndsAlone<T>(s: State<T>, t: nat, n: nat)
    requires Bounds(s) && t in s.threads
  {
    && Legal(s, Alone<T>(t, n))
    && var s' := Run(s, Alone<T>(t, n));
       && t in s'.threads && s'.threads[t] == Outcome(s, s.threads[t]) && s'.threads[t].Finished()
       && s'.items == s.items + Gain(s, s.threads[t])
       && s'.mem.dequeuePos == s.mem.dequeuePos + Loss(s, s.threads[t])
  }

  /** Thread `t` is inside a call, or has just finished it. */
  ghost predicate Calling<T>(s: State<T>, t: nat) {
    Inv(s) && t in s.threads && (s.threads[t].Running() || s.threads[t].Finished())
  }

  ghost predicate Next<T>(s: State<T>, s1: State<T>, t: nat) {
    && Calling(s, t) && Calling(s1, t) && s.threads[t].Running() && s1 == Apply(s, Step(t, false))
    && Keeps(s, s1, s.threads[t], s1.threads[t])
  }

  ghost function Left<T>(s: State<T>, t: nat): nat { if t in s.threads then Rank(s, s.threads[t]) else 0 }

  ghost predicate Ends<T>(s: State<T>, t: nat, n: nat) { Calling(s, t) && EndsAlone(s, t, n) }

  lemma RunsToTheEnd<T(!new)>(s: State<T>, t: nat) returns (n: nat)
    requires Calling(s, t)
    ensures n <= Rank(s, s.threads[t]) && EndsAlone(s, t, n)
  {
    var calling := (x: State<T>) => Calling(x, t);
    var next := (x: State<T>, y: State<T>) => Next(x, y, t);
    var left := (x: State<T>) => Left(x, t);
    var ends := (x: State<T>, n: nat) => Ends(x, t, n);
    CallsEnd(t, calling, left, ends);
    CallsGoOn(t, calling, next, left);
    EndsGrow(t, calling, next, ends);
    n := D.ReachesEnd(s, calling, next, left, ends);
    assert ends(s, n);
  }

  lemma CallsEnd<T(!new)>(t: nat, calling: State<T> -> bool, left: State<T> -> nat, ends: (State<T>, nat) -> bool)
    requires forall s :: calling(s) == Calling(s, t)
    requires forall s :: left(s) == Left(s, t)
    requires forall s, n: nat :: ends(s, n) == Ends(s, t, n)
    ensures forall s :: calling(s) && left(s) == 0 ==> ends(s, 0)
  {
    forall s | calling(s) && left(s) == 0 ensures ends(s, 0) {
      CallEnds(s, t);
    }
  }

  lemma CallEnds<T>(s: State<T>, t: nat)
    requires Calling(s, t) && Left(s, t) == 0
    ensures Ends(s, t, 0)
  {
    RankZero(s, s.threads[t]);
    EndsNow(s, t);
  }

  lemma RankZero<T>(s: State<T>, l: Local<T>)
    ensures Rank(s, l) == 0 <==> !l.Running()
  {
  }

  lemma CallsGoOn<T(!new)>(t: nat, calling: State<T> -> bool, next: (State<T>, State<T>) -> bool, left: State<T> -> nat)
    requires forall s :: calling(s) == Calling(s, t)
    requires forall s, s1 :: next(s, s1) == Next(s, s1, t)
    requires forall s :: left(s) == Left(s, t)
    ensures forall s :: calling(s) && left(s) > 0 ==> exists s1 :: next(s, s1) && calling(s1) && left(s1) < left(s)
  {
    forall s | calling(s) && left(s) > 0 ensures exists s1 :: next(s, s1) && calling(s1) && left(s1) < left(s) {
      RankZero(s, s.threads[t]);
      var s1 := NextAlone(s, t);
      assert next(s, s1) && calling(s1) && left(s1) < left(s);
    }
  }

  lemma EndsGrow<T(!new)>(t: nat, calling: State<T> -> bool, next: (State<T>, State<T>) -> bool, ends: (State<T>, nat) -> bool)
    requires forall s, s1 :: next(s, s1) == Next(s, s1, t)
    requires forall s, n: nat :: ends(s, n) == Ends(s, t, n)
    ensures forall s, s1, m: nat :: calling(s) && next(s, s1) && ends(s1, m) ==> ends(s, m + 1)
  {
    forall s, s1, m: nat | calling(s) && next(s, s1) && ends(s1, m) ensures ends(s, m + 1) {
      OneMore(s, s1, t, m);
    }
  }

  lemma EndsNow<T>(s: State<T>, t: nat)
    requires Bounds(s) && t in s.threads && s.threads[t].Finished()
    ensures EndsAlone(s, t, 0)
  {
  }

  lemma NextAlone<T>(s: State<T>, t: nat) returns (s1: State<T>)
    requires Calling(s, t) && s.threads[t].Running()
    ensures s1 == Apply(s, Step(t, false)) && Calling(s1, t)
    ensures Keeps(s, s1, s.threads[t], s1.threads[t]) && Rank(s1, s1.threads[t]) < Rank(s, s.threads[t])
  {
    s1 := Apply(s, Step(t, false));
    RI.StepInv(s, Step(t, false));
    StepKeepsOutcome(s, t, false);
    NotIdle(s, t);
  }

  lemma OneMore<T>(s: State<T>, s1: State<T>, t: nat, m: nat)
    requires Bounds(s) && t in s.threads && s.threads[t].Running() && s1 == Apply(s, Step(t, false))
    requires Keeps(s, s1, s.threads[t], s1.threads[t]) && EndsAlone(s1, t, m)
    ensures EndsAlone(s, t, m + 1)
  {
    assert Alone<T>(t, m + 1)[1..] == Alone<T>(t, m);
  }

  lemma NotIdle<T>(s: State<T>, t: nat)
    requires s.mem.WellSized() && t in s.threads && s.threads[t].Running()
    ensures !Apply(s, Step(t, false)).threads[t].Idle?
  {
  }

  /** `Outcome`, `Gain` and `Loss` of an `enqueue`, spelled out. */
  lemma EnqueueOutcome<T>(s: State<T>, l: Local<T>)
    requires Bounds(s) && Enqueues(l)
    ensures Loss(s, l) == 0
    ensures l.OwnsWrite() ==> Outcome(s, l) == EnqDone(l.pos) && Gain(s, l) == []
    ensures GivesUp(l) ==> Outcome(s, l) == EnqFull(l.pos) && Gain(s, l) == []
    ensures !l.OwnsWrite() && !GivesUp(l) && Room(s) ==> Outcome(s, l) == EnqDone(s.mem.enqueuePos) && Gain(s, l) == [l.item]
    ensures !l.OwnsWrite() && !GivesUp(l) && !Room(s) ==> Outcome(s, l) == EnqFull(s.mem.enqueuePos) && Gain(s, l) == []
  {
  }

  lemma DequeueOutcome<T>(s: State<T>, l: Local<T>)
    requires Bounds(s) && Dequeues(l) && (l.OwnsRead() ==> l.pos < |s.items|)
    ensures Gain(s, l) == []
    ensures l.OwnsRead() ==> Outcome(s, l) == DeqDone(l.pos, Some(s.items[l.pos])) && Loss(s, l) == 0
    ensures GivesUp(l) ==> Outcome(s, l) == DeqEmpty(l.pos) && Loss(s, l) == 0
    ensures !l.OwnsRead() && !GivesUp(l) && Ready(s) ==>
              s.mem.dequeuePos < |s.items| && Loss(s, l) == 1
              && Outcome(s, l) == DeqDone(s.mem.dequeuePos, Some(s.items[s.mem.dequeuePos]))
    ensures !l.OwnsRead() && !GivesUp(l) && !Ready(s) ==> Outcome(s, l) == DeqEmpty(s.mem.dequeuePos) && Loss(s, l) == 0
  {
  }

  lemma RankBound<T>(s: State<T>, l: Local<T>)
    ensures Rank(s, l) <= 7
  {
  }

  lemma ReachableEnds<T(!new)>(s: State<T>, k: nat, tids: set<nat>, t: nat) returns (n: nat)
    requires k >= 1 && Reachable(s, k, tids) && t in s.threads && s.threads[t].Running()
    ensures Bounds(s) && s.mem.k == k && n <= 7 && EndsAlone(s, t, n)
    ensures s.threads[t].OwnsRead() ==> s.threads[t].pos < |s.items|
  {
    ReachableInv(s, k, tids);
    RankBound(s, s.threads[t]);
    assert LocalOk(s, s.threads[t]);
    n := RunsToTheEnd(s, t);
  }

  /** Seven steps suffice for `enqueue` from wherever it is. A thread that holds a position completes
      it; one that has loaded a sequence number saying "full" answers so; any other succeeds if and
      only if there is room now, and then its item is the last one claimed. */
  lemma EnqueueFinishesAlone<T(!new)>(s: State<T>, k: nat, tids: set<nat>, t: nat) returns (n: nat)
    requires k >= 1 && Reachable(s, k, tids) && t in s.threads && Enqueues(s.threads[t])
    ensures s.mem.WellSized() && n <= 7 && Legal(s, Alone<T>(t, n))
    ensures var l, e, s' := s.threads[t], s.mem.enqueuePos, Run(s, Alone<T>(t, n));
            && t in s'.threads && s'.mem.dequeuePos == s.mem.dequeuePos
            && (l.OwnsWrite() ==> s'.threads[t] == EnqDone(l.pos) && s'.items == s.items)
            && (GivesUp(l) ==> s'.threads[t] == EnqFull(l.pos) && s'.items == s.items)
            && (!l.OwnsWrite() && !GivesUp(l) ==>
                  if e < Pow2(k) || Released(s, e - Pow2(k))
                  then s'.threads[t] == EnqDone(e) && s'.items == s.items + [l.item]
                  else s'.threads[t] == EnqFull(e) && s'.items == s.items)
  {
    n := ReachableEnds(s, k, tids, t);
    EnqueueOutcome(s, s.threads[t]);
  }

  /** And for `dequeue`: it succeeds if and only if the position to take is published now, with that
      position's item, and takes it from the front. */
  lemma DequeueFinishesAlone<T(!new)>(s: State<T>, k: nat, tids: set<nat>, t: nat) returns (n: nat)
    requires k >= 1 && Reachable(s, k, tids) && t in s.threads && Dequeues(s.threads[t])
    ensures s.mem.WellSized() && n <= 7 && Legal(s, Alone<T>(t, n))
    ensures var l, d, s' := s.threads[t], s.mem.dequeuePos, Run(s, Alone<T>(t, n));
            && t in s'.threads && s'.items == s.items
            && (l.OwnsRead() ==> l.pos < |s.items| && s'.threads[t] == DeqDone(l.pos, Some(s.items[l.pos])) && s'.mem.dequeuePos == d)
            && (GivesUp(l) ==> s'.threads[t] == DeqEmpty(l.pos) && s'.mem.dequeuePos == d)
            && (!l.OwnsRead() && !GivesUp(l) ==>
                  if Published(s, d)
                  then d < |s.items| && s'.threads[t] == DeqDone(d, Some(s.items[d])) && s'.mem.dequeuePos == d + 1
                  else s'.threads[t] == DeqEmpty(d) && s'.mem.dequeuePos == d)
  {
    n := ReachableEnds(s, k, tids, t);
    DequeueOutcome(s, s.threads[t]);
  }
}
