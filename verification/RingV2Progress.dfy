/** The double-word ring never keeps a lone thread waiting either: its reload after a failed
    compare-and-swap, which the single-word ring does not have, cannot repeat. */
module RingV2Progress {
  import opened Wrappers
  import opened Slots
  import R = Ring
  import RI = RingInvariant
  import RT = RingTheorems
  import RP = RingProgress
  import D = Descent
  import opened RingV2

  /** `n` steps of thread `t`. */
  ghost function Alone<T>(t: nat, n: nat): seq<Action<T>> {
    if n == 0 then [] else [Step(t)] + Alone(t, n - 1)
  }

  /** A state and the state of the single-word ring that it matches. */
  ghost predicate Paired<T>(s: State<T>, r: R.State<T>) {
    s.mem.WellSized() && Tags(s) && Matches(s, r) && R.Inv(r)
  }

  ghost predicate Reachable<T(!new)>(s: State<T>, k: nat, tids: set<nat>) {
    exists acts :: Legal(Init<T>(k, tids), acts) && Run(Init<T>(k, tids), acts) == s
  }

  lemma ReachablePaired<T(!new)>(s: State<T>, k: nat, tids: set<nat>) returns (r: R.State<T>)
    requires k >= 1 && Reachable(s, k, tids)
    ensures Paired(s, r) && s.mem.k == k
  {
    var acts :| Legal(Init<T>(k, tids), acts) && Run(Init<T>(k, tids), acts) == s;
    r := ReachesOnlyRingStates(k, tids, acts);
    RT.ReachableInv(r, k, tids);
  }

  /** A bound on the steps left when nobody else moves. */
  ghost function Rank<T>(r: R.State<T>, l: Local<T>): nat {
    if l.EnqReload? || l.DeqReload? then 5 else RP.Rank(r, DropLocal(l))
  }

  /** The answering ring keeps how the call of thread `t` is going to end. */
  ghost predicate Keeps<T>(s: State<T>, r: R.State<T>, s': State<T>, r': R.State<T>, t: nat)
    requires R.Bounds(r) && t in s.threads && t in s'.threads
  {
    RP.Keeps(r, r', DropLocal(s.threads[t]), DropLocal(s'.threads[t]))
  }

  /** The counters of the two rings are the same. */
  ghost predicate SameCounters<T>(m: Shared<T>, r: R.State<T>) {
    r.mem.enqueuePos == m.enqueuePos.value && r.mem.dequeuePos == m.dequeuePos.value
  }

  /** A test whose compare-and-swap fails: the position has been claimed meanwhile. */
  lemma CasMisses<T>(m: Shared<T>, r: R.State<T>, l: Local<T>)
    requires m.WellSized() && MemoryTags(m) && l.Running() && LocalTag(l) == 0 && Stutters(m, l) && SameCounters(m, r)
    ensures Rank(r, Exec(m, l).1) < Rank(r, l) && DropLocal(Exec(m, l).1) == DropLocal(l)
  {
    if l.EnqTest? {
      assert l.sequence.value == l.pos.value && m.enqueuePos != l.pos;
    } else {
      assert l.DeqTest? && l.sequence.value == l.pos.value + 1 && m.dequeuePos != l.pos;
    }
  }

  /** A reload finds the position that is current. */
  lemma Reloads<T>(m: Shared<T>, r: R.State<T>, l: Local<T>)
    requires m.WellSized() && (l.EnqReload? || l.DeqReload?) && SameCounters(m, r)
    ensures Exec(m, l).0 == m && Rank(r, Exec(m, l).1) < Rank(r, l)
  {
  }

  lemma Executes<T>(s: State<T>, t: nat)
    requires s.mem.WellSized() && Enabled(s, Step(t))
    ensures var s', (m', l') := Apply(s, Step(t)), Exec(s.mem, s.threads[t]);
            s'.mem == m' && s'.threads == s.threads[t := l']
  {
  }

  /** One step alone, answered by the single-word ring: the end stays the same and comes nearer. */
  lemma StepAnswered<T>(s: State<T>, r: R.State<T>, t: nat) returns (r': R.State<T>)
    requires Paired(s, r) && t in s.threads && s.threads[t].Running()
    ensures var s' := Apply(s, Step(t));
            && Paired(s', r') && Keeps(s, r, s', r', t) && Rank(r', s'.threads[t]) < Rank(r, s.threads[t])
  {
    var l := s.threads[t];
    StepAnswerMatches(s, r, t);
    if Stutters(s.mem, l) {
      r' := r;
      Stays(s, r, t);
    } else {
      var spurious := l.EnqReload? || l.DeqReload?;
      r' := R.Apply(r, R.Step(t, spurious));
      AnswerKeeps(s, r, r', t, spurious);
      AnswerRank(s, r, r', t, spurious);
    }
  }

  lemma Stays<T>(s: State<T>, r: R.State<T>, t: nat)
    requires s.mem.WellSized() && Enabled(s, Step(t)) && Stutters(s.mem, s.threads[t]) && R.Bounds(r)
    requires MemoryTags(s.mem) && LocalTag(s.threads[t]) == 0 && SameCounters(s.mem, r)
    ensures Keeps(s, r, Apply(s, Step(t)), r, t) && Rank(r, Apply(s, Step(t)).threads[t]) < Rank(r, s.threads[t])
  {
    Executes(s, t);
    CasMisses(s.mem, r, s.threads[t]);
  }

  lemma AnswerRank<T>(s: State<T>, r: R.State<T>, r': R.State<T>, t: nat, spurious: bool)
    requires s.mem.WellSized() && Enabled(s, Step(t)) && SameCounters(s.mem, r) && SameCounters(Apply(s, Step(t)).mem, r')
    requires spurious == (s.threads[t].EnqReload? || s.threads[t].DeqReload?) && !Stutters(s.mem, s.threads[t])
    requires !spurious ==> RP.Rank(r', DropLocal(Apply(s, Step(t)).threads[t])) < RP.Rank(r, DropLocal(s.threads[t]))
    ensures Rank(r', Apply(s, Step(t)).threads[t]) < Rank(r, s.threads[t])
  {
    Executes(s, t);
    if spurious {
      Reloads(s.mem, r, s.threads[t]);
      SameRank(r, r', Apply(s, Step(t)).threads[t]);
    }
  }

  lemma SameRank<T>(r: R.State<T>, r': R.State<T>, l: Local<T>)
    requires r'.mem.enqueuePos == r.mem.enqueuePos && r'.mem.dequeuePos == r.mem.dequeuePos
    ensures Rank(r', l) == Rank(r, l)
  {
  }

  lemma AnswerKeeps<T>(s: State<T>, r: R.State<T>, r': R.State<T>, t: nat, spurious: bool)
    requires Paired(s, r) && Enabled(s, Step(t)) && R.Enabled(r, R.Step(t, spurious)) && r' == R.Apply(r, R.Step(t, spurious))
    requires Matches(Apply(s, Step(t)), r')
    ensures R.Inv(r') && Keeps(s, r, Apply(s, Step(t)), r', t)
    ensures !spurious ==> RP.Rank(r', DropLocal(Apply(s, Step(t)).threads[t])) < RP.Rank(r, DropLocal(s.threads[t]))
  {
    RI.StepInv(r, R.Step(t, spurious));
    RP.StepKeepsOutcome(r, t, spurious);
  }

  // ---------------------------------------------------------------- to the end

  /** The call of thread `t`, continued alone for `n` steps, ends as the matching ring foresees. */
  ghost predicate EndsAlone<T>(s: State<T>, r: R.State<T>, t: nat, n: nat)
    requires s.mem.WellSized() && R.Bounds(r) && t in s.threads
  {
    && Legal(s, Alone<T>(t, n))
    && var s', l := Run(s, Alone<T>(t, n)), DropLocal(s.threads[t]);
       && t in s'.threads && s'.threads[t].Finished() && DropLocal(s'.threads[t]) == RP.Outcome(r, l)
       && s'.mem.enqueuePos.value == s.mem.enqueuePos.value + |RP.Gain(r, l)|
       && s'.mem.dequeuePos.value == s.mem.dequeuePos.value + RP.Loss(r, l)
  }

  /** A state with its match, in which thread `t` is inside a call or has just finished it. */
  ghost predicate Good<T>(p: (State<T>, R.State<T>), t: nat) {
    Paired(p.0, p.1) && t in p.0.threads && (p.0.threads[t].Running() || p.0.threads[t].Finished())
  }

  ghost predicate Next<T>(p: (State<T>, R.State<T>), q: (State<T>, R.State<T>), t: nat) {
    && Good(p, t) && Good(q, t) && p.0.threads[t].Running() && q.0 == Apply(p.0, Step(t))
    && Keeps(p.0, p.1, q.0, q.1, t)
  }

  ghost function Left<T>(p: (State<T>, R.State<T>), t: nat): nat {
    if t in p.0.threads then Rank(p.1, p.0.threads[t]) else 0
  }

  ghost predicate Ends<T>(p: (State<T>, R.State<T>), t: nat, n: nat) {
    Good(p, t) && EndsAlone(p.0, p.1, t, n)
  }

  lemma RunsToTheEnd<T(!new)>(s: State<T>, r: R.State<T>, t: nat) returns (n: nat)
    requires Good((s, r), t)
    ensures n <= Rank(r, s.threads[t]) && EndsAlone(s, r, t, n)
  {
    var good := (p: (State<T>, R.State<T>)) => Good(p, t);
    var next := (p: (State<T>, R.State<T>), q: (State<T>, R.State<T>)) => Next(p, q, t);
    var rank := (p: (State<T>, R.State<T>)) => Left(p, t);
    var ends := (p: (State<T>, R.State<T>), n: nat) => Ends(p, t, n);
    GoodsEnd(t, good, rank, ends);
    GoodsGoOn(t, good, next, rank);
    EndsGrow(t, good, next, ends);
    n := D.ReachesEnd((s, r), good, next, rank, ends);
    assert ends((s, r), n);
  }

  lemma GoodsEnd<T(!new)>(t: nat, good: ((State<T>, R.State<T>)) -> bool, rank: ((State<T>, R.State<T>)) -> nat,
                          ends: ((State<T>, R.State<T>), nat) -> bool)
    requires forall p :: good(p) == Good(p, t)
    requires forall p :: rank(p) == Left(p, t)
    requires forall p, n: nat :: ends(p, n) == Ends(p, t, n)
    ensures forall p :: good(p) && rank(p) == 0 ==> ends(p, 0)
  {
    forall p | good(p) && rank(p) == 0 ensures ends(p, 0) {
      GoodEnds(p, t);
    }
  }

  lemma GoodsGoOn<T(!new)>(t: nat, good: ((State<T>, R.State<T>)) -> bool,
                           next: ((State<T>, R.State<T>), (State<T>, R.State<T>)) -> bool, rank: ((State<T>, R.State<T>)) -> nat)
    requires forall p :: good(p) == Good(p, t)
    requires forall p, q :: next(p, q) == Next(p, q, t)
    requires forall p :: rank(p) == Left(p, t)
    ensures forall p :: good(p) && rank(p) > 0 ==> exists q :: next(p, q) && good(q) && rank(q) < rank(p)
  {
    forall p | good(p) && rank(p) > 0 ensures exists q :: next(p, q) && good(q) && rank(q) < rank(p) {
      var q := GoodNext(p, t);
      assert next(p, q) && good(q) && rank(q) < rank(p);
    }
  }

  lemma EndsGrow<T(!new)>(t: nat, good: ((State<T>, R.State<T>)) -> bool,
                          next: ((State<T>, R.State<T>), (State<T>, R.State<T>)) -> bool,
                          ends: ((State<T>, R.State<T>), nat) -> bool)
    requires forall p, q :: next(p, q) == Next(p, q, t)
    requires forall p, n: nat :: ends(p, n) == Ends(p, t, n)
    ensures forall p, q, m: nat :: good(p) && next(p, q) && ends(q, m) ==> ends(p, m + 1)
  {
    forall p, q, m: nat | good(p) && next(p, q) && ends(q, m) ensures ends(p, m + 1) {
      OneMore(p, q, t, m);
    }
  }

  lemma GoodEnds<T>(p: (State<T>, R.State<T>), t: nat)
    requires Good(p, t) && Left(p, t) == 0
    ensures Ends(p, t, 0)
  {
    RankZero(p.1, p.0.threads[t]);
    EndsNow(p.0, p.1, t);
  }

  lemma RankZero<T>(r: R.State<T>, l: Local<T>)
    ensures Rank(r, l) == 0 <==> !l.Running()
  {
  }

  lemma GoodNext<T>(p: (State<T>, R.State<T>), t: nat) returns (q: (State<T>, R.State<T>))
    requires Good(p, t) && Left(p, t) > 0
    ensures Next(p, q, t) && Good(q, t) && Left(q, t) < Left(p, t)
  {
    RankZero(p.1, p.0.threads[t]);
    var r1 := StepAnswered(p.0, p.1, t);
    NotIdle(p.0, t);
    q := (Apply(p.0, Step(t)), r1);
  }

  lemma OneMore<T>(p: (State<T>, R.State<T>), q: (State<T>, R.State<T>), t: nat, m: nat)
    requires Next(p, q, t) && Ends(q, t, m)
    ensures Ends(p, t, m + 1)
  {
    OneStepMore(p.0, p.1, q.0, q.1, t, m);
  }

  lemma EndsNow<T>(s: State<T>, r: R.State<T>, t: nat)
    requires s.mem.WellSized() && R.Bounds(r) && t in s.threads && s.threads[t].Finished()
    ensures EndsAlone(s, r, t, 0)
  {
  }

  lemma OneStepMore<T>(s: State<T>, r: R.State<T>, s1: State<T>, r1: R.State<T>, t: nat, m: nat)
    requires s.mem.WellSized() && R.Bounds(r) && R.Bounds(r1) && Enabled(s, Step(t)) && s1 == Apply(s, Step(t)) && t in s1.threads
    requires s.mem.enqueuePos.value == |r.items| && s1.mem.enqueuePos.value == |r1.items|
    requires s.mem.dequeuePos.value == r.mem.dequeuePos && s1.mem.dequeuePos.value == r1.mem.dequeuePos
    requires Keeps(s, r, s1, r1, t) && EndsAlone(s1, r1, t, m)
    ensures EndsAlone(s, r, t, m + 1)
  {
    assert Alone<T>(t, m + 1)[1..] == Alone<T>(t, m);
    var l, l1 := DropLocal(s.threads[t]), DropLocal(s1.threads[t]);
    assert |r1.items + RP.Gain(r1, l1)| == |r.items + RP.Gain(r, l)|;
  }

  lemma NotIdle<T>(s: State<T>, t: nat)
    requires s.mem.WellSized() && t in s.threads && s.threads[t].Running()
    ensures var l' := Apply(s, Step(t)).threads[t]; l'.Running() || l'.Finished()
  {
  }

  // ---------------------------------------------------------------- in this ring's own words

  predicate Enqueues<T>(l: Local<T>) { l.Enqueuing() }

  predicate Dequeues<T>(l: Local<T>) { l.Running() && !l.Enqueuing() }

  /** The thread holds a position. */
  predicate Owns<T>(l: Local<T>) { l.EnqWrite? || l.EnqPublish? || l.DeqRead? || l.DeqRelease? }

  /** The thread has loaded a sequence number that already says "full", or "empty". */
  predicate GivesUp<T>(l: Local<T>) {
    (l.EnqTest? && l.sequence.value < l.pos.value) || (l.DeqTest? && l.sequence.value < l.pos.value + 1)
  }

  /** The cell of position `p`. */
  function CellOf<T>(m: Shared<T>, p: nat): Cell<T>
    requires m.WellSized()
  {
    m.cells[Slot(p, m.k)]
  }

  /** Seven steps suffice for `enqueue` from wherever it is; a thread that neither holds a position nor
      has loaded "full" succeeds if and only if the next position's cell is free now. */
  lemma EnqueueFinishesAlone<T(!new)>(s: State<T>, k: nat, tids: set<nat>, t: nat) returns (n: nat)
    requires k >= 1 && Reachable(s, k, tids) && t in s.threads && Enqueues(s.threads[t])
    ensures s.mem.WellSized() && n <= 7 && Legal(s, Alone<T>(t, n))
    ensures var l, e, s' := s.threads[t], s.mem.enqueuePos.value, Run(s, Alone<T>(t, n));
            && t in s'.threads && s'.mem.dequeuePos.value == s.mem.dequeuePos.value
            && (Owns(l) ==> s'.threads[t].EnqDone? && s'.threads[t].pos.value == l.pos.value && s'.mem.enqueuePos.value == e)
            && (GivesUp(l) ==> s'.threads[t].EnqFull? && s'.threads[t].pos.value == l.pos.value && s'.mem.enqueuePos.value == e)
            && (!Owns(l) && !GivesUp(l) ==>
                  && s'.threads[t].EnqDone? == (CellOf(s.mem, e).sequence.value == e)
                  && s'.threads[t].EnqFull? == (CellOf(s.mem, e).sequence.value != e)
                  && (s'.threads[t].EnqDone? ==> s'.threads[t].pos.value == e && s'.mem.enqueuePos.value == e + 1)
                  && (s'.threads[t].EnqFull? ==> s'.mem.enqueuePos.value == e))
  {
    var r := ReachablePaired(s, k, tids);
    n := RunsToTheEnd(s, r, t);
    RP.RankBound(r, DropLocal(s.threads[t]));
    EnqueueEnds(s, r, s.threads[t], Run(s, Alone<T>(t, n)), t);
  }

  /** What the matching ring foresees for an `enqueue`, in this ring's words. */
  lemma EnqueueEnds<T>(s: State<T>, r: R.State<T>, l: Local<T>, s': State<T>, t: nat)
    requires Paired(s, r) && Enqueues(l) && ReloadOk(l) && t in s'.threads && DropLocal(s'.threads[t]) == RP.Outcome(r, DropLocal(l))
    requires s'.mem.enqueuePos.value == s.mem.enqueuePos.value + |RP.Gain(r, DropLocal(l))|
    requires s'.mem.dequeuePos.value == s.mem.dequeuePos.value + RP.Loss(r, DropLocal(l))
    ensures s'.mem.dequeuePos.value == s.mem.dequeuePos.value
    ensures var e, l' := s.mem.enqueuePos.value, s'.threads[t];
            && (Owns(l) ==> l'.EnqDone? && l'.pos.value == l.pos.value && s'.mem.enqueuePos.value == e)
            && (GivesUp(l) ==> l'.EnqFull? && l'.pos.value == l.pos.value && s'.mem.enqueuePos.value == e)
            && (!Owns(l) && !GivesUp(l) ==>
                  && l'.EnqDone? == (CellOf(s.mem, e).sequence.value == e)
                  && l'.EnqFull? == (CellOf(s.mem, e).sequence.value != e)
                  && (l'.EnqDone? ==> l'.pos.value == e && s'.mem.enqueuePos.value == e + 1)
                  && (l'.EnqFull? ==> s'.mem.enqueuePos.value == e))
  {
    DropsEnqueue(l);
    RP.EnqueueOutcome(r, DropLocal(l));
    RP.RoomIsSequence(r);
  }

  lemma DropsEnqueue<T>(l: Local<T>)
    requires Enqueues(l) && ReloadOk(l)
    ensures RP.Enqueues(DropLocal(l)) && (DropLocal(l).OwnsWrite() <==> Owns(l)) && (RP.GivesUp(DropLocal(l)) <==> GivesUp(l))
    ensures Owns(l) || GivesUp(l) ==> DropLocal(l).pos == l.pos.value
  {
  }

  lemma DropsDequeue<T>(l: Local<T>)
    requires Dequeues(l) && ReloadOk(l)
    ensures RP.Dequeues(DropLocal(l)) && (DropLocal(l).OwnsRead() <==> Owns(l)) && (RP.GivesUp(DropLocal(l)) <==> GivesUp(l))
    ensures Owns(l) || GivesUp(l) ==> DropLocal(l).pos == l.pos.value
  {
  }

  /** And for `dequeue`: it succeeds if and only if the front position's cell is filled now, with the
      item that the cell holds. */
  lemma DequeueFinishesAlone<T(!new)>(s: State<T>, k: nat, tids: set<nat>, t: nat) returns (n: nat)
    requires k >= 1 && Reachable(s, k, tids) && t in s.threads && Dequeues(s.threads[t])
    ensures s.mem.WellSized() && n <= 7 && Legal(s, Alone<T>(t, n))
    ensures var l, d, s' := s.threads[t], s.mem.dequeuePos.value, Run(s, Alone<T>(t, n));
            && t in s'.threads && s'.mem.enqueuePos.value == s.mem.enqueuePos.value
            && (Owns(l) ==> s'.threads[t].DeqDone? && s'.threads[t].pos.value == l.pos.value && s'.mem.dequeuePos.value == d
                            && s'.threads[t].out == if l.DeqRead? then CellOf(s.mem, l.pos.value).data else l.out)
            && (GivesUp(l) ==> s'.threads[t].DeqEmpty? && s'.threads[t].pos.value == l.pos.value && s'.mem.dequeuePos.value == d)
            && (!Owns(l) && !GivesUp(l) ==>
                  && s'.threads[t].DeqDone? == (CellOf(s.mem, d).sequence.value == d + 1)
                  && s'.threads[t].DeqEmpty? == (CellOf(s.mem, d).sequence.value != d + 1)
                  && (s'.threads[t].DeqDone? ==> s'.threads[t].pos.value == d && s'.mem.dequeuePos.value == d + 1
                                                 && s'.threads[t].out == CellOf(s.mem, d).data && s'.threads[t].out.Some?)
                  && (s'.threads[t].DeqEmpty? ==> s'.mem.dequeuePos.value == d))
  {
    var r := ReachablePaired(s, k, tids);
    assert R.LocalOk(r, r.threads[t]);
    n := RunsToTheEnd(s, r, t);
    RP.RankBound(r, DropLocal(s.threads[t]));
    DequeueEnds(s, r, s.threads[t], Run(s, Alone<T>(t, n)), t);
  }

  /** The same cell in the two rings. */
  lemma SameCell<T>(m: Shared<T>, r: R.State<T>, p: nat)
    requires m.WellSized() && r.mem == DropMemory(m)
    ensures r.mem.WellSized() && r.mem.k == m.k && r.mem.cells[Slot(p, r.mem.k)] == DropCell(CellOf(m, p))
  {
  }

  lemma DequeueEnds<T>(s: State<T>, r: R.State<T>, l: Local<T>, s': State<T>, t: nat)
    requires s.mem.WellSized() && r.mem == DropMemory(s.mem) && R.Bounds(r) && R.Owners(r) && R.Window(r)
    requires Dequeues(l) && ReloadOk(l) && R.LocalOk(r, DropLocal(l))
    requires t in s'.threads && DropLocal(s'.threads[t]) == RP.Outcome(r, DropLocal(l))
    requires s'.mem.enqueuePos.value == s.mem.enqueuePos.value + |RP.Gain(r, DropLocal(l))|
    requires s'.mem.dequeuePos.value == s.mem.dequeuePos.value + RP.Loss(r, DropLocal(l))
    ensures s'.mem.enqueuePos.value == s.mem.enqueuePos.value
    ensures var d, l' := s.mem.dequeuePos.value, s'.threads[t];
            && (Owns(l) ==> l'.DeqDone? && l'.pos.value == l.pos.value && s'.mem.dequeuePos.value == d
                            && l'.out == if l.DeqRead? then CellOf(s.mem, l.pos.value).data else l.out)
            && (GivesUp(l) ==> l'.DeqEmpty? && l'.pos.value == l.pos.value && s'.mem.dequeuePos.value == d)
            && (!Owns(l) && !GivesUp(l) ==>
                  && l'.DeqDone? == (CellOf(s.mem, d).sequence.value == d + 1)
                  && l'.DeqEmpty? == (CellOf(s.mem, d).sequence.value != d + 1)
                  && (l'.DeqDone? ==> l'.pos.value == d && s'.mem.dequeuePos.value == d + 1
                                      && l'.out == CellOf(s.mem, d).data && l'.out.Some?)
                  && (l'.DeqEmpty? ==> s'.mem.dequeuePos.value == d))
  {
    DropsDequeue(l);
    RP.DequeueOutcome(r, DropLocal(l));
    if Owns(l) {
      OwnedCell(s.mem, r, l);
    } else {
      FrontCell(s.mem, r);
    }
  }

  lemma OwnedCell<T>(m: Shared<T>, r: R.State<T>, l: Local<T>)
    requires m.WellSized() && r.mem == DropMemory(m) && R.Bounds(r) && (l.DeqRead? || l.DeqRelease?) && R.LocalOk(r, DropLocal(l))
    ensures l.pos.value < |r.items|
    ensures Some(r.items[l.pos.value]) == if l.DeqRead? then CellOf(m, l.pos.value).data else l.out
  {
    SameCell(m, r, l.pos.value);
  }

  lemma FrontCell<T>(m: Shared<T>, r: R.State<T>)
    requires m.WellSized() && r.mem == DropMemory(m) && R.Bounds(r) && R.Owners(r) && R.Window(r)
    ensures var d := m.dequeuePos.value;
            && (RP.Ready(r) <==> CellOf(m, d).sequence.value == d + 1)
            && (RP.Ready(r) ==> d < |r.items| && CellOf(m, d).data == Some(r.items[d]))
  {
    var d := m.dequeuePos.value;
    SameCell(m, r, d);
    RP.ReadyIsSequence(r);
    if RP.Ready(r) { assert R.CellOk(r, d); }
  }
}
