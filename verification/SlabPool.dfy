/** The slab pool of base/LFMemoryPool.h: size classes, a free list per class and a cache per
    thread and class. A free list is the stack that `FreeListTheorems.RefinesStack` shows it to
    be; every push and pop on it is one step, interleaved with those of other threads. */
module SlabPool {
  import opened Slots

  type Addr = nat

  const MIN_CLASS: nat := 6
  const MAX_CLASS: nat := 12
  const CLASSES: nat := MAX_CLASS - MIN_CLASS + 1
  const CACHE_CAPACITY: nat := 16

  // ---------------------------------------------------------------- size classes

  /** `blockSize`, lines 230-233. */
  function BlockSize(c: nat): nat { Pow2(c + MIN_CLASS) }

  lemma {:induction false} Pow2Grows(i: nat, j: nat)
    requires i < j
    ensures 2 * Pow2(i) <= Pow2(j)
  {
    if i + 1 < j {
      Pow2Grows(i, j - 1);
    }
  }

  /** The class of a request: the first whose blocks are large enough. */
  ghost predicate IsClassOf(c: nat, size: nat) {
    c < CLASSES && size <= BlockSize(c) && (c > 0 ==> BlockSize(c - 1) < size)
  }

  lemma ClassIsUnique(c: nat, d: nat, size: nat)
    requires IsClassOf(c, size) && IsClassOf(d, size)
    ensures c == d
  {
    if c < d && c + MIN_CLASS < d - 1 + MIN_CLASS { Pow2Grows(c + MIN_CLASS, d - 1 + MIN_CLASS); }
    if d < c && d + MIN_CLASS < c - 1 + MIN_CLASS { Pow2Grows(d + MIN_CLASS, c - 1 + MIN_CLASS); }
  }

  /** `sizeClass`, lines 212-228. */
  method SizeClass(size: nat) returns (c: nat)
    requires 0 < size <= Pow2(MAX_CLASS)
    ensures IsClassOf(c, size)
  {
    var aligned, cls := 1, 0;
    while aligned < size
      invariant aligned == Pow2(cls) && (cls > 0 ==> Pow2(cls - 1) < size) && cls <= MAX_CLASS
      decreases MAX_CLASS - cls
    {
      if cls == MAX_CLASS {
        assert false;
      }
      aligned := aligned * 2;
      cls := cls + 1;
    }
    if cls < MIN_CLASS {
      Pow2Grows(cls, MIN_CLASS);
      cls := MIN_CLASS;
    }
    c := cls - MIN_CLASS;
  }

  /** A block is at least as large as the request and, above 64 bytes, less than twice it. */
  lemma BlockFits(c: nat, size: nat)
    requires IsClassOf(c, size)
    ensures size <= BlockSize(c)
    ensures size > 64 ==> BlockSize(c) < 2 * size
    ensures size <= 64 ==> BlockSize(c) == 64
  {
    assert Pow2(6) == 64 by {
      assert Pow2(3) == 8;
    }
    if c > 0 && c - 1 > 0 {
      Pow2Grows(MIN_CLASS, c - 1 + MIN_CLASS);
    }
  }

  // ---------------------------------------------------------------- the machine

  datatype Place = Live | Listed | Cached(t: nat) | Flying(t: nat)

  /** Where a thread is: refilling its cache (`i` blocks so far), about to take a block, back
      from `allocate` with block `a`, or draining its cache with `left` blocks to go and, in
      `PushBack`, block `a` in hand. */
  datatype Pc =
    | Idle
    | Refill(c: nat, i: nat)
    | Take(c: nat)
    | Allocated(c: nat, a: Addr)
    | Drain(c: nat, left: nat)
    | PushBack(c: nat, left: nat, a: Addr)

  /** `kind` is the class of every block ever obtained; `place` is history. */
  datatype State = State(
    kind: map<Addr, nat>,
    place: map<Addr, Place>,
    lists: map<nat, seq<Addr>>,
    caches: map<(nat, nat), seq<Addr>>,
    threads: map<nat, Pc>)

  datatype Action =
    | Allocate(t: nat, c: nat)
    | Deallocate(t: nat, c: nat, a: Addr)
    | Step(t: nat, block: Addr)
    | Return(t: nat)

  function Init(tids: set<nat>): State {
    var classes := set c: nat {:trigger BlockSize(c)} | c < CLASSES;
    State(map[], map[], map c | c in classes :: [],
          map t, c | t in tids && c in classes :: (t, c) := [], map t | t in tids :: Idle)
  }

  ghost predicate Shape(s: State) {
    && s.kind.Keys == s.place.Keys
    && (forall c: nat :: c in s.lists <==> c < CLASSES)
    && (forall t: nat, c: nat :: (t, c) in s.caches <==> t in s.threads && c < CLASSES)
    && (forall t :: t in s.threads && !s.threads[t].Idle? ==> s.threads[t].c < CLASSES)
  }

  ghost predicate Enabled(s: State, a: Action)
    requires Shape(s)
  {
    a.t in s.threads &&
    match a
    case Allocate(t, c) => s.threads[t].Idle? && c < CLASSES
    case Deallocate(t, c, b) =>
      s.threads[t].Idle? && c < CLASSES && b in s.place && s.place[b] == Live && s.kind[b] == c
    case Step(t, block) => !s.threads[t].Idle? && !s.threads[t].Allocated? && block !in s.kind && block != 0
    case Return(t) => s.threads[t].Allocated?
  }

  function Last(q: seq<Addr>): Addr
    requires q != []
  {
    q[|q| - 1]
  }

  function AllButLast(q: seq<Addr>): seq<Addr>
    requires q != []
  {
    q[..|q| - 1]
  }

  ghost function Apply(s: State, a: Action): State
    requires Shape(s) && Enabled(s, a)
  {
    match a
    case Allocate(t, c) =>
      s.(threads := s.threads[t := if s.caches[(t, c)] != [] then Take(c) else Refill(c, 0)])
    case Return(t) => s.(threads := s.threads[t := Idle])
    case Deallocate(t, c, b) =>
      var cache := s.caches[(t, c)] + [b];
      s.(place := s.place[b := Cached(t)], caches := s.caches[(t, c) := cache],
         threads := s.threads[t := if |cache| >= CACHE_CAPACITY * 2 then Drain(c, |cache| / 2) else Idle])
    case Step(t, block) => Advance(s, t, block)
  }

  ghost function Advance(s: State, t: nat, block: Addr): State
    requires Shape(s) && Enabled(s, Step(t, block))
  {
    match s.threads[t]
    case Refill(c, i) =>
      if i == CACHE_CAPACITY || s.lists[c] == [] then s.(threads := s.threads[t := Take(c)])
      else
        var b := s.lists[c][0];
        s.(place := s.place[b := Cached(t)], lists := s.lists[c := s.lists[c][1..]],
           caches := s.caches[(t, c) := s.caches[(t, c)] + [b]], threads := s.threads[t := Refill(c, i + 1)])
    case Take(c) =>
      var cache := s.caches[(t, c)];
      if cache != [] then
        s.(place := s.place[Last(cache) := Live], caches := s.caches[(t, c) := AllButLast(cache)],
           threads := s.threads[t := Allocated(c, Last(cache))])
      else
        s.(kind := s.kind[block := c], place := s.place[block := Live],
           threads := s.threads[t := Allocated(c, block)])
    case Drain(c, left) =>
      var cache := s.caches[(t, c)];
      if left == 0 || cache == [] then s.(threads := s.threads[t := Idle])
      else
        s.(place := s.place[Last(cache) := Flying(t)], caches := s.caches[(t, c) := AllButLast(cache)],
           threads := s.threads[t := PushBack(c, left - 1, Last(cache))])
    case PushBack(c, left, b) =>
      s.(place := s.place[b := Listed], lists := s.lists[c := [b] + s.lists[c]],
         threads := s.threads[t := Drain(c, left)])
    case _ => s
  }

  // ---------------------------------------------------------------- the invariant

  ghost predicate Distinct(q: seq<Addr>) {
    forall i, j :: 0 <= i < j < |q| ==> q[i] != q[j]
  }

  /** `q` lists, once each, the blocks of class `c` whose place is `p`. */
  ghost predicate Holds(kind: map<Addr, nat>, place: map<Addr, Place>, q: seq<Addr>, c: nat, p: Place)
    requires kind.Keys == place.Keys
  {
    Distinct(q) && forall b {:trigger b in q} {:trigger b in place} ::
      b in q <==> b in place && place[b] == p && kind[b] == c
  }

  /** A block in nobody's list is in the hands of the thread that is moving it. */
  ghost predicate FlyingOk(s: State, b: Addr)
    requires Shape(s) && b in s.place && s.place[b].Flying?
  {
    var t := s.place[b].t;
    t in s.threads && s.threads[t].PushBack? && s.threads[t].a == b && s.threads[t].c == s.kind[b]
  }

  /** The size of each cache, at each point of its thread's calls. */
  ghost predicate CacheSize(pc: Pc, c: nat, n: nat) {
    if pc.Idle? || pc.Allocated? || pc.c != c then n < CACHE_CAPACITY * 2
    else
      match pc
      case Refill(_, i) => n == i <= CACHE_CAPACITY
      case Take(_) => n < CACHE_CAPACITY * 2
      case Drain(_, left) => n == CACHE_CAPACITY + left <= 2 * CACHE_CAPACITY
      case PushBack(_, left, _) => n == CACHE_CAPACITY + left < 2 * CACHE_CAPACITY
  }

  ghost predicate ListsOk(s: State)
    requires Shape(s)
  {
    forall c: nat :: c < CLASSES ==> Holds(s.kind, s.place, s.lists[c], c, Listed)
  }

  ghost predicate CachesOk(s: State)
    requires Shape(s)
  {
    forall t, c: nat :: t in s.threads && c < CLASSES ==> Holds(s.kind, s.place, s.caches[(t, c)], c, Cached(t))
  }

  ghost predicate HandsOk(s: State)
    requires Shape(s)
  {
    && (forall b :: b in s.place && s.place[b].Flying? ==> FlyingOk(s, b))
    && (forall t :: t in s.threads && s.threads[t].PushBack? ==>
          s.threads[t].a in s.place && s.place[s.threads[t].a] == Flying(t))
  }

  ghost predicate SizesOk(s: State)
    requires Shape(s)
  {
    forall t, c: nat :: t in s.threads && c < CLASSES ==> CacheSize(s.threads[t], c, |s.caches[(t, c)]|)
  }

  ghost predicate Inv(s: State) { Shape(s) && ListsOk(s) && CachesOk(s) && HandsOk(s) && SizesOk(s) }

  lemma InitInv(tids: set<nat>)
    ensures Inv(Init(tids))
  {
    assert forall c: nat :: c < CLASSES ==> BlockSize(c) >= 1;
  }

  // ---------------------------------------------------------------- moving one block

  lemma HoldsFrame(kind: map<Addr, nat>, place: map<Addr, Place>, q: seq<Addr>, c: nat, p: Place, b: Addr, to: Place)
    requires kind.Keys == place.Keys && b in place && Holds(kind, place, q, c, p)
    requires kind[b] != c || (place[b] != p && to != p)
    ensures Holds(kind, place[b := to], q, c, p)
  {
  }

  lemma HoldsMore(kind: map<Addr, nat>, place: map<Addr, Place>, q: seq<Addr>, c: nat, p: Place, b: Addr)
    requires kind.Keys == place.Keys && b in place && Holds(kind, place, q, c, p)
    requires kind[b] == c && place[b] != p
    ensures Holds(kind, place[b := p], q + [b], c, p) && Holds(kind, place[b := p], [b] + q, c, p)
  {
  }

  lemma HoldsLessLast(kind: map<Addr, nat>, place: map<Addr, Place>, q: seq<Addr>, c: nat, p: Place, to: Place)
    requires kind.Keys == place.Keys && Holds(kind, place, q, c, p) && q != [] && to != p
    ensures Last(q) in place && place[Last(q)] == p && kind[Last(q)] == c
    ensures Holds(kind, place[Last(q) := to], AllButLast(q), c, p)
  {
    assert q == AllButLast(q) + [Last(q)];
    assert Last(q) in q;
  }

  lemma HoldsLessFirst(kind: map<Addr, nat>, place: map<Addr, Place>, q: seq<Addr>, c: nat, p: Place, to: Place)
    requires kind.Keys == place.Keys && Holds(kind, place, q, c, p) && q != [] && to != p
    ensures q[0] in place && place[q[0]] == p && kind[q[0]] == c
    ensures Holds(kind, place[q[0] := to], q[1..], c, p)
  {
    assert q == [q[0]] + q[1..];
    assert q[0] in q;
  }

  lemma HoldsNew(kind: map<Addr, nat>, place: map<Addr, Place>, q: seq<Addr>, c: nat, p: Place, b: Addr, d: nat)
    requires kind.Keys == place.Keys && b !in place && Holds(kind, place, q, c, p) && p != Live
    ensures Holds(kind[b := d], place[b := Live], q, c, p)
  {
  }

  /** One block changed place and nothing else about blocks: the lists and caches of other
      classes, and those that are neither where it was nor where it goes, are as before. */
  ghost predicate Moved(s: State, s': State, b: Addr, to: Place) {
    && Shape(s) && Shape(s') && b in s.place && s'.kind == s.kind && s'.place == s.place[b := to]
    && s'.threads.Keys == s.threads.Keys
  }

  lemma ListsAfterMove(s: State, s': State, b: Addr, to: Place)
    requires Moved(s, s', b, to) && ListsOk(s)
    requires forall c: nat :: c < CLASSES && c != s.kind[b] ==> s'.lists[c] == s.lists[c]
    requires s.kind[b] < CLASSES ==> Holds(s'.kind, s'.place, s'.lists[s.kind[b]], s.kind[b], Listed)
    ensures ListsOk(s')
  {
    forall c: nat | c < CLASSES ensures Holds(s'.kind, s'.place, s'.lists[c], c, Listed) {
      if c != s.kind[b] {
        HoldsFrame(s.kind, s.place, s.lists[c], c, Listed, b, to);
      }
    }
  }

  lemma CachesAfterMove(s: State, s': State, b: Addr, to: Place, t: nat)
    requires Moved(s, s', b, to) && CachesOk(s) && t in s.threads && s.kind[b] < CLASSES
    requires s'.caches == s.caches[(t, s.kind[b]) := s'.caches[(t, s.kind[b])]]
    requires Holds(s'.kind, s'.place, s'.caches[(t, s.kind[b])], s.kind[b], Cached(t))
    requires forall u :: u != t ==> s.place[b] != Cached(u) && to != Cached(u)
    ensures CachesOk(s')
  {
    forall u, c: nat | u in s'.threads && c < CLASSES ensures Holds(s'.kind, s'.place, s'.caches[(u, c)], c, Cached(u)) {
      if u != t || c != s.kind[b] {
        HoldsFrame(s.kind, s.place, s.caches[(u, c)], c, Cached(u), b, to);
      }
    }
  }

  // ---------------------------------------------------------------- the steps

  lemma RefillMoves(s: State, t: nat, block: Addr)
    requires Inv(s) && Enabled(s, Step(t, block)) && s.threads[t].Refill?
    requires s.threads[t].i != CACHE_CAPACITY && s.lists[s.threads[t].c] != []
    ensures Shape(Apply(s, Step(t, block))) && ListsOk(Apply(s, Step(t, block))) && CachesOk(Apply(s, Step(t, block)))
    ensures HandsOk(Apply(s, Step(t, block)))
  {
    var c := s.threads[t].c;
    var s' := Apply(s, Step(t, block));
    var b := s.lists[c][0];
    HoldsLessFirst(s.kind, s.place, s.lists[c], c, Listed, Cached(t));
    HoldsMore(s.kind, s.place, s.caches[(t, c)], c, Cached(t), b);
    ListsAfterMove(s, s', b, Cached(t));
    CachesAfterMove(s, s', b, Cached(t), t);
  }

  lemma RefillInv(s: State, t: nat, block: Addr)
    requires Inv(s) && Enabled(s, Step(t, block)) && s.threads[t].Refill?
    ensures Inv(Apply(s, Step(t, block)))
  {
    var c := s.threads[t].c;
    assert CacheSize(s.threads[t], c, |s.caches[(t, c)]|);
    if s.threads[t].i != CACHE_CAPACITY && s.lists[c] != [] {
      RefillMoves(s, t, block);
    }
  }

  lemma TakeInv(s: State, t: nat, block: Addr)
    requires Inv(s) && Enabled(s, Step(t, block)) && s.threads[t].Take?
    ensures Inv(Apply(s, Step(t, block)))
  {
    var c := s.threads[t].c;
    var s' := Apply(s, Step(t, block));
    var cache := s.caches[(t, c)];
    if cache != [] {
      HoldsLessLast(s.kind, s.place, cache, c, Cached(t), Live);
      HoldsFrame(s.kind, s.place, s.lists[c], c, Listed, Last(cache), Live);
      ListsAfterMove(s, s', Last(cache), Live);
      CachesAfterMove(s, s', Last(cache), Live, t);
    } else {
      TakeNew(s, s', block, c);
    }
  }

  lemma TakeNew(s: State, s': State, block: Addr, c: nat)
    requires Shape(s) && ListsOk(s) && CachesOk(s) && Shape(s') && block !in s.kind
    requires s'.kind == s.kind[block := c] && s'.place == s.place[block := Live]
    requires s'.lists == s.lists && s'.caches == s.caches && s'.threads.Keys == s.threads.Keys
    ensures ListsOk(s') && CachesOk(s')
  {
    forall d: nat | d < CLASSES ensures Holds(s'.kind, s'.place, s'.lists[d], d, Listed) {
      HoldsNew(s.kind, s.place, s.lists[d], d, Listed, block, c);
    }
    forall u, d: nat | u in s'.threads && d < CLASSES ensures Holds(s'.kind, s'.place, s'.caches[(u, d)], d, Cached(u)) {
      HoldsNew(s.kind, s.place, s.caches[(u, d)], d, Cached(u), block, c);
    }
  }

  lemma DrainInv(s: State, t: nat, block: Addr)
    requires Inv(s) && Enabled(s, Step(t, block)) && s.threads[t].Drain?
    ensures Inv(Apply(s, Step(t, block)))
  {
    var c := s.threads[t].c;
    var s' := Apply(s, Step(t, block));
    var cache := s.caches[(t, c)];
    assert CacheSize(s.threads[t], c, |cache|);
    if s.threads[t].left != 0 {
      HoldsLessLast(s.kind, s.place, cache, c, Cached(t), Flying(t));
      HoldsFrame(s.kind, s.place, s.lists[c], c, Listed, Last(cache), Flying(t));
      ListsAfterMove(s, s', Last(cache), Flying(t));
      CachesAfterMove(s, s', Last(cache), Flying(t), t);
    }
  }

  lemma PushBackMoves(s: State, t: nat, block: Addr)
    requires Inv(s) && Enabled(s, Step(t, block)) && s.threads[t].PushBack?
    ensures Shape(Apply(s, Step(t, block))) && ListsOk(Apply(s, Step(t, block))) && CachesOk(Apply(s, Step(t, block)))
    ensures HandsOk(Apply(s, Step(t, block)))
  {
    var c, b := s.threads[t].c, s.threads[t].a;
    var s' := Apply(s, Step(t, block));
    assert FlyingOk(s, b);
    HoldsMore(s.kind, s.place, s.lists[c], c, Listed, b);
    HoldsFrame(s.kind, s.place, s.caches[(t, c)], c, Cached(t), b, Listed);
    ListsAfterMove(s, s', b, Listed);
    CachesAfterMove(s, s', b, Listed, t);
  }

  lemma PushBackInv(s: State, t: nat, block: Addr)
    requires Inv(s) && Enabled(s, Step(t, block)) && s.threads[t].PushBack?
    ensures Inv(Apply(s, Step(t, block)))
  {
    PushBackMoves(s, t, block);
    assert CacheSize(s.threads[t], s.threads[t].c, |s.caches[(t, s.threads[t].c)]|);
  }

  lemma DeallocateInv(s: State, t: nat, c: nat, b: Addr)
    requires Inv(s) && Enabled(s, Deallocate(t, c, b))
    ensures Inv(Apply(s, Deallocate(t, c, b)))
  {
    var s' := Apply(s, Deallocate(t, c, b));
    HoldsMore(s.kind, s.place, s.caches[(t, c)], c, Cached(t), b);
    HoldsFrame(s.kind, s.place, s.lists[c], c, Listed, b, Cached(t));
    ListsAfterMove(s, s', b, Cached(t));
    CachesAfterMove(s, s', b, Cached(t), t);
    assert CacheSize(s.threads[t], c, |s.caches[(t, c)]|);
  }

  lemma CallInv(s: State, a: Action)
    requires Inv(s) && Enabled(s, a) && (a.Allocate? || a.Return?)
    ensures Inv(Apply(s, a))
  {
    assert CacheSize(s.threads[a.t], 0, |s.caches[(a.t, 0)]|);
  }

  lemma StepInv(s: State, a: Action)
    requires Inv(s) && Enabled(s, a)
    ensures Inv(Apply(s, a))
  {
    match a
    case Deallocate(t, c, b) => DeallocateInv(s, t, c, b);
    case Step(t, block) =>
      match s.threads[t] {
        case Refill(_, _) => RefillInv(s, t, block);
        case Take(_) => TakeInv(s, t, block);
        case Drain(_, _) => DrainInv(s, t, block);
        case PushBack(_, _, _) => PushBackInv(s, t, block);
      }
    case _ => CallInv(s, a);
  }

  // ---------------------------------------------------------------- runs and theorems

  ghost predicate StepOk(ss: seq<State>, acts: seq<Action>, i: nat)
    requires i < |acts| && |ss| == |acts| + 1
  {
    Shape(ss[i]) && Enabled(ss[i], acts[i]) && ss[i + 1] == Apply(ss[i], acts[i])
  }

  ghost predicate IsRun(ss: seq<State>, acts: seq<Action>) {
    |ss| == |acts| + 1 && forall i {:trigger StepOk(ss, acts, i)} :: 0 <= i < |acts| ==> StepOk(ss, acts, i)
  }

  ghost predicate Reachable(s: State, tids: set<nat>) {
    exists ss, acts :: IsRun(ss, acts) && ss[0] == Init(tids) && ss[|acts|] == s
  }

  lemma {:induction false} RunInv(ss: seq<State>, acts: seq<Action>, n: nat)
    requires IsRun(ss, acts) && Inv(ss[0]) && n <= |acts|
    ensures Inv(ss[n])
  {
    if n > 0 {
      RunInv(ss, acts, n - 1);
      assert StepOk(ss, acts, n - 1);
      StepInv(ss[n - 1], acts[n - 1]);
    }
  }

  lemma ReachableInv(s: State, tids: set<nat>)
    requires Reachable(s, tids)
    ensures Inv(s)
  {
    var ss, acts :| IsRun(ss, acts) && ss[0] == Init(tids) && ss[|acts|] == s;
    InitInv(tids);
    RunInv(ss, acts, |acts|);
  }

  ghost predicate InList(s: State, c: nat, b: Addr) { c in s.lists && b in s.lists[c] }

  ghost predicate InCache(s: State, t: nat, c: nat, b: Addr) { (t, c) in s.caches && b in s.caches[(t, c)] }

  ghost predicate InHand(s: State, t: nat, b: Addr) {
    t in s.threads && s.threads[t].PushBack? && s.threads[t].a == b
  }

  /** Conservation: every block ever obtained for a class is either handed out, or in exactly
      one of its own class's free list, one thread's cache for that class, and the hand of one
      thread on its way back; and nowhere twice. */
  lemma BlockInOnePlace(s: State, tids: set<nat>, b: Addr)
    requires Reachable(s, tids) && b in s.kind
    ensures b in s.place
    ensures forall c: nat :: InList(s, c, b) <==> s.place[b] == Listed && c == s.kind[b] < CLASSES
    ensures forall t, c: nat :: InCache(s, t, c, b) <==> s.place[b] == Cached(t) && c == s.kind[b] < CLASSES && t in s.threads
    ensures forall t :: InHand(s, t, b) <==> s.place[b] == Flying(t)
    ensures forall c :: c in s.lists ==> Distinct(s.lists[c])
    ensures forall t: nat, c: nat :: (t, c) in s.caches ==> Distinct(s.caches[(t, c)])
  {
    ReachableInv(s, tids);
    forall c: nat | c in s.lists
      ensures Distinct(s.lists[c]) && (InList(s, c, b) <==> s.place[b] == Listed && c == s.kind[b])
    {
      assert Holds(s.kind, s.place, s.lists[c], c, Listed);
    }
    forall t: nat, c: nat | (t, c) in s.caches
      ensures Distinct(s.caches[(t, c)]) && (InCache(s, t, c, b) <==> s.place[b] == Cached(t) && c == s.kind[b])
    {
      assert Holds(s.kind, s.place, s.caches[(t, c)], c, Cached(t));
    }
    assert s.place[b].Flying? ==> FlyingOk(s, b);
  }

  /** `allocate` never returns a live block: the block it hands out was free, or did not exist,
      belongs to the requested class, and no other block changes hands. */
  lemma AllocateReturnsFreeBlock(s: State, tids: set<nat>, t: nat, block: Addr)
    requires Reachable(s, tids) && Shape(s) && Enabled(s, Step(t, block)) && s.threads[t].Take?
    ensures var s', c := Apply(s, Step(t, block)), s.threads[t].c;
      s'.threads[t].Allocated? && var b := s'.threads[t].a;
      && (b !in s.place || s.place[b] == Cached(t)) && b in s'.place && s'.place == s.place[b := Live]
      && b in s'.kind && s'.kind[b] == c
  {
    ReachableInv(s, tids);
    var c := s.threads[t].c;
    if s.caches[(t, c)] != [] {
      assert Holds(s.kind, s.place, s.caches[(t, c)], c, Cached(t));
      HoldsLessLast(s.kind, s.place, s.caches[(t, c)], c, Cached(t), Live);
    }
  }

  /** Between calls every cache holds fewer than 32 blocks. */
  lemma CachesStaySmall(s: State, tids: set<nat>, t: nat, c: nat)
    requires Reachable(s, tids) && t in s.threads && c < CLASSES
    requires s.threads[t].Idle? || s.threads[t].Allocated?
    ensures (t, c) in s.caches && |s.caches[(t, c)]| < 2 * CACHE_CAPACITY
  {
    ReachableInv(s, tids);
    assert CacheSize(s.threads[t], c, |s.caches[(t, c)]|);
  }

  /** A refill ends after 16 blocks or at an empty list; a cache is drained from 32 blocks on, and down to
      16; a call with a stocked cache does not refill. */
  lemma CallsMoveOn(s: State, tids: set<nat>, a: Action)
    requires Reachable(s, tids) && Shape(s) && Enabled(s, a)
    ensures a.t in Apply(s, a).threads
    ensures var pc, pc' := s.threads[a.t], Apply(s, a).threads[a.t];
            && (a.Allocate? ==> (pc' == Take(a.c) <==> s.caches[(a.t, a.c)] != []) && (pc' != Take(a.c) ==> pc' == Refill(a.c, 0)))
            && (pc.Refill? && a.Step? ==>
                  (pc' == Take(pc.c) <==> |s.caches[(a.t, pc.c)]| == CACHE_CAPACITY || s.lists[pc.c] == []))
            && (a.Deallocate? ==> (pc'.Idle? <==> |s.caches[(a.t, a.c)]| + 1 < 2 * CACHE_CAPACITY))
            && (pc.Drain? ==> (pc'.Idle? <==> |s.caches[(a.t, pc.c)]| == CACHE_CAPACITY))
  {
    ReachableInv(s, tids);
    var pc := s.threads[a.t];
    if !pc.Idle? { assert CacheSize(pc, pc.c, |s.caches[(a.t, pc.c)]|); }
  }

  /** A bound on the steps that a call has left. */
  ghost function Rank(pc: Pc): int {
    match pc
    case Refill(_, i) => CACHE_CAPACITY - i + 2
    case Take(_) => 1
    case Drain(_, left) => 2 * left + 1
    case PushBack(_, left, _) => 2 * left + 2
    case _ => 0
  }

  /** No call waits for another thread: `allocate` takes at most 18 steps on lists and caches, `deallocate`
      at most 33. */
  lemma CallsEnd(s: State, tids: set<nat>, t: nat, block: Addr)
    requires Reachable(s, tids) && Shape(s) && Enabled(s, Step(t, block))
    ensures t in Apply(s, Step(t, block)).threads
    ensures 0 <= Rank(Apply(s, Step(t, block)).threads[t]) < Rank(s.threads[t])
    ensures Rank(s.threads[t]) <= if s.threads[t].Refill? || s.threads[t].Take? then 18 else 33
  {
    ReachableInv(s, tids);
    var pc := s.threads[t];
    assert CacheSize(pc, pc.c, |s.caches[(t, pc.c)]|);
  }

  /** At step `m` thread `t` looks into the list of class `c`, with nothing in its cache, and finds it
      empty; up to step `n` it does nothing else. */
  ghost predicate FoundEmpty(ss: seq<State>, acts: seq<Action>, m: nat, n: nat, t: nat, c: nat)
    requires IsRun(ss, acts) && n <= |acts|
  {
    && m < n && acts[m].Step? && acts[m].t == t && t in ss[m].threads && ss[m].threads[t] == Refill(c, 0)
    && c in ss[m].lists && ss[m].lists[c] == [] && forall k :: m < k < n ==> acts[k].t != t
  }

  /** A step leaves the other threads and their caches alone. */
  lemma OthersStay(s: State, a: Action, t: nat, c: nat)
    requires Shape(s) && Enabled(s, a) && a.t != t && t in s.threads && (t, c) in s.caches
    ensures t in Apply(s, a).threads && Apply(s, a).threads[t] == s.threads[t]
    ensures (t, c) in Apply(s, a).caches && Apply(s, a).caches[(t, c)] == s.caches[(t, c)]
  {
  }

  lemma EmptyHanded(s: State, a: Action, c: nat)
    requires Inv(s) && Enabled(s, a) && Apply(s, a).threads[a.t] == Take(c) && (a.t, c) in Apply(s, a).caches
    requires Apply(s, a).caches[(a.t, c)] == []
    ensures a.Step? && s.threads[a.t] == Refill(c, 0) && c in s.lists && s.lists[c] == []
  {
    var pc := s.threads[a.t];
    if !pc.Idle? { assert CacheSize(pc, pc.c, |s.caches[(a.t, pc.c)]|); }
  }

  lemma {:induction false} LastLook(ss: seq<State>, acts: seq<Action>, tids: set<nat>, n: nat, t: nat, c: nat)
    requires IsRun(ss, acts) && ss[0] == Init(tids) && n <= |acts| && t in ss[n].threads && ss[n].threads[t] == Take(c)
    requires (t, c) in ss[n].caches && ss[n].caches[(t, c)] == []
    ensures exists m :: FoundEmpty(ss, acts, m, n, t, c)
  {
    assert n > 0;
    InitInv(tids);
    RunInv(ss, acts, n - 1);
    assert StepOk(ss, acts, n - 1);
    if acts[n - 1].t == t {
      EmptyHanded(ss[n - 1], acts[n - 1], c);
      assert FoundEmpty(ss, acts, n - 1, n, t, c);
    } else {
      SameThreads(ss[n - 1], acts[n - 1]);
      OthersStay(ss[n - 1], acts[n - 1], t, c);
      LastLook(ss, acts, tids, n - 1, t, c);
      var m :| FoundEmpty(ss, acts, m, n - 1, t, c);
      assert FoundEmpty(ss, acts, m, n, t, c);
    }
  }

  lemma SameThreads(s: State, a: Action)
    requires Shape(s) && Enabled(s, a)
    ensures Apply(s, a).threads.Keys == s.threads.Keys && Apply(s, a).caches.Keys == s.caches.Keys
  {
  }

  /** The operating system is the last resort: a thread asks it for a block only after it has found its
      class's list empty in the same call, with its cache empty too. */
  lemma SystemIsLastResort(ss: seq<State>, acts: seq<Action>, tids: set<nat>, n: nat, t: nat, block: Addr)
    requires IsRun(ss, acts) && ss[0] == Init(tids) && n < |acts| && acts[n] == Step(t, block)
    requires block in ss[n + 1].kind
    ensures t in ss[n].threads && ss[n].threads[t].Take?
    ensures exists m :: FoundEmpty(ss, acts, m, n, t, ss[n].threads[t].c)
  {
    InitInv(tids);
    RunInv(ss, acts, n);
    assert StepOk(ss, acts, n);
    LastLook(ss, acts, tids, n, t, ss[n].threads[t].c);
  }

  // ---------------------------------------------------------------- the object

  /** One class of the pool and one thread's cache for it, updated in place while other threads
      stand still. */
  class SizeClassPool {
    const c: nat
    var list: seq<Addr>
    var cache: seq<Addr>

    constructor (c: nat)
      ensures this.c == c && list == [] && cache == []
    {
      this.c := c;
      list, cache := [], [];
    }

    /** `allocate`, lines 147-168: from the cache, else after moving up to 16 blocks there from
        the free list, else the operating system's `block`. */
    method Allocate(block: Addr) returns (node: Addr)
      modifies this
      ensures var stock, n := old(cache), if |old(list)| < CACHE_CAPACITY then |old(list)| else CACHE_CAPACITY;
        if stock != [] then node == Last(stock) && cache == AllButLast(stock) && list == old(list)
        else if old(list) != [] then
          node == old(list)[n - 1] && cache == old(list)[..n - 1] && list == old(list)[n..]
        else node == block && cache == [] && list == []
    {
      if cache == [] {
        var i := 0;
        while i < CACHE_CAPACITY && list != []
          invariant i <= CACHE_CAPACITY && i <= |old(list)|
          invariant cache == old(list)[..i] && list == old(list)[i..]
        {
          cache := cache + [list[0]];
          list := list[1..];
          i := i + 1;
        }
      }
      if cache != [] {
        node := cache[|cache| - 1];
        cache := cache[..|cache| - 1];
      } else {
        node := block;
      }
    }

    /** `deallocate`, lines 178-196: into the cache, and from 32 blocks on its upper half goes
        back to the free list. */
    method Deallocate(node: Addr)
      modifies this
      ensures var stock := old(cache) + [node];
        if |stock| < 2 * CACHE_CAPACITY then cache == stock && list == old(list)
        else var keep := |stock| - |stock| / 2; cache == stock[..keep] && list == stock[keep..] + old(list)
    {
      cache := cache + [node];
      if |cache| >= 2 * CACHE_CAPACITY {
        ghost var stock := cache;
        var drain := |cache| / 2;
        for i := 0 to drain
          invariant i <= |stock| && cache == stock[..|stock| - i] && list == stock[|stock| - i..] + old(list)
        {
          var n := cache[|cache| - 1];
          cache := cache[..|cache| - 1];
          list := [n] + list;
        }
      }
    }
  }
}
