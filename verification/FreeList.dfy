/** The tagged-pointer free list of base/LFMemoryPool.h: a lock-free stack of memory blocks.
    A block outside the list belongs to its user, who may overwrite it at any moment, also
    while a slow `pop` still reads its `next` word. */
module FreeList {

  /** Addresses are naturals; 0 is the null pointer. */
  type Addr = nat

  const TAGS: nat := 0x1_0000

  /** `headPacked`: a 48-bit pointer below a 16-bit tag. */
  datatype Word = Word(ptr: Addr, tag: nat)

  function Pack(w: Word): nat { w.ptr + w.tag * 0x1_0000_0000_0000 }

  /** A compare-and-swap of packed words compares pointer and tag. */
  lemma PackedEqual(a: Word, b: Word)
    requires a.ptr < 0x1_0000_0000_0000 && b.ptr < 0x1_0000_0000_0000
    ensures Pack(a) == Pack(b) <==> a == b
  {
  }

  /** The head word and the `next` word of every block. */
  datatype Shared = Shared(head: Word, next: map<Addr, Addr>)

  function NextOf(m: Shared, a: Addr): Addr { if a in m.next then m.next[a] else 0 }

  datatype Local =
    | Idle
    | PushLoad(node: Addr)
    | PushLink(node: Addr, word: Word)
    | PushCas(node: Addr, word: Word)
    | PushDone
    | PopLoad
    | PopProtect(word: Word)
    | PopVerify(word: Word)
    | PopNext(word: Word)
    | PopCas(word: Word, next: Addr)
    | PopDone(result: Addr)
  {
    predicate Pushing() { PushLoad? || PushLink? || PushCas? }
    /** Inside `pop`, holding a loaded head word. */
    predicate Popping() { PopProtect? || PopVerify? || PopNext? || PopCas? }
    predicate Finished() { PushDone? || PopDone? }
    predicate Running() { Pushing() || PopLoad? || Popping() }
  }

  /** One atomic step. `spurious` makes a weak compare-and-swap fail although it matches. The
      hazard-pointer stores of lines 88, 96, 109 and 113 do not touch the list. */
  function Exec(m: Shared, l: Local, spurious: bool): (Shared, Local)
    requires l.Running()
  {
    match l
    case PushLoad(node) => (m, PushLink(node, m.head))
    case PushLink(node, w) => (m.(next := m.next[node := w.ptr]), PushCas(node, w))
    case PushCas(node, w) =>
      if m.head == w && !spurious then (m.(head := Word(node, w.tag)), PushDone)
      else (m, PushLink(node, m.head))
    case PopLoad => (m, PopProtect(m.head))
    case PopProtect(w) => if w.ptr == 0 then (m, PopDone(0)) else (m, PopVerify(w))
    case PopVerify(w) => if m.head.ptr != w.ptr then (m, PopProtect(m.head)) else (m, PopNext(w))
    case PopNext(w) => (m, PopCas(w, NextOf(m, w.ptr)))
    case PopCas(w, next) =>
      if m.head == w && !spurious then (m.(head := Word(next, (w.tag + 1) % TAGS)), PopDone(w.ptr))
      else (m, PopProtect(m.head))
  }

  /** What the stack was, and how often it had been popped, at a `pop`'s last head load. */
  datatype Seen = Seen(pops: nat, stack: seq<Addr>)

  /** `stack`, `pops`, `pushing` and `seen` are history: the abstract stack, the number of
      successful pops, the thread pushing each block, and each running `pop`'s last load. */
  datatype State = State(
    mem: Shared,
    threads: map<nat, Local>,
    blocks: set<Addr>,
    stack: seq<Addr>,
    pops: nat,
    pushing: map<Addr, nat>,
    seen: map<nat, Seen>)

  datatype Action =
    | CallPush(t: nat, node: Addr)
    | CallPop(t: nat)
    | Step(t: nat, spurious: bool)
    | Return(t: nat)
    | Overwrite(t: nat, node: Addr, value: Addr)

  function Init(blocks: set<Addr>, tids: set<nat>): State {
    State(Shared(Word(0, 0), map[]), map t | t in tids :: Idle, blocks, [], 0, map[], map[])
  }

  /** The block is a user's: neither in the list nor on its way there. */
  predicate UserOwned(s: State, a: Addr) {
    a in s.blocks && a != 0 && a !in s.stack && a !in s.pushing
  }

  predicate Enabled(s: State, a: Action) {
    a.t in s.threads &&
    match a
    case CallPush(t, node) => s.threads[t].Idle? && UserOwned(s, node)
    case CallPop(t) => s.threads[t].Idle?
    case Step(t, _) => s.threads[t].Running()
    case Return(t) => s.threads[t].Finished()
    case Overwrite(_, node, _) => UserOwned(s, node)
  }

  /** History after `t` moved from `l` to `l'` and memory became `m'`. */
  function Record(s: State, t: nat, l: Local, m': Shared, l': Local): State {
    var s' := s.(mem := m', threads := s.threads[t := l']);
    if l'.PushDone? && l.PushCas? then
      s'.(stack := [l.node] + s.stack, pushing := s.pushing - {l.node})
    else if l'.PopProtect? then s'.(seen := s.seen[t := Seen(s.pops, s.stack)])
    else if l'.PopDone? && l.PopCas? then
      s'.(stack := if s.stack == [] then [] else s.stack[1..], pops := s.pops + 1, seen := s.seen - {t})
    else if l'.PopDone? then s'.(seen := s.seen - {t})
    else s'
  }

  function Apply(s: State, a: Action): (s': State)
    requires Enabled(s, a)
    ensures s'.threads.Keys == s.threads.Keys
  {
    match a
    case CallPush(t, node) => s.(threads := s.threads[t := PushLoad(node)], pushing := s.pushing[node := t])
    case CallPop(t) => s.(threads := s.threads[t := PopLoad])
    case Return(t) => s.(threads := s.threads[t := Idle])
    case Overwrite(_, node, value) => s.(mem := s.mem.(next := s.mem.next[node := value]))
    case Step(t, spurious) =>
      var (m', l') := Exec(s.mem, s.threads[t], spurious);
      Record(s, t, s.threads[t], m', l')
  }

  /** Will this action be a successful compare-and-swap of `pop`? */
  predicate PopsNow(s: State, a: Action)
    requires Enabled(s, a)
  {
    a.Step? && s.threads[a.t].PopCas? && Apply(s, a).threads[a.t].PopDone?
  }

  /** The condition under which the tag does its work: fewer than 2^16 pops since the load. */
  predicate TagFresh(s: State, a: Action)
    requires Enabled(s, a)
  {
    PopsNow(s, a) ==> a.t in s.seen && s.pops - s.seen[a.t].pops < TAGS
  }

  /** Step `i` of a run: the states `ss`, joined by the actions `acts`, each pop's tag fresh. */
  ghost predicate StepOk(ss: seq<State>, acts: seq<Action>, i: nat)
    requires i < |acts| && |ss| == |acts| + 1
  {
    Enabled(ss[i], acts[i]) && TagFresh(ss[i], acts[i]) && ss[i + 1] == Apply(ss[i], acts[i])
  }

  ghost predicate IsRun(ss: seq<State>, acts: seq<Action>) {
    |ss| == |acts| + 1 && forall i {:trigger StepOk(ss, acts, i)} :: 0 <= i < |acts| ==> StepOk(ss, acts, i)
  }

  // ---------------------------------------------------------------- the invariant

  ghost predicate Distinct(q: seq<Addr>) {
    forall i, j :: 0 <= i < j < |q| ==> q[i] != q[j]
  }

  function First(q: seq<Addr>): Addr { if q == [] then 0 else q[0] }

  function Second(q: seq<Addr>): Addr { if |q| < 2 then 0 else q[1] }

  /** Following `next` from the first block of `q` visits exactly `q`. */
  ghost predicate Chain(m: Shared, q: seq<Addr>) {
    q == [] || (NextOf(m, q[0]) == First(q[1..]) && Chain(m, q[1..]))
  }

  /** The linked list in memory is the abstract stack. */
  ghost predicate ListOk(s: State) {
    && Distinct(s.stack) && (forall a :: a in s.stack ==> a != 0 && a in s.blocks)
    && s.mem.head == Word(First(s.stack), s.pops % TAGS)
    && Chain(s.mem, s.stack)
  }

  ghost predicate PushersOk(s: State) {
    && (forall t :: t in s.threads && s.threads[t].Pushing() ==>
          s.threads[t].node in s.pushing && s.pushing[s.threads[t].node] == t)
    && (forall a :: a in s.pushing ==> a != 0 && a in s.blocks && a !in s.stack)
    && (forall t :: t in s.threads && s.threads[t].PushCas? ==>
          NextOf(s.mem, s.threads[t].node) == s.threads[t].word.ptr)
  }

  ghost predicate IsSuffix(suffix: seq<Addr>, q: seq<Addr>) {
    |suffix| <= |q| && q[|q| - |suffix|..] == suffix
  }

  /** A running `pop` holds the word of its load; as long as nobody popped since, the stack it
      saw is still the bottom of the stack, and a `next` it read is the true second block. */
  ghost predicate PopperOk(s: State, l: Local, seen: Seen)
    requires l.Popping()
  {
    && seen.pops <= s.pops && l.word == Word(First(seen.stack), seen.pops % TAGS)
    && (l.word.ptr == 0 <==> seen.stack == []) && (!l.PopProtect? ==> seen.stack != [])
    && (seen.pops == s.pops ==> IsSuffix(seen.stack, s.stack))
    && (seen.pops == s.pops && l.PopCas? ==> l.next == Second(seen.stack))
  }

  ghost predicate PoppersOk(s: State) {
    forall t :: t in s.threads && s.threads[t].Popping() ==> t in s.seen && PopperOk(s, s.threads[t], s.seen[t])
  }

  ghost predicate Inv(s: State) { ListOk(s) && PushersOk(s) && PoppersOk(s) }

  lemma InitInv(blocks: set<Addr>, tids: set<nat>)
    ensures Inv(Init(blocks, tids))
  {
  }

  /** Two equal tags fewer than 2^16 pops apart belong to the same pop count. */
  lemma SameTag(p: nat, q: nat)
    requires p <= q && p % TAGS == q % TAGS
    ensures (q - p) % TAGS == 0
    ensures q - p < TAGS ==> p == q
  {
  }

  lemma SuffixWithSameFirst(suffix: seq<Addr>, q: seq<Addr>)
    requires suffix != [] && IsSuffix(suffix, q) && Distinct(q) && q[0] == suffix[0]
    ensures suffix == q
  {
    var n := |q| - |suffix|;
    assert q[n..][0] == q[n];
    assert n == 0;
  }

  /** The heart of the matter: when a `pop`'s compare-and-swap is about to succeed and the tag
      is fresh, nothing happened to the stack since the load, and the `next` it read is the
      true second block, however often popped blocks were overwritten meanwhile. */
  lemma CasMeansUnchanged(s: State, t: nat)
    requires ListOk(s) && t in s.threads && s.threads[t].PopCas? && s.mem.head == s.threads[t].word
    requires t in s.seen && PopperOk(s, s.threads[t], s.seen[t])
    requires s.pops - s.seen[t].pops < TAGS
    ensures s.pops == s.seen[t].pops && s.stack == s.seen[t].stack && s.stack != []
    ensures s.threads[t].next == Second(s.stack)
  {
    SameTag(s.seen[t].pops, s.pops);
    SuffixWithSameFirst(s.seen[t].stack, s.stack);
  }

  // ---------------------------------------------------------------- one lemma per kind of step

  /** Only the `next` words of the stack's blocks matter to the list. */
  lemma {:induction false} ChainFrame(m: Shared, m': Shared, q: seq<Addr>)
    requires Chain(m, q) && forall a :: a in q ==> NextOf(m', a) == NextOf(m, a)
    ensures Chain(m', q)
  {
    if q != [] {
      ChainFrame(m, m', q[1..]);
    }
  }

  lemma NextWordKeepsList(s: State, a: Addr, value: Addr)
    requires ListOk(s) && a !in s.stack
    ensures ListOk(s.(mem := s.mem.(next := s.mem.next[a := value])))
  {
    ChainFrame(s.mem, s.mem.(next := s.mem.next[a := value]), s.stack);
  }

  lemma OverwriteInv(s: State, a: Action)
    requires Inv(s) && Enabled(s, a) && a.Overwrite?
    ensures Inv(Apply(s, a))
  {
    NextWordKeepsList(s, a.node, a.value);
  }

  lemma CallInv(s: State, a: Action)
    requires Inv(s) && Enabled(s, a) && (a.CallPush? || a.CallPop? || a.Return?)
    ensures Inv(Apply(s, a))
  {
  }

  lemma PushInv(s: State, t: nat, spurious: bool)
    requires Inv(s) && Enabled(s, Step(t, spurious)) && (s.threads[t].PushLoad? || s.threads[t].PushLink?)
    ensures Inv(Apply(s, Step(t, spurious)))
  {
    if s.threads[t].PushLink? {
      NextWordKeepsList(s, s.threads[t].node, s.threads[t].word.ptr);
    }
  }

  ghost function Pushed(s: State, t: nat, node: Addr): State {
    s.(mem := s.mem.(head := Word(node, s.mem.head.tag)), threads := s.threads[t := PushDone],
       stack := [node] + s.stack, pushing := s.pushing - {node})
  }

  lemma PushedList(s: State, t: nat, node: Addr)
    requires ListOk(s) && node != 0 && node in s.blocks && node !in s.stack
    requires NextOf(s.mem, node) == s.mem.head.ptr
    ensures ListOk(Pushed(s, t, node))
  {
    var s' := Pushed(s, t, node);
    assert s'.stack[1..] == s.stack;
    ChainFrame(s.mem, s'.mem, s.stack);
  }

  lemma PushedPoppers(s: State, t: nat, node: Addr)
    requires PoppersOk(s) && t in s.threads && s.threads[t].PushCas?
    ensures PoppersOk(Pushed(s, t, node))
  {
    var s' := Pushed(s, t, node);
    forall u | u in s'.threads && s'.threads[u].Popping() ensures u in s'.seen && PopperOk(s', s'.threads[u], s'.seen[u]) {
      assert PopperOk(s, s.threads[u], s.seen[u]);
    }
  }

  lemma PushCasInv(s: State, t: nat, spurious: bool)
    requires Inv(s) && Enabled(s, Step(t, spurious)) && s.threads[t].PushCas?
    ensures Inv(Apply(s, Step(t, spurious)))
  {
    var node := s.threads[t].node;
    if s.mem.head == s.threads[t].word && !spurious {
      PushedList(s, t, node);
      PushedPoppers(s, t, node);
      assert Apply(s, Step(t, spurious)) == Pushed(s, t, node);
    }
  }

  /** A thread that has just loaded the head has seen the present stack. */
  ghost function Loaded(s: State, t: nat): State {
    s.(threads := s.threads[t := PopProtect(s.mem.head)], seen := s.seen[t := Seen(s.pops, s.stack)])
  }

  lemma LoadedInv(s: State, t: nat)
    requires Inv(s) && t in s.threads && !s.threads[t].Pushing()
    ensures Inv(Loaded(s, t))
  {
    assert s.stack != [] ==> s.stack[0] in s.stack;
    assert PopperOk(Loaded(s, t), PopProtect(s.mem.head), Seen(s.pops, s.stack));
  }

  lemma PopReadInv(s: State, t: nat, spurious: bool)
    requires Inv(s) && Enabled(s, Step(t, spurious))
    requires s.threads[t].PopLoad? || s.threads[t].PopProtect? || s.threads[t].PopVerify? || s.threads[t].PopNext?
    ensures Inv(Apply(s, Step(t, spurious)))
  {
    var s' := Apply(s, Step(t, spurious));
    if s'.threads[t].PopProtect? {
      LoadedInv(s, t);
      assert s' == Loaded(s, t);
    } else {
      PopAdvanceInv(s, t, spurious);
    }
  }

  lemma PopMovesOn(s: State, t: nat, l: Local)
    requires Inv(s) && t in s.threads && s.threads[t].Popping()
    requires l.Popping() && PopperOk(s, l, s.seen[t])
    ensures Inv(s.(threads := s.threads[t := l]))
  {
  }

  lemma PopGivesUp(s: State, t: nat)
    requires Inv(s) && t in s.threads && s.threads[t].Popping()
    ensures Inv(s.(threads := s.threads[t := PopDone(0)], seen := s.seen - {t}))
  {
  }

  /** The steps of `pop` between two loads of the head change nothing but the thread's locals. */
  lemma PopAdvanceInv(s: State, t: nat, spurious: bool)
    requires Inv(s) && Enabled(s, Step(t, spurious))
    requires s.threads[t].PopProtect? || s.threads[t].PopVerify? || s.threads[t].PopNext?
    requires !Apply(s, Step(t, spurious)).threads[t].PopProtect?
    ensures Inv(Apply(s, Step(t, spurious)))
  {
    var l := s.threads[t];
    assert PopperOk(s, l, s.seen[t]);
    if l.PopProtect? && l.word.ptr == 0 {
      PopGivesUp(s, t);
    } else {
      if l.PopNext? && s.seen[t].pops == s.pops {
        ReadsSecond(s, t);
      }
      PopMovesOn(s, t, Apply(s, Step(t, spurious)).threads[t]);
    }
  }

  /** A `next` read while nobody has popped is that of the stack seen at the load. */
  lemma ReadsSecond(s: State, t: nat)
    requires ListOk(s) && t in s.threads && s.threads[t].PopNext? && t in s.seen
    requires PopperOk(s, s.threads[t], s.seen[t]) && s.seen[t].pops == s.pops
    ensures NextOf(s.mem, s.threads[t].word.ptr) == Second(s.seen[t].stack)
  {
    var q := s.seen[t].stack;
    ChainSuffix(s.mem, s.stack, |s.stack| - |q|);
  }

  lemma {:induction false} ChainSuffix(m: Shared, q: seq<Addr>, n: nat)
    requires Chain(m, q) && n <= |q|
    ensures Chain(m, q[n..])
  {
    if n > 0 {
      ChainSuffix(m, q[1..], n - 1);
      assert q[1..][n - 1..] == q[n..];
    }
  }

  ghost function Popped(s: State, t: nat): State
    requires s.stack != []
  {
    s.(mem := s.mem.(head := Word(Second(s.stack), (s.pops + 1) % TAGS)), threads := s.threads[t := PopDone(s.stack[0])],
       stack := s.stack[1..], pops := s.pops + 1, seen := s.seen - {t})
  }

  lemma PoppedInv(s: State, t: nat)
    requires Inv(s) && s.stack != [] && t in s.threads && s.threads[t].PopCas?
    ensures Inv(Popped(s, t))
  {
    PoppedList(s, t);
  }

  lemma PoppedList(s: State, t: nat)
    requires ListOk(s) && s.stack != []
    ensures ListOk(Popped(s, t))
  {
    var q := s.stack[1..];
    assert forall a :: a in q ==> a in s.stack;
    assert forall i :: 0 <= i < |q| ==> q[i] == s.stack[i + 1];
    ChainFrame(s.mem, Popped(s, t).mem, q);
  }

  lemma PopCasInv(s: State, t: nat, spurious: bool)
    requires Inv(s) && Enabled(s, Step(t, spurious)) && s.threads[t].PopCas?
    requires TagFresh(s, Step(t, spurious))
    ensures Inv(Apply(s, Step(t, spurious)))
    ensures PopsNow(s, Step(t, spurious)) ==> s.stack != [] && Apply(s, Step(t, spurious)) == Popped(s, t)
  {
    if PopsNow(s, Step(t, spurious)) {
      CasMeansUnchanged(s, t);
      PoppedInv(s, t);
    } else {
      LoadedInv(s, t);
      assert Apply(s, Step(t, spurious)) == Loaded(s, t);
    }
  }

  // ---------------------------------------------------------------- the object

  /** The list head, and the memory its blocks live in, updated in place. */
  class List {
    var head: Word
    var next: map<Addr, Addr>

    ghost function Memory(): Shared
      reads this
    {
      Shared(head, next)
    }

    constructor ()
      ensures Memory() == Init({}, {}).mem
    {
      head, next := Word(0, 0), map[];
    }

    /** `compare_exchange_weak` on `headPacked`. */
    method CasHead(expected: Word, desired: Word, spurious: bool) returns (ok: bool)
      modifies this`head
      ensures ok == (old(head) == expected && !spurious)
      ensures head == if ok then desired else old(head)
    {
      ok := head == expected && !spurious;
      if ok { head := desired; }
    }

    /** The next atomic step of a thread inside `push`, lines 52-73. */
    method StepPush(l: Local, spurious: bool) returns (l': Local)
      requires l.Pushing()
      modifies this
      ensures (Memory(), l') == Exec(old(Memory()), l, spurious)
    {
      match l {
        case PushLoad(node) =>
          l' := PushLink(node, head);
        case PushLink(node, w) =>
          next := next[node := w.ptr];
          l' := PushCas(node, w);
        case PushCas(node, w) =>
          var ok := CasHead(w, Word(node, w.tag), spurious);
          l' := if ok then PushDone else PushLink(node, head);
      }
    }

    /** The next atomic step of a thread inside `pop`, lines 76-116. */
    method StepPop(l: Local, spurious: bool) returns (l': Local)
      requires l.PopLoad? || l.Popping()
      modifies this
      ensures (Memory(), l') == Exec(old(Memory()), l, spurious)
    {
      match l {
        case PopLoad =>
          l' := PopProtect(head);
        case PopProtect(w) =>
          l' := if w.ptr == 0 then PopDone(0) else PopVerify(w);
        case PopVerify(w) =>
          l' := if head.ptr != w.ptr then PopProtect(head) else PopNext(w);
        case PopNext(w) =>
          l' := PopCas(w, if w.ptr in next then next[w.ptr] else 0);
        case PopCas(w, n) =>
          var ok := CasHead(w, Word(n, (w.tag + 1) % TAGS), spurious);
          l' := if ok then PopDone(w.ptr) else PopProtect(head);
      }
    }
  }
}
