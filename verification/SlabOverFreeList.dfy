/** The list of a size class that SlabPool pushes and pops in one step is the list in memory that
    FreeList works on with loads and compare-and-swaps. */
module SlabOverFreeList {
  import F = FreeList
  import FT = FreeListTheorems
  import opened SlabPool

  /** Thread `t`'s step of FreeList completes its push of `node`, or its pop of `node`. */
  ghost predicate Pushes(f: F.State, f': F.State, t: nat, node: F.Addr) {
    t in f.threads && t in f'.threads && f.threads[t].PushCas? && f'.threads[t].PushDone? && f.threads[t].node == node
  }

  ghost predicate Pops(f: F.State, f': F.State, t: nat, node: F.Addr) {
    t in f.threads && t in f'.threads && f.threads[t].PopCas? && f'.threads[t] == F.PopDone(node)
  }

  /** Whenever the list in memory is the class's list, a step on it completes a push or a pop exactly as
      the pool's own step does, and otherwise leaves it alone; so the two stay the same list. */
  lemma ListStepIsPoolStep(s: State, f: F.State, blocks: set<F.Addr>, tids: set<nat>, a: F.Action, c: nat, block: Addr)
    requires FT.Reachable(f, blocks, tids) && F.Enabled(f, a) && F.TagFresh(f, a)
    requires Shape(s) && Enabled(s, Step(a.t, block)) && c < CLASSES && s.lists[c] == f.stack
    ensures var f', pc, s' := F.Apply(f, a), s.threads[a.t], Advance(s, a.t, block);
            && FT.Reachable(f', blocks, tids)
            && (forall b :: Pushes(f, f', a.t, b) && pc.PushBack? && pc.c == c && pc.a == b ==>
                  c in s'.lists && s'.lists[c] == f'.stack && s'.place == s.place[b := Listed])
            && (forall b :: Pops(f, f', a.t, b) && pc.Refill? && pc.c == c && pc.i < CACHE_CAPACITY ==>
                  && c in s'.lists && s'.lists[c] == f'.stack && s'.place == s.place[b := Cached(a.t)]
                  && (a.t, c) in s'.caches && s'.caches[(a.t, c)] == s.caches[(a.t, c)] + [b])
            && ((forall b :: !Pushes(f, f', a.t, b) && !Pops(f, f', a.t, b)) ==> f'.stack == s.lists[c])
  {
    FT.RefinesStack(f, blocks, tids, a);
    var f' := F.Apply(f, a);
    var l, l' := f.threads[a.t], f'.threads[a.t];
    assert FT.StackStep(f, f', a.t);
    if l.PushCas? && l'.PushDone? {
      assert Pushes(f, f', a.t, l.node);
    } else if l.PopCas? && l'.PopDone? {
      assert Pops(f, f', a.t, l'.result);
    }
  }
}
