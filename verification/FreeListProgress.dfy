/** The free list never keeps a lone thread waiting: from every reachable state a thread inside `push` or
    `pop` that steps alone finishes, however stale the head word it holds. */
module FreeListProgress {
  import opened FreeList
  import FT = FreeListTheorems

  /** `n` steps of thread `t`, none of them a spurious failure, lead from `s` to `s'`. */
  ghost predicate Walks(s: State, t: nat, n: nat, s': State)
    decreases n
  {
    if n == 0 then s' == s else Enabled(s, Step(t, false)) && Walks(Apply(s, Step(t, false)), t, n - 1, s')
  }

  /** The head word points to the top of the stack. */
  ghost predicate HeadOk(s: State) { s.mem.head.ptr == First(s.stack) && (s.stack != [] ==> s.stack[0] != 0) }

  /** The thread has loaded a null head. */
  predicate SawEmpty(l: Local) { l.PopProtect? && l.word.ptr == 0 }

  function Rest(q: seq<Addr>): seq<Addr> { if q == [] then [] else q[1..] }

  /** How the call ends if nobody else moves: what it returns and what the stack is then. */
  ghost function Outcome(s: State, l: Local): (Local, seq<Addr>) {
    if l.Pushing() then (PushDone, [l.node] + s.stack)
    else if SawEmpty(l) then (PopDone(0), s.stack)
    else if l.PopLoad? || l.Popping() then (PopDone(First(s.stack)), Rest(s.stack))
    else (l, s.stack)
  }

  /** A bound on the steps left when nobody else moves. */
  ghost function Rank(head: Word, l: Local): nat {
    match l
    case PushLoad(_) => 3
    case PushLink(_, w) => if w == head then 2 else 4
    case PushCas(_, w) => if w == head then 1 else 3
    case PopLoad => 5
    case PopProtect(w) => if w.ptr == 0 then 1 else if w == head then 4 else 8
    case PopVerify(w) => if w == head then 3 else if w.ptr == head.ptr then 7 else 5
    case PopNext(w) => if w == head then 2 else 6
    case PopCas(w, _) => if w == head then 1 else 5
    case _ => 0
  }

  ghost predicate Going(s: State, t: nat) {
    t in s.threads && (s.threads[t].Finished() || (s.threads[t].Running() && HeadOk(s)))
  }

  lemma StepAlone(s: State, t: nat)
    requires Going(s, t) && s.threads[t].Running()
    ensures var s' := Apply(s, Step(t, false));
            && Going(s', t) && Outcome(s', s'.threads[t]) == Outcome(s, s.threads[t])
            && Rank(s'.mem.head, s'.threads[t]) < Rank(s.mem.head, s.threads[t])
  {
  }

  lemma {:induction false} RunsToTheEnd(s: State, t: nat) returns (n: nat, s': State)
    requires Going(s, t)
    ensures n <= Rank(s.mem.head, s.threads[t]) && Walks(s, t, n, s')
    ensures t in s'.threads && s'.threads[t].Finished() && (s'.threads[t], s'.stack) == Outcome(s, s.threads[t])
    decreases Rank(s.mem.head, s.threads[t])
  {
    if s.threads[t].Finished() {
      n, s' := 0, s;
    } else {
      StepAlone(s, t);
      var m, s1 := RunsToTheEnd(Apply(s, Step(t, false)), t);
      n, s' := m + 1, s1;
    }
  }

  /** If the thread's compare-and-swap would succeed, its tag is fresh. */
  ghost predicate Fresh(s: State, t: nat) {
    t in s.threads && s.threads[t].Popping() && s.threads[t].word == s.mem.head ==>
      t in s.seen && s.pops - s.seen[t].pops < TAGS
  }

  lemma StaysFresh(s: State, t: nat)
    requires Enabled(s, Step(t, false)) && Fresh(s, t)
    ensures TagFresh(s, Step(t, false)) && Fresh(Apply(s, Step(t, false)), t)
  {
  }

  /** Steps alone with a fresh tag are steps of a run. */
  lemma {:induction false} WalksReach(s: State, t: nat, n: nat, s': State)
    requires Walks(s, t, n, s') && Fresh(s, t)
    ensures FT.Reaches(s, s')
    decreases n
  {
    if n == 0 {
      FT.ReachesSelf(s);
    } else {
      StaysFresh(s, t);
      FT.OneStep(s, Step(t, false));
      WalksReach(Apply(s, Step(t, false)), t, n - 1, s');
      FT.ReachesThen(s, Apply(s, Step(t, false)), s');
    }
  }

  /** Eight steps suffice for `pop` from wherever it is, also with a stale head word. It answers null if it
      has loaded a null head, and otherwise takes the top of the present stack, or answers null if the
      stack is empty now. With a fresh tag the list in memory is then that stack. */
  lemma PopFinishesAlone(s: State, blocks: set<Addr>, tids: set<nat>, t: nat) returns (n: nat, s': State)
    requires FT.Reachable(s, blocks, tids) && t in s.threads && (s.threads[t].PopLoad? || s.threads[t].Popping())
    ensures n <= 8 && Walks(s, t, n, s') && t in s'.threads
    ensures if s.threads[t].Popping() && s.threads[t].word.ptr == 0 then s'.threads[t] == PopDone(0) && s'.stack == s.stack
            else if s.stack == [] then s'.threads[t] == PopDone(0) && s'.stack == []
            else s'.threads[t] == PopDone(s.stack[0]) && s.stack[0] != 0 && s'.stack == s.stack[1..]
    ensures Fresh(s, t) ==> FT.Reachable(s', blocks, tids) && ListOk(s')
  {
    FT.ReachableInv(s, blocks, tids);
    assert s.threads[t].Popping() ==> PopperOk(s, s.threads[t], s.seen[t]);
    assert s.stack != [] ==> s.stack[0] in s.stack;
    n, s' := RunsToTheEnd(s, t);
    Arrives(s, blocks, tids, t, n, s');
  }

  /** Four steps suffice for `push`, which always succeeds. */
  lemma PushFinishesAlone(s: State, blocks: set<Addr>, tids: set<nat>, t: nat) returns (n: nat, s': State)
    requires FT.Reachable(s, blocks, tids) && t in s.threads && s.threads[t].Pushing()
    ensures n <= 4 && Walks(s, t, n, s') && t in s'.threads
    ensures s'.threads[t] == PushDone && s'.stack == [s.threads[t].node] + s.stack
    ensures FT.Reachable(s', blocks, tids) && ListOk(s')
  {
    FT.ReachableInv(s, blocks, tids);
    assert s.stack != [] ==> s.stack[0] in s.stack;
    n, s' := RunsToTheEnd(s, t);
    Arrives(s, blocks, tids, t, n, s');
  }

  lemma Arrives(s: State, blocks: set<Addr>, tids: set<nat>, t: nat, n: nat, s': State)
    requires FT.Reachable(s, blocks, tids) && Walks(s, t, n, s')
    ensures Fresh(s, t) ==> FT.Reachable(s', blocks, tids) && ListOk(s')
  {
    if Fresh(s, t) {
      WalksReach(s, t, n, s');
      FT.ReachesThen(Init(blocks, tids), s, s');
      FT.ReachableInv(s', blocks, tids);
    }
  }
}
