/** What the free list promises, and exactly when the 16-bit tag fails to protect it. */
module FreeListTheorems {
  import opened FreeList

  lemma StepInv(s: State, a: Action)
    requires Inv(s) && Enabled(s, a) && TagFresh(s, a)
    ensures Inv(Apply(s, a))
  {
    match a
    case Overwrite(_, _, _) => OverwriteInv(s, a);
    case Step(t, spurious) =>
      var l := s.threads[t];
      if l.PushCas? {
        PushCasInv(s, t, spurious);
      } else if l.Pushing() {
        PushInv(s, t, spurious);
      } else if l.PopCas? {
        PopCasInv(s, t, spurious);
      } else {
        PopReadInv(s, t, spurious);
      }
    case _ => CallInv(s, a);
  }

  lemma {:induction false} RunInv(ss: seq<State>, acts: seq<Action>, n: nat)
    requires IsRun(ss, acts) && Inv(ss[0]) && n <= |acts|
    ensures Inv(ss[n])
  {
    if n > 0 {
      RunInv(ss, acts, n - 1);
      assert StepOk(ss, acts, n - 1);
      StepInv(ss[n - 1], acts[n - 1]);
    }
  }

  ghost predicate Reaches(s: State, s': State) {
    exists ss, acts :: IsRun(ss, acts) && ss[0] == s && ss[|acts|] == s'
  }

  /** Reachable by steps whose pops all had a fresh tag. */
  ghost predicate Reachable(s: State, blocks: set<Addr>, tids: set<nat>) {
    Reaches(Init(blocks, tids), s)
  }

  lemma ReachableInv(s: State, blocks: set<Addr>, tids: set<nat>)
    requires Reachable(s, blocks, tids)
    ensures Inv(s)
  {
    InitInv(blocks, tids);
    ReachesInv(Init(blocks, tids), s);
  }

  /** One step of a sequential stack, and what the step returns. */
  ghost predicate StackStep(s: State, s': State, t: nat)
    requires t in s.threads && t in s'.threads
  {
    var l, l' := s.threads[t], s'.threads[t];
    if l.PushCas? && l'.PushDone? then s'.stack == [l.node] + s.stack && l.node !in s.stack
    else if l.PopCas? && l'.PopDone? then
      s.stack != [] && l'.result == s.stack[0] && s'.stack == s.stack[1..] && UserOwned(s', l'.result)
    else s'.stack == s.stack
  }

  /** In every run in which fewer than 2^16 pops fall between a pop's last head load and its
      successful compare-and-swap, the list in memory is a stack, pushed and popped at those
      compare-and-swaps, whatever users write into popped blocks. */
  lemma RefinesStack(s: State, blocks: set<Addr>, tids: set<nat>, a: Action)
    requires Reachable(s, blocks, tids) && Enabled(s, a) && TagFresh(s, a)
    ensures Reachable(Apply(s, a), blocks, tids)
    ensures ListOk(s) && ListOk(Apply(s, a)) && StackStep(s, Apply(s, a), a.t)
  {
    ReachableInv(s, blocks, tids);
    OneStep(s, a);
    ReachesThen(Init(blocks, tids), s, Apply(s, a));
    ReachableInv(Apply(s, a), blocks, tids);
    if a.Step? && s.threads[a.t].PopCas? {
      PopCasInv(s, a.t, a.spurious);
      PopReturnsTop(s, a);
    }
  }

  lemma PopReturnsTop(s: State, a: Action)
    requires Enabled(s, a) && a.Step? && s.threads[a.t].PopCas? && ListOk(s) && PushersOk(s)
    requires PopsNow(s, a) ==> s.stack != [] && Apply(s, a) == Popped(s, a.t)
    ensures StackStep(s, Apply(s, a), a.t)
  {
  }

  /** A step of a `pop` answers null if and only if the stack was empty at its last load of the head, and
      no other step does. */
  lemma NullMeansWasEmpty(s: State, blocks: set<Addr>, tids: set<nat>, t: nat, spurious: bool)
    requires Reachable(s, blocks, tids) && t in s.threads && s.threads[t].Running()
    ensures s.threads[t].Popping() ==>
              t in s.seen && (Apply(s, Step(t, spurious)).threads[t] == PopDone(0) <==> s.seen[t].stack == [])
    ensures !s.threads[t].Popping() ==> !Apply(s, Step(t, spurious)).threads[t].PopDone?
  {
    ReachableInv(s, blocks, tids);
    if s.threads[t].Popping() { assert PopperOk(s, s.threads[t], s.seen[t]); }
  }

  // ---------------------------------------------------------------- runs

  lemma ReachesSelf(s: State)
    ensures Reaches(s, s)
  {
    assert IsRun([s], []);
  }

  lemma OneStep(s: State, a: Action)
    requires Enabled(s, a) && TagFresh(s, a)
    ensures Reaches(s, Apply(s, a))
  {
    var ss, acts := [s, Apply(s, a)], [a];
    assert StepOk(ss, acts, 0);
    assert IsRun(ss, acts);
  }

  lemma RunsJoin(ss: seq<State>, acts: seq<Action>, ss': seq<State>, acts': seq<Action>)
    requires IsRun(ss, acts) && IsRun(ss', acts') && ss[|acts|] == ss'[0]
    ensures IsRun(ss + ss'[1..], acts + acts')
  {
    var all, steps := ss + ss'[1..], acts + acts';
    forall i | 0 <= i < |steps| ensures StepOk(all, steps, i) {
      if i < |acts| {
        assert StepOk(ss, acts, i);
      } else {
        assert StepOk(ss', acts', i - |acts|);
      }
    }
  }

  lemma ReachesThen(s: State, s': State, s'': State)
    requires Reaches(s, s') && Reaches(s', s'')
    ensures Reaches(s, s'')
  {
    var ss, acts :| IsRun(ss, acts) && ss[0] == s && ss[|acts|] == s';
    var ss', acts' :| IsRun(ss', acts') && ss'[0] == s' && ss'[|acts'|] == s'';
    RunsJoin(ss, acts, ss', acts');
    var all, steps := ss + ss'[1..], acts + acts';
    assert all[0] == s && all[|steps|] == s'';
  }

  lemma ReachesInv(s: State, s': State)
    requires Inv(s) && Reaches(s, s')
    ensures Inv(s')
  {
    var ss, acts :| IsRun(ss, acts) && ss[0] == s && ss[|acts|] == s';
    RunInv(ss, acts, |acts|);
  }

  // ---------------------------------------------------------------- solo operations

  /** Thread `t`, inside a `pop` that nobody has disturbed, is on its way to the
      compare-and-swap with what it has read being current. */
  ghost predicate PopUndisturbed(s: State, t: nat) {
    && Inv(s) && t in s.threads && s.stack != []
    && (s.threads[t].PopLoad? || (s.threads[t].Popping() && s.threads[t].word == s.mem.head
          && t in s.seen && s.seen[t] == Seen(s.pops, s.stack)))
  }

  ghost function PopRank(l: Local): nat {
    if l.PopLoad? then 4 else if l.PopProtect? then 3 else if l.PopVerify? then 2 else if l.PopNext? then 1 else 0
  }

  lemma PopAloneStep(s: State, t: nat)
    requires PopUndisturbed(s, t) && !s.threads[t].PopCas?
    ensures var s' := Apply(s, Step(t, false));
      PopUndisturbed(s', t) && PopRank(s'.threads[t]) < PopRank(s.threads[t])
      && s' == s.(threads := s.threads[t := s'.threads[t]], seen := s.seen[t := Seen(s.pops, s.stack)])
  {
    assert s.stack[0] in s.stack;
    PopReadInv(s, t, false);
  }

  lemma {:induction false} PopAlone(s: State, t: nat) returns (s': State)
    requires PopUndisturbed(s, t)
    ensures Reaches(s, s')
    ensures s' == s.(threads := s.threads[t := PopCas(s.mem.head, Second(s.stack))],
                     seen := s.seen[t := Seen(s.pops, s.stack)])
    decreases PopRank(s.threads[t])
  {
    if s.threads[t].PopCas? {
      s' := s;
      ReachesSelf(s);
      assert s.threads[t := s.threads[t]] == s.threads && s.seen[t := s.seen[t]] == s.seen;
    } else {
      PopAloneStep(s, t);
      OneStep(s, Step(t, false));
      s' := PopAlone(Apply(s, Step(t, false)), t);
      ReachesThen(s, Apply(s, Step(t, false)), s');
    }
  }

  /** A lone `pop`, from the call to just before its compare-and-swap. */
  lemma SoloPopReads(s: State, t: nat) returns (s': State)
    requires Inv(s) && t in s.threads && s.threads[t].Idle? && s.stack != []
    ensures Reaches(s, s')
    ensures s' == s.(threads := s.threads[t := PopCas(s.mem.head, Second(s.stack))],
                     seen := s.seen[t := Seen(s.pops, s.stack)])
  {
    OneStep(s, CallPop(t));
    CallInv(s, CallPop(t));
    var s1 := Apply(s, CallPop(t));
    s' := PopAlone(s1, t);
    ReachesThen(s, s1, s');
  }

  /** The compare-and-swap and the return of a lone `pop`. */
  lemma SoloPopClaims(s: State, t: nat) returns (s': State)
    requires Inv(s) && t in s.threads && s.threads[t].PopCas? && s.threads[t].word == s.mem.head && s.stack != []
    requires t in s.seen && s.seen[t] == Seen(s.pops, s.stack)
    ensures Reaches(s, s')
    ensures s' == Popped(s, t).(threads := s.threads[t := Idle])
  {
    PopCasInv(s, t, false);
    OneStep(s, Step(t, false));
    var s1 := Apply(s, Step(t, false));
    OneStep(s1, Return(t));
    s' := Apply(s1, Return(t));
    ReachesThen(s, s1, s');
  }

  lemma SoloPop(s: State, t: nat) returns (s': State)
    requires Inv(s) && t in s.threads && s.threads[t].Idle? && s.stack != []
    ensures Reaches(s, s') && Inv(s')
    ensures s'.stack == s.stack[1..] && s'.pops == s.pops + 1 && s'.threads == s.threads
    ensures s'.blocks == s.blocks && s'.pushing == s.pushing && s'.seen == s.seen - {t}
  {
    var s1 := SoloPopReads(s, t);
    ReachesInv(s, s1);
    s' := SoloPopClaims(s1, t);
    ReachesThen(s, s1, s');
    ReachesInv(s, s');
  }

  ghost predicate PushUndisturbed(s: State, t: nat) {
    Inv(s) && t in s.threads && s.threads[t].Pushing() && (!s.threads[t].PushLoad? ==> s.threads[t].word == s.mem.head)
  }

  ghost function PushRank(l: Local): nat {
    if l.PushLoad? then 2 else if l.PushLink? then 1 else 0
  }

  lemma PushAloneStep(s: State, t: nat)
    requires PushUndisturbed(s, t) && !s.threads[t].PushCas?
    ensures var s' := Apply(s, Step(t, false));
      PushUndisturbed(s', t) && PushRank(s'.threads[t]) < PushRank(s.threads[t])
      && s' == s.(mem := s'.mem, threads := s.threads[t := s'.threads[t]]) && s'.mem.head == s.mem.head
      && s'.threads[t].node == s.threads[t].node
  {
    PushInv(s, t, false);
  }

  lemma {:induction false} PushAlone(s: State, t: nat) returns (s': State)
    requires PushUndisturbed(s, t)
    ensures Reaches(s, s') && Inv(s')
    ensures s'.mem.head == s.mem.head
    ensures s' == s.(mem := s'.mem, threads := s.threads[t := PushCas(s.threads[t].node, s.mem.head)])
    decreases PushRank(s.threads[t])
  {
    if s.threads[t].PushCas? {
      s' := s;
      ReachesSelf(s);
      assert s.threads[t := s.threads[t]] == s.threads;
    } else {
      PushAloneStep(s, t);
      OneStep(s, Step(t, false));
      s' := PushAlone(Apply(s, Step(t, false)), t);
      ReachesThen(s, Apply(s, Step(t, false)), s');
    }
  }

  lemma SoloPushClaims(s: State, t: nat) returns (s': State)
    requires Inv(s) && t in s.threads && s.threads[t].PushCas? && s.threads[t].word == s.mem.head
    ensures Reaches(s, s')
    ensures s' == Pushed(s, t, s.threads[t].node).(threads := s.threads[t := Idle])
  {
    OneStep(s, Step(t, false));
    var s1 := Apply(s, Step(t, false));
    OneStep(s1, Return(t));
    s' := Apply(s1, Return(t));
    ReachesThen(s, s1, s');
  }

  lemma SoloPushLinks(s: State, t: nat, node: Addr) returns (s': State)
    requires Inv(s) && t in s.threads && s.threads[t].Idle? && UserOwned(s, node)
    ensures Reaches(s, s') && Inv(s') && s'.mem.head == s.mem.head
    ensures s' == s.(mem := s'.mem, threads := s.threads[t := PushCas(node, s.mem.head)], pushing := s.pushing[node := t])
  {
    OneStep(s, CallPush(t, node));
    CallInv(s, CallPush(t, node));
    var s1 := Apply(s, CallPush(t, node));
    s' := PushAlone(s1, t);
    ReachesThen(s, s1, s');
  }

  lemma SoloPush(s: State, t: nat, node: Addr) returns (s': State)
    requires Inv(s) && t in s.threads && s.threads[t].Idle? && UserOwned(s, node)
    ensures Reaches(s, s') && Inv(s')
    ensures s'.stack == [node] + s.stack && s'.pops == s.pops && s'.threads == s.threads
    ensures s'.blocks == s.blocks && s'.pushing == s.pushing && s'.seen == s.seen
  {
    var s1 := SoloPushLinks(s, t, node);
    s' := SoloPushClaims(s1, t);
    ReachesThen(s, s1, s');
    ReachesInv(s, s');
    assert s'.pushing == s.pushing;
  }

  // ---------------------------------------------------------------- when the tag wraps

  /** A successful compare-and-swap of `pop` with `g` pops since its head load. */
  ghost predicate PopsAfter(s: State, a: Action, g: nat) {
    Enabled(s, a) && PopsNow(s, a) && a.t in s.seen && s.pops == s.seen[a.t].pops + g
  }

  lemma GapIsWraps(s: State, a: Action, g: nat)
    requires Inv(s) && PopsAfter(s, a, g)
    ensures g % TAGS == 0
    ensures g == 0 ==> Inv(Apply(s, a))
  {
    assert PopperOk(s, s.threads[a.t], s.seen[a.t]);
    SameTag(s.seen[a.t].pops, s.pops);
    if g == 0 {
      PopCasInv(s, a.t, a.spurious);
    }
  }

  /** Thread 0 is stuck in a `pop` that saw block 1 on top of block 2; since then thread 1 took
      both, kept block 2 and put block 1 back, with `p` pops in all. */
  ghost predicate Stuck(s: State, p: nat) {
    && Inv(s) && s.blocks == {1, 2} && s.stack == [1] && s.pops == p && s.pushing == map[]
    && s.threads == map[0 := PopCas(Word(1, 0), 2), 1 := Idle]
    && s.seen == map[0 := Seen(0, [1, 2])]
  }

  lemma TwoBlocks(s: State) returns (s': State)
    requires s == Init({1, 2}, {0, 1})
    ensures Reaches(s, s') && Inv(s') && s'.stack == [1, 2] && s'.pops == 0
    ensures s'.threads == map[0 := Idle, 1 := Idle]
    ensures s'.blocks == {1, 2} && s'.pushing == map[] && s'.seen == map[]
  {
    InitInv({1, 2}, {0, 1});
    var s1 := SoloPush(s, 1, 2);
    s' := SoloPush(s1, 1, 1);
    ReachesThen(s, s1, s');
  }

  lemma PopTwoPushOne(s: State) returns (s': State)
    requires Inv(s) && s.stack == [1, 2] && s.pops == 0 && s.blocks == {1, 2} && s.pushing == map[]
    requires 1 in s.threads && s.threads[1] == Idle && 1 !in s.seen
    ensures Reaches(s, s') && Inv(s') && s'.stack == [1] && s'.pops == 2
    ensures s'.threads == s.threads && s'.blocks == s.blocks && s'.pushing == map[] && s'.seen == s.seen
  {
    var s1 := SoloPop(s, 1);
    var s2 := SoloPop(s1, 1);
    ReachesThen(s, s1, s2);
    s' := SoloPush(s2, 1, 1);
    ReachesThen(s, s2, s');
  }

  lemma GetStuck() returns (s: State)
    ensures Reachable(s, {1, 2}, {0, 1}) && Stuck(s, 2)
  {
    var s0 := Init({1, 2}, {0, 1});
    var s1 := TwoBlocks(s0);
    var s2 := SoloPopReads(s1, 0);
    ReachesInv(s1, s2);
    ReachesThen(s0, s1, s2);
    s := PopTwoPushOne(s2);
    ReachesThen(s0, s2, s);
  }

  lemma {:induction false} StayStuck(n: nat) returns (s: State)
    ensures Reachable(s, {1, 2}, {0, 1}) && Stuck(s, n + 2)
  {
    if n == 0 {
      s := GetStuck();
    } else {
      var s1 := StayStuck(n - 1);
      var s2 := SoloPop(s1, 1);
      s := SoloPush(s2, 1, 1);
      ReachesThen(Init({1, 2}, {0, 1}), s1, s2);
      ReachesThen(Init({1, 2}, {0, 1}), s2, s);
    }
  }

  /** After a whole number of tag wraps the stale compare-and-swap succeeds, and the user's
      block 2 is at the head of the list. */
  lemma StuckPopBreaksList(s: State, p: nat)
    requires Stuck(s, p) && p % TAGS == 0
    ensures PopsAfter(s, Step(0, false), p)
    ensures Apply(s, Step(0, false)).mem.head.ptr == 2 && Apply(s, Step(0, false)).stack == []
  {
  }

  /** The tag lets a `pop` with `g` intervening pops through to break the list exactly when `g`
      is a positive multiple of 2^16. */
  lemma TagFailsExactlyAtWraps(g: nat)
    ensures (exists s, a, blocks, tids :: Reachable(s, blocks, tids) && PopsAfter(s, a, g) && !ListOk(Apply(s, a)))
       <==> (g > 0 && g % TAGS == 0)
  {
    if g > 0 && g % TAGS == 0 {
      var s := StayStuck(g - 2);
      StuckPopBreaksList(s, g);
      var a := Step(0, false);
      assert Reachable(s, {1, 2}, {0, 1}) && PopsAfter(s, a, g) && !ListOk(Apply(s, a));
    }
    forall s, a, blocks, tids | Reachable(s, blocks, tids) && PopsAfter(s, a, g)
      ensures g % TAGS == 0 && (g == 0 ==> ListOk(Apply(s, a)))
    {
      ReachableInv(s, blocks, tids);
      GapIsWraps(s, a, g);
    }
  }
}
