/** What the hazard pointers promise over whole runs, told by the actions alone: who stored which pointer
    when, and what each scan found. */
module HazardRuns {
  import opened HazardPointer

  /** Does this action store into slot `j` of thread `t`? */
  predicate Stores(a: Action, t: nat, j: nat) { (a.Protect? || a.Clear?) && a.t == t && a.j == j }

  /** Thread `t` stores into slot `j` nowhere from step `from` up to step `to`. */
  ghost predicate Untouched(acts: seq<Action>, t: nat, j: nat, from: nat, to: nat) {
    forall k {:trigger acts[k]} :: from <= k < to && k < |acts| ==> !Stores(acts[k], t, j)
  }

  // ---------------------------------------------------------------- protection

  /** Slot `j` of thread `t` holds `p`. */
  ghost predicate Holds(s: State, t: nat, j: nat, p: Ptr)
    requires Shape(s)
  {
    t in s.threads && s.threads[t].HasRecord() && j < SLOTS && s.hazards[Slot(s.threads[t].record, j)] == p
  }

  ghost predicate Guards(s: State, t: nat, j: nat, p: Ptr) { (t, j) in s.guarded && s.guarded[(t, j)] == p }

  lemma StoreHolds(s: State, t: nat, j: nat, p: Ptr)
    requires Shape(s) && Enabled(s, Protect(t, j, p)) && Shape(Apply(s, Protect(t, j, p)))
    ensures Holds(Apply(s, Protect(t, j, p)), t, j, p)
  {
  }

  /** Only its own thread writes a slot. */
  lemma HoldsOn(s: State, a: Action, t: nat, j: nat, p: Ptr)
    requires Shape(s) && RecordsOk(s) && Enabled(s, a) && Shape(Apply(s, a))
    requires Holds(s, t, j, p) && !Stores(a, t, j)
    ensures Holds(Apply(s, a), t, j, p)
  {
    if (a.Protect? || a.Clear?) && Slot(s.threads[a.t].record, a.j) == Slot(s.threads[t].record, j) {
      SlotsApart(s.threads[a.t].record, a.j, s.threads[t].record, j);
    }
  }

  lemma GuardsOn(s: State, a: Action, t: nat, j: nat, p: Ptr)
    requires Shape(s) && Enabled(s, a) && Holds(s, t, j, p) && Guards(s, t, j, p) && !Stores(a, t, j)
    ensures Guards(Apply(s, a), t, j, p)
  {
  }

  lemma {:induction false} HeldSince(ss: seq<State>, acts: seq<Action>, tids: set<nat>, i: nat, n: nat, t: nat, j: nat, p: Ptr)
    requires IsRun(ss, acts) && ss[0] == Init(tids) && i < n <= |acts|
    requires acts[i] == Protect(t, j, p) && Untouched(acts, t, j, i + 1, n)
    ensures Inv(ss[n]) && Holds(ss[n], t, j, p)
  {
    InitInv(tids);
    RunInv(ss, acts, n - 1);
    RunInv(ss, acts, n);
    assert StepOk(ss, acts, n - 1);
    if n == i + 1 {
      StoreHolds(ss[i], t, j, p);
    } else {
      HeldSince(ss, acts, tids, i, n - 1, t, j, p);
      HoldsOn(ss[n - 1], acts[n - 1], t, j, p);
    }
  }

  lemma {:induction false} GuardedSince(ss: seq<State>, acts: seq<Action>, tids: set<nat>, i: nat, m: nat, n: nat, t: nat, j: nat, p: Ptr)
    requires IsRun(ss, acts) && ss[0] == Init(tids) && i < m < n <= |acts|
    requires acts[i] == Protect(t, j, p) && Untouched(acts, t, j, i + 1, n)
    requires acts[m] == Validate(t, j) && p in ss[m].linked
    ensures Guards(ss[n], t, j, p)
  {
    HeldSince(ss, acts, tids, i, n - 1, t, j, p);
    assert StepOk(ss, acts, n - 1);
    if n > m + 1 {
      GuardedSince(ss, acts, tids, i, m, n - 1, t, j, p);
      GuardsOn(ss[n - 1], acts[n - 1], t, j, p);
    }
  }

  /** Whatever the other threads do: after a thread stored `p` in its slot and then saw `p` still linked,
      the slot holds `p`, `p` is alive and no step deletes it, until the thread's next store into that slot. */
  lemma ProtectedUntilCleared(ss: seq<State>, acts: seq<Action>, tids: set<nat>, i: nat, m: nat, n: nat, t: nat, j: nat, p: Ptr)
    requires IsRun(ss, acts) && ss[0] == Init(tids) && i < m < n <= |acts|
    requires acts[i] == Protect(t, j, p) && Untouched(acts, t, j, i + 1, n)
    requires acts[m] == Validate(t, j) && p in ss[m].linked
    ensures Shape(ss[n]) && Holds(ss[n], t, j, p) && Guarded(ss[n], p) && !Free(ss[n], p)
    ensures n < |acts| ==> Enabled(ss[n], acts[n]) && !Deletes(ss[n], acts[n], p)
  {
    HeldSince(ss, acts, tids, i, n, t, j, p);
    GuardedSince(ss, acts, tids, i, m, n, t, j, p);
    if n < |acts| {
      assert StepOk(ss, acts, n);
      if Deletes(ss[n], acts[n], p) {
        DeleteInv(ss[n], acts[n].t, p);
      }
    }
  }

  // ---------------------------------------------------------------- registration

  /** The threads that have taken a number, whether or not there was a record for it. */
  ghost function Numbered(s: State): set<nat> { set t | t in s.threads && !s.threads[t].Unregistered? }

  /** A step changes its own thread's place only, and only `TakeSlot` gives it a number. */
  lemma OwnPlaceOnly(s: State, a: Action)
    requires Shape(s) && Enabled(s, a)
    ensures var s' := Apply(s, a);
            && a.t in s'.threads && s'.threads == s.threads[a.t := s'.threads[a.t]]
            && (a.TakeSlot? ==> s.threads[a.t].Unregistered? && !s'.threads[a.t].Unregistered?)
            && (!a.TakeSlot? ==> (s'.threads[a.t].Unregistered? <==> s.threads[a.t].Unregistered?))
            && s'.nextSlot == s.nextSlot + (if a.TakeSlot? then 1 else 0)
  {
    if a.Scan? {
      assert InRange(s.threads[a.t], s.retired[a.t]);
    } else if a.Protect? || a.Clear? || a.Validate? || a.Link? || a.Unlink? {
      assert s.threads == s.threads[a.t := s.threads[a.t]];
    }
  }

  lemma NumberedStep(s: State, s': State, t: nat, takes: bool)
    requires t in s.threads && t in s'.threads && s'.threads == s.threads[t := s'.threads[t]]
    requires takes ==> s.threads[t].Unregistered? && !s'.threads[t].Unregistered?
    requires !takes ==> (s'.threads[t].Unregistered? <==> s.threads[t].Unregistered?)
    ensures |Numbered(s')| == |Numbered(s)| + if takes then 1 else 0
  {
    if takes {
      assert Numbered(s') == Numbered(s) + {t};
    } else {
      assert Numbered(s') == Numbered(s);
    }
  }

  lemma {:induction false} CountsNumbered(ss: seq<State>, acts: seq<Action>, tids: set<nat>, n: nat)
    requires IsRun(ss, acts) && ss[0] == Init(tids) && n <= |acts|
    ensures ss[n].nextSlot == |Numbered(ss[n])|
  {
    if n > 0 {
      CountsNumbered(ss, acts, tids, n - 1);
      assert StepOk(ss, acts, n - 1);
      OwnPlaceOnly(ss[n - 1], acts[n - 1]);
      NumberedStep(ss[n - 1], ss[n], acts[n - 1].t, acts[n - 1].TakeSlot?);
    }
  }

  /** A thread gets a record if and only if fewer than 128 threads came before it. */
  lemma RegistersIffRoom(s: State, tids: set<nat>, t: nat)
    requires Reachable(s, tids) && t in s.threads && s.threads[t].Unregistered?
    ensures Shape(s)
    ensures Apply(s, TakeSlot(t)).threads[t] ==
            if |Numbered(s)| < MAX_THREADS then Registering(|Numbered(s)|) else Aborted
  {
    ReachableInv(s, tids);
    var ss, acts :| IsRun(ss, acts) && ss[0] == Init(tids) && ss[|acts|] == s;
    CountsNumbered(ss, acts, tids, |acts|);
  }

  // ---------------------------------------------------------------- what a scan leaves behind

  /** A bound on the steps that a scan has left. */
  ghost function ScanRank(pc: Pc, list: seq<Ptr>): int {
    match pc
    case ScanRecord(_, i, _) => (MAX_THREADS - i) * 4 + |list| + 2
    case ScanSlot(_, i, j, _) => (MAX_THREADS - i) * 4 - 1 - j + |list| + 2
    case Reclaim(_, at, _) => |list| - at + 1
    case _ => 0
  }

  /** Nobody can hold a scan up: each of its own steps brings its end nearer, and no step of another
      thread makes it longer. */
  lemma ScanIsWaitFree(s: State, tids: set<nat>, a: Action, t: nat)
    requires Reachable(s, tids) && t in s.threads && s.threads[t].Scanning() && Shape(s) && Enabled(s, a)
    ensures 0 < ScanRank(s.threads[t], s.retired[t]) <= 4 * MAX_THREADS + |s.retired[t]| + 2
    ensures var s' := Apply(s, a);
            if a == Scan(t) then 0 <= ScanRank(s'.threads[t], s'.retired[t]) < ScanRank(s.threads[t], s.retired[t])
            else s'.threads[t] == s.threads[t] && s'.retired[t] == s.retired[t]
  {
    assert InRange(s.threads[t], s.retired[t]);
  }

  /** Thread `t` is in one and the same scan in all states from `i` to `n`. */
  ghost predicate ScansFrom(ss: seq<State>, t: nat, i: nat, n: nat) {
    forall k {:trigger ss[k]} :: i <= k <= n && k < |ss| ==> t in ss[k].threads && ss[k].threads[t].Scanning()
  }

  /** No slot holds `p` in any state from `i` up to `n`. */
  ghost predicate Nowhere(ss: seq<State>, p: Ptr, i: nat, n: nat) {
    forall k {:trigger ss[k]} :: i <= k < n && k < |ss| ==> p !in ss[k].hazards
  }

  /** A scan collects only what it finds in a slot. */
  lemma CollectsFromSlots(s: State, a: Action, t: nat, p: Ptr)
    requires Shape(s) && Enabled(s, a) && t in s.threads && s.threads[t].Scanning() && Apply(s, a).threads[t].Scanning()
    requires p !in s.threads[t].hazardous && p !in s.hazards
    ensures p !in Apply(s, a).threads[t].hazardous
  {
  }

  lemma {:induction false} NeverCollected(ss: seq<State>, acts: seq<Action>, i: nat, n: nat, t: nat, p: Ptr)
    requires IsRun(ss, acts) && i <= n <= |acts| && ScansFrom(ss, t, i, n) && Nowhere(ss, p, i, n)
    requires ss[i].threads[t].hazardous == []
    ensures t in ss[n].threads && ss[n].threads[t].Scanning() && p !in ss[n].threads[t].hazardous
  {
    if n > i {
      NeverCollected(ss, acts, i, n - 1, t, p);
      assert StepOk(ss, acts, n - 1);
      CollectsFromSlots(ss[n - 1], acts[n - 1], t, p);
    }
  }

  /** When a scan ends, every node that no slot held at any moment of the scan is gone from the thread's
      retire list; `hazardous` is empty at the scan's beginning, state `i`. */
  lemma ScanFreesUnprotected(ss: seq<State>, acts: seq<Action>, tids: set<nat>, i: nat, n: nat, t: nat, p: Ptr)
    requires IsRun(ss, acts) && ss[0] == Init(tids) && i <= n < |acts|
    requires ScansFrom(ss, t, i, n) && ss[i].threads[t].hazardous == [] && Nowhere(ss, p, i, n)
    requires acts[n] == Scan(t) && t in ss[n + 1].threads && ss[n + 1].threads[t].Ready?
    ensures t in ss[n + 1].retired && p !in ss[n + 1].retired[t]
  {
    InitInv(tids);
    RunInv(ss, acts, n);
    assert StepOk(ss, acts, n);
    NeverCollected(ss, acts, i, n, t, p);
    assert PcOk(ss[n], ss[n].threads[t], ss[n].retired[t]);
  }

  /** An entry leaves its list only by being deleted. */
  lemma ListedUntilDeleted(s: State, a: Action, t: nat, p: Ptr)
    requires Shape(s) && Enabled(s, a) && t in s.retired && p in s.retired[t]
    ensures t in Apply(s, a).retired && (p in Apply(s, a).retired[t] || (a == Scan(t) && Deletes(s, a, p)))
  {
    if a == Scan(t) && s.threads[t].Reclaim? && s.threads[t].at < |s.retired[t]| {
      var list, at := s.retired[t], s.threads[t].at;
      var m :| 0 <= m < |list| && list[m] == p;
      if list[at] !in s.threads[t].hazardous && m != at {
        assert (list[..at] + list[at + 1..])[if m < at then m else m - 1] == p;
      }
    }
  }

  ghost predicate DeletedAt(ss: seq<State>, acts: seq<Action>, m: nat, t: nat, p: Ptr)
    requires IsRun(ss, acts) && m < |acts|
  {
    StepOk(ss, acts, m) && acts[m] == Scan(t) && Deletes(ss[m], acts[m], p)
  }

  lemma {:induction false} LeavesByDeletion(ss: seq<State>, acts: seq<Action>, i: nat, n: nat, t: nat, p: Ptr)
    requires IsRun(ss, acts) && i <= n <= |acts| && t in ss[i].retired && p in ss[i].retired[t]
    requires t in ss[n].retired && p !in ss[n].retired[t]
    ensures exists m :: i <= m < n && DeletedAt(ss, acts, m, t, p)
    decreases n - i
  {
    if i < n {
      assert StepOk(ss, acts, i);
      ListedUntilDeleted(ss[i], acts[i], t, p);
      if Deletes(ss[i], acts[i], p) && acts[i] == Scan(t) {
        assert DeletedAt(ss, acts, i, t, p);
      } else {
        LeavesByDeletion(ss, acts, i + 1, n, t, p);
      }
    }
  }

  /** So a retired node that no slot holds while its owner scans is deleted by that scan. */
  lemma UnprotectedIsDeleted(ss: seq<State>, acts: seq<Action>, tids: set<nat>, i: nat, n: nat, t: nat, p: Ptr)
    requires IsRun(ss, acts) && ss[0] == Init(tids) && i <= n < |acts|
    requires ScansFrom(ss, t, i, n) && ss[i].threads[t].hazardous == [] && Nowhere(ss, p, i, n)
    requires acts[n] == Scan(t) && t in ss[n + 1].threads && ss[n + 1].threads[t].Ready?
    requires t in ss[i].retired && p in ss[i].retired[t]
    ensures exists m :: i <= m <= n && DeletedAt(ss, acts, m, t, p)
  {
    ScanFreesUnprotected(ss, acts, tids, i, n, t, p);
    LeavesByDeletion(ss, acts, i, n + 1, t, p);
  }

  /** A node's life ends with its deletion and in no other way, and a retired node is in its thread's list;
      `retire` scans from 64 entries on. */
  lemma LivesUntilDeleted(s: State, tids: set<nat>, a: Action, p: Ptr)
    requires Reachable(s, tids) && Shape(s) && Enabled(s, a) && !Free(s, p)
    ensures Free(Apply(s, a), p) <==> Deletes(s, a, p)
    ensures a.Retire? ==> a.t in Apply(s, a).retired && Apply(s, a).retired[a.t] == s.retired[a.t] + [a.p]
    ensures a.Retire? ==> (Apply(s, a).threads[a.t].Scanning() <==> |s.retired[a.t]| + 1 >= 64)
  {
    ReachableInv(s, tids);
    if Deletes(s, a, p) {
      DeleteEndsOneLife(s, a.t, p);
    } else {
      StaysAlive(s, a, p);
    }
  }
}
