/** What the timer queue promises over whole runs. */
module TimerTheorems {
  import opened TimerQueue
  import opened TimerReaders

  lemma {:induction false} RunInv(ss: seq<State>, acts: seq<Action>, n: nat)
    requires IsRun(ss, acts) && Inv(ss[0]) && n <= |acts|
    ensures Inv(ss[n])
  {
    if n > 0 {
      RunInv(ss, acts, n - 1);
      assert StepOk(ss, acts, n - 1);
      StepInv(ss[n - 1], acts[n - 1]);
    }
  }

  lemma {:induction false} RunReads(ss: seq<State>, acts: seq<Action>, n: nat)
    requires IsRun(ss, acts) && Inv(ss[0]) && ReadOk(ss[0]) && n <= |acts|
    ensures ReadOk(ss[n])
  {
    if n > 0 {
      RunReads(ss, acts, n - 1);
      RunInv(ss, acts, n - 1);
      assert StepOk(ss, acts, n - 1);
      StepReads(ss[n - 1], acts[n - 1]);
    }
  }

  ghost predicate Reaches(s: State, s': State) {
    exists ss, acts :: IsRun(ss, acts) && ss[0] == s && ss[|acts|] == s'
  }

  /** Reachable from an empty queue by steps that touched live timers only. */
  ghost predicate Reachable(s: State) { exists clock :: Reaches(Init(clock), s) }

  lemma ReachableInv(s: State)
    requires Reachable(s)
    ensures Inv(s)
  {
    var clock :| Reaches(Init(clock), s);
    var ss, acts :| IsRun(ss, acts) && ss[0] == Init(clock) && ss[|acts|] == s;
    InitInv(clock);
    RunInv(ss, acts, |acts|);
  }

  lemma ReachableReads(s: State)
    requires Reachable(s)
    ensures ReadOk(s)
  {
    var clock :| Reaches(Init(clock), s);
    var ss, acts :| IsRun(ss, acts) && ss[0] == Init(clock) && ss[|acts|] == s;
    InitInv(clock);
    InitReads(clock);
    RunReads(ss, acts, |acts|);
  }

  lemma ReachesSelf(s: State)
    ensures Reaches(s, s)
  {
    assert IsRun([s], []);
  }

  lemma ReachesStep(s: State, s': State, a: Action)
    requires Reaches(s, s') && Enabled(s', a) && Safe(s', a)
    ensures Reaches(s, Apply(s', a))
  {
    var ss, acts :| IsRun(ss, acts) && ss[0] == s && ss[|acts|] == s';
    var ss', acts' := ss + [Apply(s', a)], acts + [a];
    forall i | 0 <= i < |acts'| ensures StepOk(ss', acts', i) {
      if i < |acts| { assert StepOk(ss, acts, i); }
    }
    assert IsRun(ss', acts');
  }

  lemma ReachesThen(s: State, s': State, s'': State)
    requires Reaches(s, s') && Reaches(s', s'')
    ensures Reaches(s, s'')
  {
    var ss, acts :| IsRun(ss, acts) && ss[0] == s && ss[|acts|] == s';
    var ss', acts' :| IsRun(ss', acts') && ss'[0] == s' && ss'[|acts'|] == s'';
    var all, steps := ss + ss'[1..], acts + acts';
    forall i | 0 <= i < |steps| ensures StepOk(all, steps, i) {
      if i < |acts| {
        assert StepOk(ss, acts, i);
      } else {
        assert StepOk(ss', acts', i - |acts|);
      }
    }
    assert IsRun(all, steps);
  }

  lemma ReachableThen(s: State, s': State)
    requires Reachable(s) && Reaches(s, s')
    ensures Reachable(s')
  {
    var clock :| Reaches(Init(clock), s);
    ReachesThen(Init(clock), s, s');
  }

  lemma ReachableStep(s: State, a: Action)
    requires Reachable(s) && Enabled(s, a) && Safe(s, a)
    ensures Reachable(Apply(s, a))
  {
    var clock :| Reaches(Init(clock), s);
    ReachesStep(Init(clock), s, a);
  }

  /** The read of line 77 by a thread other than the loop's, of a timer that does not repeat. */
  predicate LateRead(s: State, a: Action)
    requires Enabled(s, a)
  {
    a.ReadId? && a.t != LOOP && !s.reading[a.t].repeats
  }

  /** In every reachable state every step but that read dereferences, runs and deletes live timers only,
      and leads to a reachable state; `PosterReadSafeIff` says exactly when that read does. */
  lemma NoDanglingTimer(s: State, a: Action)
    requires Reachable(s) && Enabled(s, a) && !LateRead(s, a)
    ensures Safe(s, a) && Reachable(Apply(s, a))
  {
    if a.ReadId? {
      ReachableReads(s);
      assert ReaderOk(s, a.t);
    } else {
      ReachableInv(s);
      InvSafe(s, a);
    }
    ReachableStep(s, a);
  }

  /** The two indices describe the same timers, with the expirations stored in the timers, and
      no timer is listed twice. */
  lemma IndicesAgree(s: State)
    requires Reachable(s)
    ensures forall e :: e in s.timers ==> e.addr in s.heap && s.heap[e.addr].expiration == e.when
                                          && TimerId(e.addr, s.heap[e.addr].sequence) in s.active
    ensures forall id :: id in s.active ==> id.addr in s.heap && s.heap[id.addr].sequence == id.sequence
                                            && Entry(s.heap[id.addr].expiration, id.addr) in s.timers
    ensures forall i, j :: 0 <= i < j < |s.timers| ==> s.timers[i].addr != s.timers[j].addr && s.timers[i].when <= s.timers[j].when
  {
    ReachableInv(s);
    forall e | e in s.timers ensures e.addr in s.heap && TimerId(e.addr, s.heap[e.addr].sequence) in s.active {
      assert Holds(s, e) && Waiting(s, e.addr);
    }
    forall i, j | 0 <= i < j < |s.timers| ensures s.timers[i].addr != s.timers[j].addr {
      assert Before(s.timers[i], s.timers[j]) && Holds(s, s.timers[i]) && Holds(s, s.timers[j]);
    }
  }

  /** Ownership: a live timer is waiting, in the batch, or posted and not yet added, and in one
      of the three only; every timer ever created is live or freed, and was freed once. */
  lemma OwnedOnceFreedOnce(s: State)
    requires Reachable(s)
    ensures forall addr :: addr in s.heap ==>
              multiset([Waiting(s, addr), InBatch(s, addr), Posted(s, addr)])[true] == 1
    ensures forall q: nat :: q < s.created ==> (Live(s, q) <==> q !in s.freed)
    ensures forall i, j :: 0 <= i < j < |s.freed| ==> s.freed[i] != s.freed[j]
  {
    ReachableInv(s);
    forall addr | addr in s.heap ensures multiset([Waiting(s, addr), InBatch(s, addr), Posted(s, addr)])[true] == 1 {
      assert OnePlace(s, addr);
    }
    assert forall a :: a in s.heap ==> s.heap[a].sequence !in s.freed;
  }

  /** `getExpired` takes exactly the timers due, in non-decreasing order of expiration. */
  lemma BatchIsExactlyDue(s: State)
    requires Reachable(s) && Enabled(s, Read)
    ensures Safe(s, Read)
    ensures var s' := Apply(s, Read);
            && s'.phase.Running? && s'.phase.batch + s'.timers == s.timers
            && (forall e :: e in s'.phase.batch <==> e in s.timers && e.when <= s.clock)
            && (forall e :: e in s'.timers <==> e in s.timers && e.when > s.clock)
            && forall i, j :: 0 <= i < j < |s'.phase.batch| ==> s'.phase.batch[i].when <= s'.phase.batch[j].when
  {
    ReachableInv(s);
    InvSafe(s, Read);
    assert forall e :: e in s.timers ==> Holds(s, e);
    DueExactly(s.timers, s.clock);
  }

  lemma DueExactly(ts: seq<Entry>, now: int)
    requires Sorted(ts) && forall e :: e in ts ==> e.addr < TOP
    ensures var p := Rank(ts, Entry(now, TOP));
            && ts == ts[..p] + ts[p..]
            && (forall e :: e in ts[..p] <==> e in ts && e.when <= now)
            && (forall e :: e in ts[p..] <==> e in ts && e.when > now)
            && forall i, j :: 0 <= i < j < p ==> ts[i].when <= ts[j].when
  {
    var p := Rank(ts, Entry(now, TOP));
    DueIsPrefix(ts, now);
    SplitByTime(ts, ts[..p], ts[p..], now);
    forall i, j | 0 <= i < j < p ensures ts[i].when <= ts[j].when {
      assert Before(ts[i], ts[j]);
    }
  }

  lemma SplitByTime(ts: seq<Entry>, due: seq<Entry>, rest: seq<Entry>, now: int)
    requires ts == due + rest
    requires forall k :: 0 <= k < |due| ==> due[k].when <= now
    requires forall k :: 0 <= k < |rest| ==> rest[k].when > now
    ensures forall e :: e in due <==> e in ts && e.when <= now
    ensures forall e :: e in rest <==> e in ts && e.when > now
  {
  }

  /** The k-th start of a repeating timer was scheduled for its first expiration plus k intervals
      (counting from 0), however late earlier starts were; it never comes early; and a timer that
      does not repeat starts at most once. */
  lemma KthStart(s: State)
    requires Reachable(s) && Enabled(s, Start)
    ensures Safe(s, Start)
    ensures var addr := s.phase.batch[s.phase.next].addr;
            var t := s.heap[addr];
            var k := multiset(s.starts)[t.sequence];
            && t.sequence in s.origin && t.expiration == s.origin[t.sequence] + k * t.Period() <= s.clock
            && (!t.repeat ==> k == 0)
            && Apply(s, Start).starts == s.starts + [t.sequence]
  {
    ReachableInv(s);
    InvSafe(s, Start);
    var b, n := s.phase.batch, s.phase.next;
    assert b[n] in b;
    assert Holds(s, b[n]) by { assert b[n] in Owned(s.phase); }
    RanMore(b, n);
    assert TimerOk(s, b[n].addr);
  }

  /** `origin` is the expiration the timer was created with. */
  lemma OriginIsFirstExpiration(s: State, a: Action, t: nat, addr: nat, when: int, interval: real)
    requires Reachable(s) && Enabled(s, a) && (a == Create(addr, when, interval) || a == Post(t, addr, when, interval))
    ensures Safe(s, a) && addr in Apply(s, a).heap && Apply(s, a).heap[addr].sequence == s.created
    ensures Apply(s, a).origin == s.origin[s.created := when] && s.created !in s.starts
  {
    ReachableInv(s);
  }

  // ---------------------------------------------------------------- cancel

  /** The step runs `cancelInLoop(id)`. */
  ghost predicate Cancels(s: State, a: Action, id: TimerId)
    requires Enabled(s, a)
  {
    a == Cancel(id) || (a == RunFunctor && s.pending[0] == Drop(id))
  }

  /** The timer is in the running batch and has not been started yet. */
  ghost predicate AboutToRun(s: State, id: TimerId) {
    Names(s, id) && s.phase.Running? && s.phase.next <= |s.phase.batch| && EntryOf(s, id.addr) in s.phase.batch[s.phase.next..]
  }

  /** Nothing can schedule the timer again. */
  ghost predicate Doomed(s: State, id: TimerId) {
    id.sequence in s.freed || (Names(s, id) && InBatch(s, id.addr) && id in s.canceling)
  }

  ghost function Allowance(s: State, id: TimerId): nat {
    multiset(s.starts)[id.sequence] + if AboutToRun(s, id) then 1 else 0
  }

  lemma FreedStaysQuiet(s: State, a: Action, id: TimerId)
    requires Inv(s) && Enabled(s, a) && Safe(s, a) && id.sequence in s.freed
    ensures id.sequence in Apply(s, a).freed && Allowance(Apply(s, a), id) == Allowance(s, id)
  {
    FreedGrows(s, a, id);
    if a.Start? {
      assert s.phase.batch[s.phase.next] in Owned(s.phase);
    }
  }

  lemma FreedGrows(s: State, a: Action, id: TimerId)
    requires Inv(s) && Enabled(s, a) && Safe(s, a) && id.sequence in s.freed
    ensures id.sequence in Apply(s, a).freed && !AboutToRun(s, id) && !AboutToRun(Apply(s, a), id)
  {
    StepFreed(s, a);
    var s' := Apply(s, a);
    assert s.freed <= s'.freed;
    assert !Names(s', id);
  }

  lemma DoomedFrame(s: State, s': State, id: TimerId)
    requires Doomed(s, id) && id.sequence !in s.freed
    requires id.addr in s'.heap && s'.heap[id.addr] == s.heap[id.addr] && s.canceling <= s'.canceling
    requires s'.phase == s.phase && s'.starts == s.starts
    ensures Doomed(s', id) && Allowance(s', id) == Allowance(s, id)
  {
  }

  lemma DoomedAtCancel(s: State, other: TimerId, id: TimerId)
    requires Inv(s) && Canceled(s, other) <= s.heap.Keys && Doomed(s, id) && id.sequence !in s.freed
    ensures Doomed(CanceledInLoop(s, other), id) && Allowance(CanceledInLoop(s, other), id) == Allowance(s, id)
  {
    assert OnePlace(s, id.addr) && !Waiting(s, id.addr);
    if other in s.active { assert other.addr != id.addr; }
    DoomedFrame(s, CanceledInLoop(s, other), id);
  }

  lemma DoomedByUser(s: State, a: Action, id: TimerId)
    requires Inv(s) && Enabled(s, a) && Safe(s, a) && Doomed(s, id) && id.sequence !in s.freed
    requires a.Create? || a.Post? || a.ReadId? || a.PostCancel? || a.Tick? || a.Fire? || a.Cancel?
    ensures Doomed(Apply(s, a), id) && Allowance(Apply(s, a), id) == Allowance(s, id)
  {
    if a.Cancel? {
      DoomedAtCancel(s, a.id, id);
    } else {
      DoomedFrame(s, Apply(s, a), id);
    }
  }

  lemma DoomedAtReclaim(s: State, id: TimerId)
    requires Inv(s) && Enabled(s, Reclaim) && Safe(s, Reclaim) && Doomed(s, id) && id.sequence !in s.freed
    ensures Doomed(Apply(s, Reclaim), id) && Allowance(Apply(s, Reclaim), id) <= Allowance(s, id)
  {
    ResetTarget(s);
    var addr := s.phase.batch[s.phase.next].addr;
    assert EntryOf(s, id.addr) in Owned(s.phase);
    if addr == id.addr {
      assert id.sequence in Apply(s, Reclaim).freed;
    } else {
      assert Names(Apply(s, Reclaim), id) && InBatch(Apply(s, Reclaim), id.addr);
    }
  }

  /** A timer in the batch is not idle, and not behind the last one. */
  lemma DoomedInBatch(s: State, a: Action, id: TimerId)
    requires Inv(s) && Enabled(s, a) && Safe(s, a) && Doomed(s, id) && id.sequence !in s.freed
    requires a.Read? || a.EndBatch? || a.Rearm? || a.RunFunctor?
    ensures Doomed(Apply(s, a), id) && Allowance(Apply(s, a), id) <= Allowance(s, id)
  {
    assert Owned(s.phase) != [];
    if a.EndBatch? {
      assert s.phase.batch[0..] == s.phase.batch;
    }
  }

  lemma DoomedAtStart(s: State, id: TimerId)
    requires Inv(s) && Enabled(s, Start) && Safe(s, Start) && Doomed(s, id) && id.sequence !in s.freed
    ensures Doomed(Apply(s, Start), id) && Allowance(Apply(s, Start), id) <= Allowance(s, id)
  {
    var s', b, n := Apply(s, Start), s.phase.batch, s.phase.next;
    RanMore(b, n);
    assert Holds(s, b[n]) by { assert b[n] in Owned(s.phase); }
    assert AboutToRun(s, id) <==> AboutToRun(s', id) || EntryOf(s, id.addr) == b[n];
    assert s.heap[b[n].addr].sequence == id.sequence <==> b[n].addr == id.addr;
  }

  lemma DoomedStep(s: State, a: Action, id: TimerId)
    requires Inv(s) && Enabled(s, a) && Safe(s, a) && Doomed(s, id)
    ensures Doomed(Apply(s, a), id) && Allowance(Apply(s, a), id) <= Allowance(s, id)
  {
    if id.sequence in s.freed {
      FreedStaysQuiet(s, a, id);
    } else if a.Start? {
      DoomedAtStart(s, id);
    } else if a.Reclaim? {
      DoomedAtReclaim(s, id);
    } else if a.Read? || a.EndBatch? || a.Rearm? || a.RunFunctor? {
      DoomedInBatch(s, a, id);
    } else {
      DoomedByUser(s, a, id);
    }
  }

  /** `cancelInLoop` takes effect on every timer that has been added: freed at once, or barred
      from the next schedule; on a timer whose `addTimerInLoop` is still queued it does nothing. */
  lemma CancelTakesEffect(s: State, a: Action, id: TimerId)
    requires Inv(s) && Enabled(s, a) && Safe(s, a) && Cancels(s, a, id) && Names(s, id)
    ensures Doomed(Apply(s, a), id) <==> !Posted(s, id.addr)
    ensures !Posted(s, id.addr) ==> Allowance(Apply(s, a), id) == Allowance(s, id)
    ensures Posted(s, id.addr) ==> Posted(Apply(s, a), id.addr) && Names(Apply(s, a), id)
  {
    assert OnePlace(s, id.addr);
    assert id in s.active <==> Waiting(s, id.addr);
    if Posted(s, id.addr) && a.RunFunctor? {
      assert s.pending == [s.pending[0]] + s.pending[1..];
    }
  }

  lemma CancelDooms(s: State, a: Action, id: TimerId)
    requires Inv(s) && Enabled(s, a) && Safe(s, a) && Cancels(s, a, id)
    requires id.sequence in s.freed || (Names(s, id) && !Posted(s, id.addr))
    ensures Doomed(Apply(s, a), id) && Allowance(Apply(s, a), id) <= Allowance(s, id)
  {
    if id.sequence in s.freed {
      FreedStaysQuiet(s, a, id);
    } else {
      CancelTakesEffect(s, a, id);
    }
  }

  lemma {:induction false} DoomedRun(ss: seq<State>, acts: seq<Action>, m: nat, n: nat, id: TimerId)
    requires IsRun(ss, acts) && Inv(ss[0]) && m <= n <= |acts| && Doomed(ss[m], id)
    ensures Doomed(ss[n], id) && Allowance(ss[n], id) <= Allowance(ss[m], id)
  {
    if m < n {
      DoomedRun(ss, acts, m, n - 1, id);
      RunInv(ss, acts, n - 1);
      assert StepOk(ss, acts, n - 1);
      DoomedStep(ss[n - 1], acts[n - 1], id);
    }
  }

  /** After a cancel returns, the timer starts at most once more, and only if it was then in the
      running batch and had not been started. */
  lemma CancelBound(ss: seq<State>, acts: seq<Action>, k: nat, n: nat, id: TimerId)
    requires IsRun(ss, acts) && Reachable(ss[0]) && k < n <= |acts|
    requires Enabled(ss[k], acts[k]) && Cancels(ss[k], acts[k], id)
    requires id.sequence in ss[k].freed || (Names(ss[k], id) && !Posted(ss[k], id.addr))
    ensures multiset(ss[n].starts)[id.sequence]
            <= multiset(ss[k].starts)[id.sequence] + if AboutToRun(ss[k], id) then 1 else 0
  {
    ReachableInv(ss[0]);
    RunInv(ss, acts, k);
    assert StepOk(ss, acts, k);
    CancelDooms(ss[k], acts[k], id);
    DoomedRun(ss, acts, k + 1, n, id);
  }

  // ---------------------------------------------------------------- no lost timer

  /** The kernel timer has fired, or will by the earliest expiration or 100 microseconds after it
      was armed, whichever is later. */
  ghost predicate Covered(s: State) {
    s.timers == [] || s.fd.Fired? || (
      s.fd.Armed? && s.fd.at <= if s.timers[0].when < s.fd.since + MIN_DELAY then s.fd.since + MIN_DELAY else s.timers[0].when)
  }

  /** A repeating timer must be rescheduled to a valid time stamp, one after the epoch. */
  predicate Renewable(when: int, interval: real) {
    interval > 0.0 ==> when + Timer(when, interval, true, 0).Period() > 0
  }

  predicate AddsRenewable(a: Action) {
    a.Create? || a.Post? ==> Renewable(a.when, a.interval)
  }

  ghost predicate HeapRenewable(s: State) {
    forall a :: a in s.heap ==> s.heap[a].repeat == (s.heap[a].interval > 0.0) && Renewable(s.heap[a].expiration, s.heap[a].interval)
  }

  /** While `handleRead` runs, a head that `reset` would refuse to arm for is covered already. */
  ghost predicate CoverInv(s: State) {
    s.clock > 0 && HeapRenewable(s) && (Covered(s) || (!s.phase.Idle? && s.timers[0].when > 0))
  }

  lemma AddedCover(s: State, addr: nat)
    requires addr in s.heap && CoverInv(s) && Sorted(s.timers)
    ensures CoverInv(AddedInLoop(s, addr))
  {
    InsertedOk(s.timers, EntryOf(s, addr));
  }

  lemma CanceledCover(s: State, id: TimerId)
    requires Canceled(s, id) <= s.heap.Keys && CoverInv(s) && Sorted(s.timers)
    ensures CoverInv(CanceledInLoop(s, id))
  {
    if id in s.active {
      RemovedOk(s.timers, EntryOf(s, id.addr));
    }
  }

  lemma ReclaimCover(s: State)
    requires Inv(s) && Enabled(s, Reclaim) && Safe(s, Reclaim) && CoverInv(s)
    ensures CoverInv(Apply(s, Reclaim))
  {
    var addr := s.phase.batch[s.phase.next].addr;
    var t := s.heap[addr];
    if t.repeat && TimerId(addr, t.sequence) !in s.canceling {
      InsertedOk(s.timers, Entry(t.Restarted().expiration, addr));
      assert t.Restarted().Period() == t.Period();
    }
  }

  lemma FunctorCover(s: State)
    requires Inv(s) && Enabled(s, RunFunctor) && Safe(s, RunFunctor) && CoverInv(s)
    ensures CoverInv(Apply(s, RunFunctor))
  {
    var s1 := s.(pending := s.pending[1..]);
    if s.pending[0].Add? {
      AddedCover(s1, s.pending[0].addr);
    } else {
      CanceledCover(s1, s.pending[0].id);
    }
  }

  lemma BatchCover(s: State, a: Action)
    requires Inv(s) && Enabled(s, a) && Safe(s, a) && CoverInv(s) && (a.Read? || a.Rearm?)
    ensures CoverInv(Apply(s, a))
  {
    if a.Read? {
      DueIsPrefix(s.timers, s.clock);
      assert forall e :: e in s.timers ==> Holds(s, e);
    } else {
      assert s.timers != [] ==> Holds(s, s.timers[0]);
    }
  }

  lemma CreateCover(s: State, addr: nat, when: int, interval: real)
    requires Inv(s) && Enabled(s, Create(addr, when, interval)) && CoverInv(s) && Renewable(when, interval)
    ensures CoverInv(Apply(s, Create(addr, when, interval)))
  {
    AddedCover(Allocated(s, addr, when, interval), addr);
  }

  /** Steps that change neither the order nor what the kernel was told. */
  lemma QuietCover(s: State, a: Action)
    requires Enabled(s, a) && Safe(s, a) && CoverInv(s) && AddsRenewable(a)
    requires a.Post? || a.ReadId? || a.PostCancel? || a.Tick? || a.Fire? || a.Start? || a.EndBatch?
    ensures CoverInv(Apply(s, a))
  {
  }

  lemma CoverStep(s: State, a: Action)
    requires Inv(s) && Enabled(s, a) && Safe(s, a) && CoverInv(s) && AddsRenewable(a)
    ensures CoverInv(Apply(s, a))
  {
    match a
    case Create(addr, when, interval) => CreateCover(s, addr, when, interval);
    case Cancel(id) => CanceledCover(s, id);
    case RunFunctor => FunctorCover(s);
    case Read => BatchCover(s, a);
    case Reclaim => ReclaimCover(s);
    case Rearm => BatchCover(s, a);
    case Post(_, _, _, _) => QuietCover(s, a);
    case ReadId(_) => QuietCover(s, a);
    case PostCancel(_) => QuietCover(s, a);
    case Tick(_) => QuietCover(s, a);
    case Fire => QuietCover(s, a);
    case Start => QuietCover(s, a);
    case EndBatch => QuietCover(s, a);
  }

  /** No lost timer: if every timer added is renewable, then whenever `handleRead` is not running
      the kernel timer covers the earliest expiration. */
  lemma {:induction false} NoTimerLost(ss: seq<State>, acts: seq<Action>, n: nat, clock: int)
    requires IsRun(ss, acts) && ss[0] == Init(clock) && clock > 0 && n <= |acts|
    requires forall a :: a in acts ==> AddsRenewable(a)
    ensures CoverInv(ss[n])
    ensures ss[n].phase.Idle? ==> Covered(ss[n])
  {
    if n > 0 {
      NoTimerLost(ss, acts, n - 1, clock);
      InitInv(clock);
      RunInv(ss, acts, n - 1);
      assert StepOk(ss, acts, n - 1);
      CoverStep(ss[n - 1], acts[n - 1]);
    }
  }
}
