/** The second half of `addTimer`: it reads the new timer's sequence number (net/TimerQueue.cpp line 77)
    after handing the timer to the loop. Whose read is always of a live timer? */
module TimerReaders {
  import opened TimerQueue

  /** A thread's unread timer is its own, so far nobody holds its id, and it is alive or was freed; it is
      alive if it repeats, or if the loop thread made it. */
  ghost predicate ReaderOk(s: State, t: nat)
    requires t in s.reading
  {
    var r := s.reading[t];
    && 0 < r.id.addr && r.id.sequence < s.created
    && (forall id :: id in s.issued ==> id.sequence != r.id.sequence)
    && (r.id.sequence in s.freed || Names(s, r.id))
    && (Names(s, r.id) ==> s.heap[r.id.addr].repeat == r.repeats)
    && (r.repeats || t == LOOP ==> Names(s, r.id))
  }

  ghost predicate ReadOk(s: State) {
    && (forall t :: t in s.reading ==> ReaderOk(s, t))
    && (forall t, u :: t in s.reading && u in s.reading && t != u ==> s.reading[t].id.sequence != s.reading[u].id.sequence)
    && (forall id :: id in s.issued ==> id.sequence < s.created)
    && (forall f :: f in s.pending && f.Drop? ==> Held(s, f.id))
    && (forall id :: id in s.canceling ==> Held(s, id))
  }

  lemma InitReads(clock: int)
    ensures ReadOk(Init(clock))
  {
  }

  /** The reader's timer lives on, or is a one-shot timer of another thread and is freed. */
  ghost predicate ReaderStays(s: State, s': State, t: nat)
    requires t in s.reading
  {
    var r := s.reading[t];
    Names(s, r.id) ==>
      || (Names(s', r.id) && s'.heap[r.id.addr].repeat == s.heap[r.id.addr].repeat)
      || (r.id.sequence in s'.freed && !r.repeats && t != LOOP)
  }

  lemma ReadersKept(s: State, s': State)
    requires ReadOk(s) && FreedOk(s') && s'.reading == s.reading && s'.issued == s.issued && s.created <= s'.created
    requires forall q :: q in s.freed ==> q in s'.freed
    requires forall t :: t in s.reading ==> ReaderStays(s, s', t)
    requires forall f :: f in s'.pending && f.Drop? ==> Held(s, f.id)
    requires forall id :: id in s'.canceling ==> Held(s, id)
    ensures ReadOk(s')
  {
    forall t | t in s'.reading ensures ReaderOk(s', t) {
      assert ReaderOk(s, t) && ReaderStays(s, s', t);
    }
  }

  /** Thread `t` has made timer `id`, which is newer than any other. */
  lemma ReaderAdded(s: State, s': State, t: nat, id: TimerId)
    requires ReadOk(s) && s' == s.(reading := s'.reading) && t !in s.reading && 0 < id.addr && Names(s, id)
    requires s'.reading == s.reading[t := Unread(id, s.heap[id.addr].repeat)] && id.sequence < s.created
    requires forall u :: u in s.reading ==> s.reading[u].id.sequence != id.sequence
    requires forall i :: i in s.issued ==> i.sequence != id.sequence
    ensures ReadOk(s')
  {
    forall u | u in s'.reading ensures ReaderOk(s', u) {
      if u != t { assert ReaderOk(s, u); }
    }
  }

  lemma MadeReads(s: State, s1: State, s': State, t: nat, addr: nat, when: int, interval: real)
    requires ReadOk(s) && addr !in s.heap && 0 < addr && t !in s.reading
    requires s1.heap == Allocated(s, addr, when, interval).heap && s1.created == s.created + 1 && s1.freed == s.freed && FreedOk(s1)
    requires s1.reading == s.reading && s1.issued == s.issued && s1.canceling == s.canceling
    requires forall f :: f in s1.pending && f.Drop? ==> f in s.pending
    requires s' == s1.(reading := Made(s, t, addr, interval))
    ensures ReadOk(s')
  {
    ReadersKept(s, s1);
    forall u | u in s.reading ensures s.reading[u].id.sequence != s.created {
      assert ReaderOk(s, u);
    }
    ReaderAdded(s1, s', t, TimerId(addr, s.created));
  }

  lemma ReadIdReads(s: State, t: nat)
    requires Inv(s) && ReadOk(s) && Enabled(s, ReadId(t)) && Safe(s, ReadId(t))
    ensures ReadOk(Apply(s, ReadId(t)))
  {
    var s' := Apply(s, ReadId(t));
    assert ReaderOk(s, t);
    forall u | u in s'.reading ensures ReaderOk(s', u) {
      assert ReaderOk(s, u);
    }
  }

  /** A cancel of an id that somebody holds frees no unread timer. */
  lemma CancelReads(s: State, id: TimerId)
    requires IndexOk(s) && ActiveOk(s) && ReadOk(s) && Held(s, id) && Canceled(s, id) <= s.heap.Keys && FreedOk(CanceledInLoop(s, id))
    ensures ReadOk(CanceledInLoop(s, id))
  {
    var s' := CanceledInLoop(s, id);
    forall t | t in s.reading ensures ReaderStays(s, s', t) {
      assert ReaderOk(s, t);
      if id in s.active { assert Waiting(s, id.addr); }
    }
    ReadersKept(s, s');
  }

  lemma FunctorReads(s: State)
    requires IndexOk(s) && ActiveOk(s) && FreedOk(s) && ReadOk(s)
    requires Enabled(s, RunFunctor) && Safe(s, RunFunctor) && FreedOk(Apply(s, RunFunctor))
    ensures ReadOk(Apply(s, RunFunctor))
  {
    var s1, f := s.(pending := s.pending[1..]), s.pending[0];
    PoppedReads(s, s1);
    if f.Add? {
      AddReads(s1, f.addr);
    } else {
      assert f in s.pending;
      CancelReads(s1, f.id);
    }
  }

  lemma AddReads(s: State, addr: nat)
    requires ReadOk(s) && addr in s.heap && FreedOk(AddedInLoop(s, addr))
    ensures ReadOk(AddedInLoop(s, addr))
  {
    ReadersKept(s, AddedInLoop(s, addr));
  }

  lemma PoppedReads(s: State, s1: State)
    requires IndexOk(s) && ActiveOk(s) && FreedOk(s) && ReadOk(s) && s.pending != [] && s1 == s.(pending := s.pending[1..])
    ensures IndexOk(s1) && ActiveOk(s1) && FreedOk(s1) && ReadOk(s1)
  {
    SameLives(s, s1);
    SameActive(s, s1);
    ReadersKept(s, s1);
  }

  /** `reset` deletes an unread timer only if it does not repeat and another thread made it. */
  lemma ResetReads(s: State)
    requires ReadOk(s) && Enabled(s, Reclaim) && Safe(s, Reclaim) && FreedOk(Apply(s, Reclaim))
    ensures ReadOk(Apply(s, Reclaim))
  {
    var s' := Apply(s, Reclaim);
    forall t | t in s.reading ensures ReaderStays(s, s', t) {
      ResetReader(s, t);
    }
    assert s'.pending == s.pending && s'.canceling == s.canceling;
    ReadersKept(s, s');
  }

  lemma ResetReader(s: State, t: nat)
    requires ReadOk(s) && Enabled(s, Reclaim) && Safe(s, Reclaim) && t in s.reading
    ensures ReaderStays(s, Apply(s, Reclaim), t)
  {
    assert ReaderOk(s, t);
    var addr := s.phase.batch[s.phase.next].addr;
    assert addr in Touched(s, Reclaim);
    if addr == s.reading[t].id.addr && Names(s, s.reading[t].id) {
      assert s.reading[t].id == TimerId(addr, s.heap[addr].sequence);
    }
  }

  lemma StepFreed(s: State, a: Action)
    requires Inv(s) && Enabled(s, a) && Safe(s, a)
    ensures FreedOk(Apply(s, a))
  {
    StepInv(s, a);
  }

  lemma CreateReads(s: State, addr: nat, when: int, interval: real)
    requires Inv(s) && ReadOk(s) && Enabled(s, Create(addr, when, interval))
    requires FreedOk(Apply(s, Create(addr, when, interval)))
    ensures ReadOk(Apply(s, Create(addr, when, interval)))
  {
    var s' := Apply(s, Create(addr, when, interval));
    var s1 := AddedInLoop(Allocated(s, addr, when, interval), addr);
    SameLives(s', s1);
    MadeReads(s, s1, s', LOOP, addr, when, interval);
  }

  lemma PostReads(s: State, t: nat, addr: nat, when: int, interval: real)
    requires Inv(s) && ReadOk(s) && Enabled(s, Post(t, addr, when, interval))
    requires FreedOk(Apply(s, Post(t, addr, when, interval)))
    ensures ReadOk(Apply(s, Post(t, addr, when, interval)))
  {
    var s' := Apply(s, Post(t, addr, when, interval));
    var s1 := s'.(reading := s.reading);
    SameLives(s', s1);
    MadeReads(s, s1, s', t, addr, when, interval);
  }

  /** Steps that neither make nor free a timer. */
  lemma QuietReads(s: State, s': State)
    requires ReadOk(s) && FreedOk(s') && s'.heap == s.heap && s'.freed == s.freed && s'.created == s.created
    requires s'.reading == s.reading && s'.issued == s.issued && s'.canceling <= s.canceling
    requires forall f :: f in s'.pending && f.Drop? ==> Held(s, f.id)
    ensures ReadOk(s')
  {
    ReadersKept(s, s');
  }

  lemma StepReads(s: State, a: Action)
    requires Inv(s) && ReadOk(s) && Enabled(s, a) && Safe(s, a)
    ensures ReadOk(Apply(s, a))
  {
    StepFreed(s, a);
    match a
    case Create(addr, when, interval) => CreateReads(s, addr, when, interval);
    case Post(t, addr, when, interval) => PostReads(s, t, addr, when, interval);
    case ReadId(t) => ReadIdReads(s, t);
    case Cancel(id) => CancelReads(s, id);
    case RunFunctor => FunctorReads(s);
    case Reclaim => ResetReads(s);
    case PostCancel(_) => QuietReads(s, Apply(s, a));
    case Tick(_) => QuietReads(s, Apply(s, a));
    case Fire => QuietReads(s, Apply(s, a));
    case Read => QuietReads(s, Apply(s, a));
    case Start => QuietReads(s, Apply(s, a));
    case EndBatch => QuietReads(s, Apply(s, a));
    case Rearm => QuietReads(s, Apply(s, a));
  }
}
