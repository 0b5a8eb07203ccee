/** Safe memory reclamation of base/HazardPointer.h: protected slots, retire lists, and a scan
    that reads the slots one by one while other threads register, protect and clear. */
module HazardPointer {

  /** Addresses are naturals; 0 is the null pointer. */
  type Ptr = nat

  const MAX_THREADS: nat := 128
  const SLOTS: nat := 2
  const RETIRE_THRESHOLD: nat := 64

  /** What a thread is doing; `record` is the index of its ThreadRecord. */
  datatype Pc =
    | Unregistered
    | Registering(record: nat)
    | Aborted
    | Ready(record: nat)
    | ScanRecord(record: nat, i: nat, hazardous: seq<Ptr>)
    | ScanSlot(record: nat, i: nat, j: nat, hazardous: seq<Ptr>)
    | Reclaim(record: nat, at: nat, hazardous: seq<Ptr>)
  {
    predicate HasRecord() { Registering? || Ready? || Scanning() }
    predicate Scanning() { ScanRecord? || ScanSlot? || Reclaim? }
    /** How many slots, counted over all records, the scan has behind it. */
    function Passed(): nat {
      if ScanRecord? then i * SLOTS else if ScanSlot? then i * SLOTS + j else if Reclaim? then MAX_THREADS * SLOTS else 0
    }
  }

  /** The shared records, each thread's retire list, and the client's data structure: which
      nodes are linked into it, and which a thread has unlinked and not retired yet. `guarded`
      is history: the slots whose thread, after storing, saw the node still linked. */
  datatype State = State(
    hazards: seq<Ptr>,
    active: seq<bool>,
    nextSlot: nat,
    threads: map<nat, Pc>,
    retired: map<nat, seq<Ptr>>,
    linked: set<Ptr>,
    unlinked: map<Ptr, nat>,
    guarded: map<(nat, nat), Ptr>)

  datatype Action =
    | TakeSlot(t: nat)
    | Activate(t: nat)
    | Protect(t: nat, j: nat, p: Ptr)
    | Validate(t: nat, j: nat)
    | Clear(t: nat, j: nat)
    | Link(t: nat, p: Ptr)
    | Unlink(t: nat, p: Ptr)
    | Retire(t: nat, p: Ptr)
    | Scan(t: nat)

  function Init(tids: set<nat>): State {
    State(seq(MAX_THREADS * SLOTS, _ => 0), seq(MAX_THREADS, _ => false), 0,
          map t | t in tids :: Unregistered, map t | t in tids :: [], {}, map[], map[])
  }

  /** No allocated node lives at this address. */
  ghost predicate Free(s: State, p: Ptr) {
    p !in s.linked && p !in s.unlinked && forall t :: t in s.retired ==> p !in s.retired[t]
  }

  /** The lengths and index ranges that the steps need. */
  ghost predicate Shape(s: State) {
    && |s.hazards| == MAX_THREADS * SLOTS && |s.active| == MAX_THREADS && s.retired.Keys == s.threads.Keys
    && (forall t :: t in s.threads ==> InRange(s.threads[t], s.retired[t]))
  }

  ghost predicate InRange(pc: Pc, list: seq<Ptr>) {
    && (pc.HasRecord() ==> pc.record < MAX_THREADS)
    && (pc.ScanRecord? ==> pc.i <= MAX_THREADS)
    && (pc.ScanSlot? ==> pc.i < MAX_THREADS && pc.j <= SLOTS)
    && (pc.Reclaim? ==> pc.at <= |list|)
  }

  ghost predicate Enabled(s: State, a: Action)
    requires Shape(s)
  {
    a.t in s.threads &&
    match a
    case TakeSlot(t) => s.threads[t].Unregistered?
    case Activate(t) => s.threads[t].Registering?
    case Protect(t, j, p) => s.threads[t].Ready? && j < SLOTS && p != 0
    case Validate(t, j) => s.threads[t].Ready? && j < SLOTS
    case Clear(t, j) => s.threads[t].Ready? && j < SLOTS
    case Link(t, p) => p != 0 && Free(s, p)
    case Unlink(t, p) => p in s.linked
    case Retire(t, p) => s.threads[t].Ready? && p in s.unlinked && s.unlinked[p] == t
    case Scan(t) => s.threads[t].Scanning()
  }

  function Slot(record: nat, j: nat): nat { record * SLOTS + j }

  /** One step of `scan`, lines 147-172: load a record's flag, load one slot, or decide about
      one retired node. */
  function ScanStep(s: State, pc: Pc, list: seq<Ptr>): (Pc, seq<Ptr>)
    requires pc.Scanning() && |s.hazards| == MAX_THREADS * SLOTS && |s.active| == MAX_THREADS
    requires pc.ScanRecord? ==> pc.i <= MAX_THREADS
    requires pc.ScanSlot? ==> pc.i < MAX_THREADS && pc.j <= SLOTS
    requires pc.Reclaim? ==> pc.at <= |list|
  {
    match pc
    case ScanRecord(r, i, hz) =>
      if i == MAX_THREADS then (Reclaim(r, 0, hz), list)
      else if !s.active[i] then (ScanRecord(r, i + 1, hz), list)
      else (ScanSlot(r, i, 0, hz), list)
    case ScanSlot(r, i, j, hz) =>
      if j == SLOTS then (ScanRecord(r, i + 1, hz), list)
      else
        var p := s.hazards[Slot(i, j)];
        (ScanSlot(r, i, j + 1, if p != 0 then hz + [p] else hz), list)
    case Reclaim(r, at, hz) =>
      if at == |list| then (Ready(r), list)
      else if list[at] in hz then (Reclaim(r, at + 1, hz), list)
      else (Reclaim(r, at, hz), list[..at] + list[at + 1..])
  }

  /** Some thread stored `p` in a slot, then saw it still linked, and has not cleared the slot. */
  ghost predicate Guarded(s: State, p: Ptr) {
    exists t, j :: (t, j) in s.guarded && s.guarded[(t, j)] == p
  }

  /** Does this action delete node `p`? */
  ghost predicate Deletes(s: State, a: Action, p: Ptr)
    requires Shape(s) && Enabled(s, a)
  {
    a.Scan? && var pc, list := s.threads[a.t], s.retired[a.t];
    pc.Reclaim? && pc.at < |list| && list[pc.at] !in pc.hazardous && p == list[pc.at]
  }

  ghost function Apply(s: State, a: Action): State
    requires Shape(s) && Enabled(s, a)
  {
    match a
    case TakeSlot(t) =>
      var pc := if s.nextSlot >= MAX_THREADS then Aborted else Registering(s.nextSlot);
      s.(nextSlot := s.nextSlot + 1, threads := s.threads[t := pc])
    case Activate(t) =>
      var r := s.threads[t].record;
      s.(active := s.active[r := true], threads := s.threads[t := Ready(r)])
    case Protect(t, j, p) =>
      s.(hazards := s.hazards[Slot(s.threads[t].record, j) := p], guarded := s.guarded - {(t, j)})
    case Clear(t, j) =>
      s.(hazards := s.hazards[Slot(s.threads[t].record, j) := 0], guarded := s.guarded - {(t, j)})
    case Validate(t, j) =>
      var p := s.hazards[Slot(s.threads[t].record, j)];
      if p in s.linked then s.(guarded := s.guarded[(t, j) := p]) else s
    case Link(_, p) => s.(linked := s.linked + {p})
    case Unlink(t, p) => s.(linked := s.linked - {p}, unlinked := s.unlinked[p := t])
    case Retire(t, p) =>
      var list := s.retired[t] + [p];
      var r := s.threads[t].record;
      var pc := if |list| >= RETIRE_THRESHOLD then ScanRecord(r, 0, []) else Ready(r);
      s.(unlinked := s.unlinked - {p}, retired := s.retired[t := list], threads := s.threads[t := pc])
    case Scan(t) =>
      var (pc, list) := ScanStep(s, s.threads[t], s.retired[t]);
      s.(threads := s.threads[t := pc], retired := s.retired[t := list])
  }

  // ---------------------------------------------------------------- the invariant

  ghost predicate Distinct(q: seq<Ptr>) {
    forall i, j :: 0 <= i < j < |q| ==> q[i] != q[j]
  }

  /** A node is linked, or unlinked, or in one place of one retire list, or free. */
  ghost predicate NodesOk(s: State) {
    && 0 !in s.linked
    && (forall p :: p in s.unlinked ==> p !in s.linked)
    && (forall t :: t in s.retired ==> Distinct(s.retired[t]))
    && (forall t, p :: t in s.retired && p in s.retired[t] ==> p !in s.linked && p !in s.unlinked)
    && (forall t, u, p :: t in s.retired && u in s.retired && p in s.retired[t] && p in s.retired[u] ==> t == u)
  }

  /** Records are taken in order and active; a scan has collected no more than it has passed, and
      kept only what is hazardous; outside a scan a retire list is bounded. */
  ghost predicate PcOk(s: State, pc: Pc, list: seq<Ptr>)
    requires |s.active| == MAX_THREADS
  {
    && InRange(pc, list)
    && (pc.HasRecord() ==> pc.record < s.nextSlot)
    && (pc.Ready? || pc.Scanning() ==> s.active[pc.record])
    && (pc.Scanning() ==> |pc.hazardous| <= pc.Passed())
    && (pc.Reclaim? ==> forall k :: 0 <= k < pc.at ==> list[k] in pc.hazardous)
    && (!pc.Scanning() ==> |list| <= MAX_THREADS * SLOTS)
  }

  ghost predicate PcsOk(s: State)
    requires Shape(s)
  {
    forall t :: t in s.threads ==> PcOk(s, s.threads[t], s.retired[t])
  }

  ghost predicate RecordsOk(s: State) {
    forall t, u :: t in s.threads && u in s.threads && t != u && s.threads[t].HasRecord() && s.threads[u].HasRecord() ==>
      s.threads[t].record != s.threads[u].record
  }

  /** A guarded slot still holds its node, and belongs to an active record. */
  ghost predicate GuardOk(s: State, t: nat, j: nat, p: Ptr)
    requires |s.hazards| == MAX_THREADS * SLOTS && |s.active| == MAX_THREADS
  {
    && t in s.threads && (s.threads[t].Ready? || s.threads[t].Scanning()) && j < SLOTS && p != 0
    && s.threads[t].record < MAX_THREADS && s.active[s.threads[t].record]
    && s.hazards[Slot(s.threads[t].record, j)] == p
  }

  /** A scan that has passed the slot guarding a node of its own retire list has noted it. */
  ghost predicate ScanSees(s: State, u: nat, t: nat, j: nat, p: Ptr)
    requires u in s.threads && u in s.retired && t in s.threads && s.threads[t].HasRecord()
  {
    s.threads[u].Scanning() && p in s.retired[u] && Slot(s.threads[t].record, j) < s.threads[u].Passed() ==>
      p in s.threads[u].hazardous
  }

  ghost predicate GuardsOk(s: State)
    requires Shape(s)
  {
    && (forall t, j :: (t, j) in s.guarded ==> GuardOk(s, t, j, s.guarded[(t, j)]) && !Free(s, s.guarded[(t, j)]))
    && (forall u, t, j :: u in s.threads && (t, j) in s.guarded ==> ScanSees(s, u, t, j, s.guarded[(t, j)]))
  }

  ghost predicate Inv(s: State) { Shape(s) && PcsOk(s) && NodesOk(s) && RecordsOk(s) && GuardsOk(s) }

  lemma InitInv(tids: set<nat>)
    ensures Inv(Init(tids))
  {
  }

  // ---------------------------------------------------------------- registration

  lemma TakeSlotShape(s: State, t: nat)
    requires Shape(s) && PcsOk(s) && Enabled(s, TakeSlot(t))
    ensures Shape(Apply(s, TakeSlot(t))) && PcsOk(Apply(s, TakeSlot(t)))
  {
    assert PcOk(s, s.threads[t], s.retired[t]);
  }

  lemma TakeSlotRecords(s: State, t: nat)
    requires Shape(s) && PcsOk(s) && RecordsOk(s) && Enabled(s, TakeSlot(t))
    ensures RecordsOk(Apply(s, TakeSlot(t)))
  {
    forall u | u in s.threads && s.threads[u].HasRecord() ensures s.threads[u].record < s.nextSlot {
      assert PcOk(s, s.threads[u], s.retired[u]);
    }
  }

  lemma TakeSlotInv(s: State, t: nat)
    requires Inv(s) && Enabled(s, TakeSlot(t))
    ensures Inv(Apply(s, TakeSlot(t)))
  {
    TakeSlotShape(s, t);
    TakeSlotRecords(s, t);
    GuardsFrame(s, Apply(s, TakeSlot(t)), t);
  }

  lemma ActivateInv(s: State, t: nat)
    requires Inv(s) && Enabled(s, Activate(t))
    ensures Inv(Apply(s, Activate(t)))
  {
    GuardsFrame(s, Apply(s, Activate(t)), t);
  }

  /** A step of `t` that changes neither slots, lists nor nodes, and whose thread neither
      guards nor scans, keeps the guards. */
  lemma GuardsFrame(s: State, s': State, t: nat)
    requires Shape(s) && GuardsOk(s) && Shape(s') && t in s.threads
    requires t in s'.threads && !s.threads[t].Ready? && !s.threads[t].Scanning() && !s'.threads[t].Scanning()
    requires s'.threads == s.threads[t := s'.threads[t]] && s'.guarded == s.guarded && s'.hazards == s.hazards
    requires forall i :: 0 <= i < MAX_THREADS && s.active[i] ==> s'.active[i]
    requires s'.retired == s.retired && s'.linked == s.linked && s'.unlinked == s.unlinked
    ensures GuardsOk(s')
  {
    forall u, j | (u, j) in s'.guarded
      ensures GuardOk(s', u, j, s'.guarded[(u, j)]) && !Free(s', s'.guarded[(u, j)])
    {
      assert GuardOk(s, u, j, s.guarded[(u, j)]);
    }
    forall v, u, j | v in s'.threads && (u, j) in s'.guarded ensures ScanSees(s', v, u, j, s'.guarded[(u, j)]) {
      assert ScanSees(s, v, u, j, s.guarded[(u, j)]);
    }
  }

  // ---------------------------------------------------------------- protecting

  /** Two slots of distinct records, or distinct slots of one record, are distinct. */
  lemma SlotsApart(r: nat, i: nat, q: nat, j: nat)
    requires i < SLOTS && j < SLOTS && Slot(r, i) == Slot(q, j)
    ensures r == q && i == j
  {
  }

  /** Storing into one's own slot keeps every other slot's guard. */
  lemma StoreInv(s: State, t: nat, j: nat, p: Ptr)
    requires Inv(s) && t in s.threads && s.threads[t].Ready? && j < SLOTS
    ensures var s' := s.(hazards := s.hazards[Slot(s.threads[t].record, j) := p], guarded := s.guarded - {(t, j)});
      Inv(s')
  {
    var r := s.threads[t].record;
    var s' := s.(hazards := s.hazards[Slot(r, j) := p], guarded := s.guarded - {(t, j)});
    forall u, i | (u, i) in s'.guarded
      ensures GuardOk(s', u, i, s'.guarded[(u, i)]) && !Free(s', s'.guarded[(u, i)])
    {
      assert GuardOk(s, u, i, s.guarded[(u, i)]);
      if Slot(s.threads[u].record, i) == Slot(r, j) {
        SlotsApart(s.threads[u].record, i, r, j);
      }
    }
    forall v, u, i | v in s'.threads && (u, i) in s'.guarded ensures ScanSees(s', v, u, i, s'.guarded[(u, i)]) {
      assert ScanSees(s, v, u, i, s.guarded[(u, i)]);
    }
  }

  lemma ValidateInv(s: State, t: nat, j: nat)
    requires Inv(s) && Enabled(s, Validate(t, j))
    ensures Inv(Apply(s, Validate(t, j)))
  {
    var s' := Apply(s, Validate(t, j));
    var p := s.hazards[Slot(s.threads[t].record, j)];
    if p in s.linked {
      forall u, i | (u, i) in s'.guarded
        ensures GuardOk(s', u, i, s'.guarded[(u, i)]) && !Free(s', s'.guarded[(u, i)])
      {
        assert (u, i) in s.guarded ==> GuardOk(s, u, i, s.guarded[(u, i)]);
      }
      forall v, u, i | v in s'.threads && (u, i) in s'.guarded ensures ScanSees(s', v, u, i, s'.guarded[(u, i)]) {
        assert (u, i) in s.guarded ==> ScanSees(s, v, u, i, s.guarded[(u, i)]);
      }
    }
  }

  // ---------------------------------------------------------------- the client's nodes

  lemma LinkInv(s: State, t: nat, p: Ptr)
    requires Inv(s) && Enabled(s, Link(t, p))
    ensures Inv(Apply(s, Link(t, p)))
  {
    var s' := Apply(s, Link(t, p));
    forall u, i | (u, i) in s'.guarded
      ensures GuardOk(s', u, i, s'.guarded[(u, i)]) && !Free(s', s'.guarded[(u, i)])
    {
      assert GuardOk(s, u, i, s.guarded[(u, i)]);
    }
    forall v, u, i | v in s'.threads && (u, i) in s'.guarded ensures ScanSees(s', v, u, i, s'.guarded[(u, i)]) {
      assert ScanSees(s, v, u, i, s.guarded[(u, i)]);
    }
  }

  lemma UnlinkInv(s: State, t: nat, p: Ptr)
    requires Inv(s) && Enabled(s, Unlink(t, p))
    ensures Inv(Apply(s, Unlink(t, p)))
  {
    var s' := Apply(s, Unlink(t, p));
    forall u, i | (u, i) in s'.guarded
      ensures GuardOk(s', u, i, s'.guarded[(u, i)]) && !Free(s', s'.guarded[(u, i)])
    {
      assert GuardOk(s, u, i, s.guarded[(u, i)]);
    }
    forall v, u, i | v in s'.threads && (u, i) in s'.guarded ensures ScanSees(s', v, u, i, s'.guarded[(u, i)]) {
      assert ScanSees(s, v, u, i, s.guarded[(u, i)]);
    }
  }

  lemma RetireNodes(s: State, t: nat, p: Ptr)
    requires Inv(s) && Enabled(s, Retire(t, p))
    ensures Shape(Apply(s, Retire(t, p))) && PcsOk(Apply(s, Retire(t, p))) && NodesOk(Apply(s, Retire(t, p))) && RecordsOk(Apply(s, Retire(t, p)))
  {
  }

  lemma RetireKeepsAlive(s: State, t: nat, p: Ptr, q: Ptr)
    requires Shape(s) && Enabled(s, Retire(t, p)) && !Free(s, q)
    ensures !Free(Apply(s, Retire(t, p)), q)
  {
    var s' := Apply(s, Retire(t, p));
    assert s'.retired[t] == s.retired[t] + [p];
    if q == p {
      assert p in s'.retired[t];
    } else if q !in s.linked && q !in s.unlinked {
      var u :| u in s.retired && q in s.retired[u];
      assert q in s'.retired[u];
    }
  }

  lemma RetireInv(s: State, t: nat, p: Ptr)
    requires Inv(s) && Enabled(s, Retire(t, p))
    ensures Inv(Apply(s, Retire(t, p)))
  {
    RetireNodes(s, t, p);
    var s' := Apply(s, Retire(t, p));
    forall u, i | (u, i) in s'.guarded
      ensures GuardOk(s', u, i, s'.guarded[(u, i)]) && !Free(s', s'.guarded[(u, i)])
    {
      assert GuardOk(s, u, i, s.guarded[(u, i)]);
      RetireKeepsAlive(s, t, p, s.guarded[(u, i)]);
    }
    forall v, u, i | v in s'.threads && (u, i) in s'.guarded ensures ScanSees(s', v, u, i, s'.guarded[(u, i)]) {
      assert ScanSees(s, v, u, i, s.guarded[(u, i)]);
    }
  }

  // ---------------------------------------------------------------- scanning

  ghost function Scanned(s: State, t: nat, pc: Pc, list: seq<Ptr>): State {
    s.(threads := s.threads[t := pc], retired := s.retired[t := list])
  }

  /** A step of a scan that leaves the retire list alone keeps the invariant, provided it has
      noted what it passed. */
  lemma KeepList(s: State, t: nat, pc: Pc)
    requires Inv(s) && t in s.threads && s.threads[t].Scanning()
    requires (pc.Ready? || pc.Scanning()) && pc.record == s.threads[t].record
    requires PcOk(s, pc, s.retired[t])
    requires forall u, j :: (u, j) in s.guarded && pc.Scanning() && s.guarded[(u, j)] in s.retired[t] ==>
      (Slot(s.threads[u].record, j) < pc.Passed() ==> s.guarded[(u, j)] in pc.hazardous)
    ensures Inv(Scanned(s, t, pc, s.retired[t]))
  {
    var s' := Scanned(s, t, pc, s.retired[t]);
    assert s'.retired == s.retired;
    forall u, i | (u, i) in s'.guarded
      ensures GuardOk(s', u, i, s'.guarded[(u, i)]) && !Free(s', s'.guarded[(u, i)])
    {
      assert GuardOk(s, u, i, s.guarded[(u, i)]);
    }
    forall v, u, i | v in s'.threads && (u, i) in s'.guarded ensures ScanSees(s', v, u, i, s'.guarded[(u, i)]) {
      assert ScanSees(s, v, u, i, s.guarded[(u, i)]);
    }
  }

  /** What the collecting half of the scan does next has noted every guard it passes: an
      inactive record guards nothing, and a loaded slot is added. */
  lemma CollectSees(s: State, t: nat, u: nat, j: nat)
    requires Inv(s) && t in s.threads && (s.threads[t].ScanRecord? || s.threads[t].ScanSlot?)
    requires (u, j) in s.guarded && s.guarded[(u, j)] in s.retired[t]
    ensures var pc := ScanStep(s, s.threads[t], s.retired[t]).0;
      Slot(s.threads[u].record, j) < pc.Passed() ==> s.guarded[(u, j)] in pc.hazardous
  {
    assert GuardOk(s, u, j, s.guarded[(u, j)]);
    assert ScanSees(s, t, u, j, s.guarded[(u, j)]);
  }

  lemma CollectPc(s: State, t: nat)
    requires Shape(s) && PcsOk(s) && t in s.threads && (s.threads[t].ScanRecord? || s.threads[t].ScanSlot?)
    ensures var (pc, list) := ScanStep(s, s.threads[t], s.retired[t]);
      pc.Scanning() && pc.record == s.threads[t].record && PcOk(s, pc, s.retired[t]) && list == s.retired[t]
  {
    assert PcOk(s, s.threads[t], s.retired[t]);
  }

  lemma CollectInv(s: State, t: nat)
    requires Inv(s) && Enabled(s, Scan(t)) && (s.threads[t].ScanRecord? || s.threads[t].ScanSlot?)
    ensures Inv(Apply(s, Scan(t)))
  {
    var pc := ScanStep(s, s.threads[t], s.retired[t]).0;
    CollectPc(s, t);
    forall u, j | (u, j) in s.guarded && s.guarded[(u, j)] in s.retired[t]
      ensures Slot(s.threads[u].record, j) < pc.Passed() ==> s.guarded[(u, j)] in pc.hazardous
    {
      CollectSees(s, t, u, j);
    }
    KeepList(s, t, pc);
  }

  /** Distinct entries that all occur in `hz` are at most as many as `hz` has entries. */
  lemma {:induction false} Pigeonhole(list: seq<Ptr>, hz: seq<Ptr>)
    requires Distinct(list) && forall k :: 0 <= k < |list| ==> list[k] in hz
    ensures |list| <= |hz|
  {
    if list != [] {
      var n := |list| - 1;
      var i :| 0 <= i < |hz| && hz[i] == list[n];
      var rest := hz[..i] + hz[i + 1..];
      forall k | 0 <= k < n ensures list[..n][k] in rest {
        var m :| 0 <= m < |hz| && hz[m] == list[k];
        assert rest[if m < i then m else m - 1] == list[k];
      }
      Pigeonhole(list[..n], rest);
    }
  }

  lemma KeepEntryInv(s: State, t: nat)
    requires Inv(s) && Enabled(s, Scan(t)) && s.threads[t].Reclaim?
    requires s.threads[t].at < |s.retired[t]| ==> s.retired[t][s.threads[t].at] in s.threads[t].hazardous
    ensures Inv(Apply(s, Scan(t)))
  {
    var pc := ScanStep(s, s.threads[t], s.retired[t]).0;
    assert PcOk(s, s.threads[t], s.retired[t]);
    if pc.Ready? {
      Pigeonhole(s.retired[t], s.threads[t].hazardous);
    }
    forall u, j | (u, j) in s.guarded && pc.Scanning() && s.guarded[(u, j)] in s.retired[t]
      ensures s.guarded[(u, j)] in pc.hazardous
    {
      GuardedIsHazardous(s, t, u, j);
    }
    KeepList(s, t, pc);
  }

  /** A scan that has passed all slots has noted every guard on its own retired nodes. */
  lemma GuardedIsHazardous(s: State, t: nat, u: nat, j: nat)
    requires Shape(s) && GuardsOk(s) && t in s.threads && s.threads[t].Reclaim?
    requires (u, j) in s.guarded && s.guarded[(u, j)] in s.retired[t]
    ensures s.guarded[(u, j)] in s.threads[t].hazardous
  {
    assert GuardOk(s, u, j, s.guarded[(u, j)]);
    assert ScanSees(s, t, u, j, s.guarded[(u, j)]);
  }

  lemma Erase(list: seq<Ptr>, at: nat)
    requires at < |list| && Distinct(list)
    ensures var rest := list[..at] + list[at + 1..];
      Distinct(rest) && list[at] !in rest
      && (forall p {:trigger p in rest} :: p in rest <==> p in list && p != list[at])
      && (forall k :: 0 <= k < at ==> rest[k] == list[k])
  {
    var rest := list[..at] + list[at + 1..];
    forall p | p in list && p != list[at] ensures p in rest {
      var m :| 0 <= m < |list| && list[m] == p;
      assert rest[if m < at then m else m - 1] == p;
    }
  }

  lemma DeleteNodes(s: State, t: nat, p: Ptr)
    requires Inv(s) && Enabled(s, Scan(t)) && Deletes(s, Scan(t), p)
    ensures Shape(Apply(s, Scan(t))) && PcsOk(Apply(s, Scan(t))) && NodesOk(Apply(s, Scan(t))) && RecordsOk(Apply(s, Scan(t)))
  {
    Erase(s.retired[t], s.threads[t].at);
    assert Apply(s, Scan(t)).threads == s.threads;
    assert PcOk(s, s.threads[t], s.retired[t]);
  }

  /** A deletion ends the life of its node and of no other. */
  lemma DeleteEndsOneLife(s: State, t: nat, p: Ptr)
    requires Inv(s) && Enabled(s, Scan(t)) && Deletes(s, Scan(t), p)
    ensures Free(Apply(s, Scan(t)), p)
    ensures forall q :: q != p && !Free(s, q) ==> !Free(Apply(s, Scan(t)), q)
  {
    var s' := Apply(s, Scan(t));
    Erase(s.retired[t], s.threads[t].at);
    forall q | q != p && !Free(s, q) ensures !Free(s', q) {
      if q !in s.linked && q !in s.unlinked {
        var u :| u in s.retired && q in s.retired[u];
        assert q in s'.retired[u];
      }
    }
  }

  lemma DeleteInv(s: State, t: nat, p: Ptr)
    requires Inv(s) && Enabled(s, Scan(t)) && Deletes(s, Scan(t), p)
    ensures Inv(Apply(s, Scan(t))) && !Guarded(s, p)
  {
    DeleteNodes(s, t, p);
    DeleteEndsOneLife(s, t, p);
    var s' := Apply(s, Scan(t));
    Erase(s.retired[t], s.threads[t].at);
    forall u, i | (u, i) in s'.guarded
      ensures GuardOk(s', u, i, s'.guarded[(u, i)]) && s.guarded[(u, i)] != p && !Free(s', s'.guarded[(u, i)])
    {
      assert GuardOk(s, u, i, s.guarded[(u, i)]);
      if s.guarded[(u, i)] == p {
        GuardedIsHazardous(s, t, u, i);
      }
    }
    forall v, u, i | v in s'.threads && (u, i) in s'.guarded ensures ScanSees(s', v, u, i, s'.guarded[(u, i)]) {
      assert ScanSees(s, v, u, i, s.guarded[(u, i)]);
    }
  }

  lemma StepInv(s: State, a: Action)
    requires Inv(s) && Enabled(s, a)
    ensures Inv(Apply(s, a))
  {
    match a
    case TakeSlot(t) => TakeSlotInv(s, t);
    case Activate(t) => ActivateInv(s, t);
    case Protect(t, j, p) => StoreInv(s, t, j, p);
    case Validate(t, j) => ValidateInv(s, t, j);
    case Clear(t, j) => StoreInv(s, t, j, 0);
    case Link(t, p) => LinkInv(s, t, p);
    case Unlink(t, p) => UnlinkInv(s, t, p);
    case Retire(t, p) => RetireInv(s, t, p);
    case Scan(t) =>
      var pc, list := s.threads[t], s.retired[t];
      if !pc.Reclaim? {
        CollectInv(s, t);
      } else if pc.at < |list| && list[pc.at] !in pc.hazardous {
        DeleteInv(s, t, list[pc.at]);
      } else {
        KeepEntryInv(s, t);
      }
  }

  // ---------------------------------------------------------------- runs and theorems

  ghost predicate StepOk(ss: seq<State>, acts: seq<Action>, i: nat)
    requires i < |acts| && |ss| == |acts| + 1
  {
    Shape(ss[i]) && Enabled(ss[i], acts[i]) && ss[i + 1] == Apply(ss[i], acts[i])
  }

  ghost predicate IsRun(ss: seq<State>, acts: seq<Action>) {
    |ss| == |acts| + 1 && forall i {:trigger StepOk(ss, acts, i)} :: 0 <= i < |acts| ==> StepOk(ss, acts, i)
  }

  ghost predicate Reachable(s: State, tids: set<nat>) {
    exists ss, acts :: IsRun(ss, acts) && ss[0] == Init(tids) && ss[|acts|] == s
  }

  lemma {:induction false} RunInv(ss: seq<State>, acts: seq<Action>, n: nat)
    requires IsRun(ss, acts) && Inv(ss[0]) && n <= |acts|
    ensures Inv(ss[n])
  {
    if n > 0 {
      RunInv(ss, acts, n - 1);
      assert StepOk(ss, acts, n - 1);
      StepInv(ss[n - 1], acts[n - 1]);
    }
  }

  lemma ReachableInv(s: State, tids: set<nat>)
    requires Reachable(s, tids)
    ensures Inv(s)
  {
    var ss, acts :| IsRun(ss, acts) && ss[0] == Init(tids) && ss[|acts|] == s;
    InitInv(tids);
    RunInv(ss, acts, |acts|);
  }

  /** Safety: no step of any scan deletes a node that some thread guards, and every guarded
      node is alive and still in the slot of its guard. */
  lemma NoScanDeletesGuarded(s: State, tids: set<nat>, a: Action, p: Ptr)
    requires Reachable(s, tids) && Shape(s) && Enabled(s, a)
    ensures Deletes(s, a, p) ==> !Guarded(s, p)
    ensures Guarded(s, p) ==> !Free(s, p) && !Free(Apply(s, a), p) && p in s.hazards
  {
    ReachableInv(s, tids);
    if Deletes(s, a, p) {
      DeleteInv(s, a.t, p);
    }
    if Guarded(s, p) {
      var t, j :| (t, j) in s.guarded && s.guarded[(t, j)] == p;
      assert GuardOk(s, t, j, p);
      StaysAlive(s, a, p);
    }
  }

  /** Only a deletion ends the life of a node. */
  lemma StaysAlive(s: State, a: Action, p: Ptr)
    requires Inv(s) && Enabled(s, a) && !Free(s, p) && !Deletes(s, a, p)
    ensures !Free(Apply(s, a), p)
  {
    if a.Retire? {
      RetireKeepsAlive(s, a.t, a.p, p);
    } else if a.Scan? {
      if s.threads[a.t].Reclaim? && s.threads[a.t].at < |s.retired[a.t]| {
        var q := s.retired[a.t][s.threads[a.t].at];
        if q !in s.threads[a.t].hazardous {
          DeleteEndsOneLife(s, a.t, q);
        } else {
          ListsUnchanged(s, a.t);
        }
      } else {
        ListsUnchanged(s, a.t);
      }
    }
  }

  lemma ListsUnchanged(s: State, t: nat)
    requires Shape(s) && Enabled(s, Scan(t))
    requires s.threads[t].Reclaim? && s.threads[t].at < |s.retired[t]| ==>
      s.retired[t][s.threads[t].at] in s.threads[t].hazardous
    ensures Apply(s, Scan(t)).retired == s.retired
  {
  }

  /** Each retired node is deleted at most once: at its deletion it is in one place of one retire
      list, and afterwards it is nowhere until its address is linked anew. */
  lemma DeletedAtMostOnce(s: State, tids: set<nat>, t: nat, p: Ptr)
    requires Reachable(s, tids) && Shape(s) && Enabled(s, Scan(t)) && Deletes(s, Scan(t), p)
    ensures Free(Apply(s, Scan(t)), p) && p !in s.linked
    ensures forall u :: u in s.retired && p in s.retired[u] ==> u == t
  {
    ReachableInv(s, tids);
    DeleteEndsOneLife(s, t, p);
  }

  /** After `retire` returns, the thread's retire list has at most one entry per hazard slot. */
  lemma RetireListBounded(s: State, tids: set<nat>, t: nat)
    requires Reachable(s, tids) && t in s.threads && s.threads[t].Ready?
    ensures t in s.retired && |s.retired[t]| <= MAX_THREADS * SLOTS
  {
    ReachableInv(s, tids);
    assert PcOk(s, s.threads[t], s.retired[t]);
  }

  // ---------------------------------------------------------------- the object

  /** The entries of a retire list that stay, in order. */
  ghost function Kept(list: seq<Ptr>, hz: seq<Ptr>): seq<Ptr> {
    if list == [] then [] else (if list[0] in hz then [list[0]] else []) + Kept(list[1..], hz)
  }

  ghost function Dropped(list: seq<Ptr>, hz: seq<Ptr>): seq<Ptr> {
    if list == [] then [] else (if list[0] in hz then [] else [list[0]]) + Dropped(list[1..], hz)
  }

  lemma KeptFirst(x: Ptr, list: seq<Ptr>, hz: seq<Ptr>)
    ensures Kept([x] + list, hz) == (if x in hz then [x] else []) + Kept(list, hz)
    ensures Dropped([x] + list, hz) == (if x in hz then [] else [x]) + Dropped(list, hz)
  {
    assert ([x] + list)[1..] == list;
  }

  /** Erasing one entry that is not hazardous. */
  lemma {:induction false} ErasedEntry(list: seq<Ptr>, at: nat, hz: seq<Ptr>)
    requires at < |list| && list[at] !in hz && forall k :: 0 <= k < at ==> list[k] in hz
    ensures Kept(list[..at] + list[at + 1..], hz) == Kept(list, hz)
    ensures Dropped(list, hz) == [list[at]] + Dropped(list[..at] + list[at + 1..], hz)
  {
    if at == 0 {
      assert list[..0] + list[1..] == list[1..];
    } else {
      var tail := list[1..];
      var rest := tail[..at - 1] + tail[at..];
      assert list == [list[0]] + tail;
      assert list[..at] + list[at + 1..] == [list[0]] + rest;
      KeptFirst(list[0], rest, hz);
      ErasedEntry(tail, at - 1, hz);
    }
  }

  lemma {:induction false} AllKept(list: seq<Ptr>, hz: seq<Ptr>)
    requires forall k :: 0 <= k < |list| ==> list[k] in hz
    ensures Kept(list, hz) == list && Dropped(list, hz) == []
  {
    if list != [] {
      AllKept(list[1..], hz);
    }
  }

  /** The records of all threads, scanned by one of them while the others stand still. */
  class Domain {
    const hazards: array<Ptr>
    const active: array<bool>
    var retireList: seq<Ptr>

    ghost predicate Valid() {
      hazards.Length == MAX_THREADS * SLOTS && active.Length == MAX_THREADS
    }

    constructor ()
      ensures Valid() && fresh(hazards) && fresh(active) && retireList == []
      ensures forall i :: 0 <= i < MAX_THREADS ==> !active[i]
    {
      hazards := new Ptr[MAX_THREADS * SLOTS](_ => 0);
      active := new bool[MAX_THREADS](_ => false);
      retireList := [];
    }

    /** Slot `n` belongs to an active record and protects `p`. */
    ghost predicate Protects(n: nat, p: Ptr)
      requires Valid()
      reads hazards, active
    {
      n < MAX_THREADS * SLOTS && active[n / SLOTS] && hazards[n] == p && p != 0
    }

    /** Some slot before the `m`-th protects `p`. */
    ghost predicate ProtectedBefore(p: Ptr, m: nat)
      requires Valid()
      reads hazards, active
    {
      exists n: nat :: n < m && Protects(n, p)
    }

    /** Lines 147-161: the hazard pointers of all active records. */
    method Collect() returns (hazardous: seq<Ptr>)
      requires Valid()
      ensures forall p :: p in hazardous <==> ProtectedBefore(p, MAX_THREADS * SLOTS)
      ensures |hazardous| <= MAX_THREADS * SLOTS
    {
      hazardous := [];
      for i := 0 to MAX_THREADS
        invariant |hazardous| <= i * SLOTS
        invariant forall p :: p in hazardous <==> ProtectedBefore(p, i * SLOTS)
      {
        if active[i] {
          for j := 0 to SLOTS
            invariant |hazardous| <= i * SLOTS + j
            invariant forall p :: p in hazardous <==> ProtectedBefore(p, i * SLOTS + j)
          {
            var n := i * SLOTS + j;
            assert n / SLOTS == i;
            var hp := hazards[n];
            if hp != 0 {
              assert Protects(n, hp);
              hazardous := hazardous + [hp];
            }
          }
        } else {
          assert forall n: nat, p :: i * SLOTS <= n < (i + 1) * SLOTS ==> !Protects(n, p);
        }
      }
    }

    /** Lines 163-172: erases and deletes the entries that are not hazardous. */
    method Sweep(hazardous: seq<Ptr>) returns (deleted: seq<Ptr>)
      modifies this`retireList
      ensures retireList == Kept(old(retireList), hazardous)
      ensures deleted == Dropped(old(retireList), hazardous)
    {
      deleted := [];
      var it := 0;
      while it != |retireList|
        invariant it <= |retireList| && forall k :: 0 <= k < it ==> retireList[k] in hazardous
        invariant Kept(retireList, hazardous) == Kept(old(retireList), hazardous)
        invariant deleted + Dropped(retireList, hazardous) == Dropped(old(retireList), hazardous)
        decreases |retireList| - it
      {
        if retireList[it] in hazardous {
          it := it + 1;
        } else {
          ErasedEntry(retireList, it, hazardous);
          deleted := deleted + [retireList[it]];
          retireList := retireList[..it] + retireList[it + 1..];
        }
      }
      AllKept(retireList, hazardous);
    }

    /** Lines 106-113. */
    method Retire(p: Ptr) returns (deleted: seq<Ptr>)
      requires Valid()
      modifies this`retireList
      ensures |old(retireList)| + 1 < RETIRE_THRESHOLD ==> retireList == old(retireList) + [p] && deleted == []
      ensures |old(retireList)| + 1 >= RETIRE_THRESHOLD ==> exists hz: seq<Ptr> ::
                (forall q :: q in hz <==> ProtectedBefore(q, MAX_THREADS * SLOTS))
                && retireList == Kept(old(retireList) + [p], hz) && deleted == Dropped(old(retireList) + [p], hz)
    {
      retireList := retireList + [p];
      deleted := [];
      if |retireList| >= RETIRE_THRESHOLD {
        var hazardous := Collect();
        deleted := Sweep(hazardous);
      }
    }
  }
}
