/** The chunk allocator of pool/MemPool.cpp and pool/MemPool.h: regions from the system are carved into
    blocks of 32 size classes, and what is left of a region goes to a smaller class. */
module ChunkAllocator {
  const ALIGN: nat := 8
  const MAX_BYTES: nat := 256
  const NUM_FREE_LISTS: nat := 32
  const OBJS: nat := 20

  datatype Piece = Piece(addr: nat, size: nat)

  /** `lists` are the free lists, `pieces` every block ever carved, `live` the blocks handed out with
      their sizes, `[start, end)` the uncarved remainder, `regions` what the system has granted. */
  datatype State = State(
    lists: seq<seq<nat>>,
    pieces: seq<Piece>,
    live: map<nat, nat>,
    start: nat,
    end: nat,
    heapSize: nat,
    regions: seq<Piece>)

  function Init(): State { State(seq(NUM_FREE_LISTS, _ => []), [], map[], 0, 0, 0, []) }

  function RoundUp(bytes: nat): (r: nat)
    ensures r % ALIGN == 0 && bytes <= r < bytes + ALIGN
  {
    (bytes + ALIGN - 1) / ALIGN * ALIGN
  }

  /** `freeListIndex`, on 64-bit unsigned integers. */
  function FreeListIndex(bytes: nat): nat {
    ((bytes + ALIGN - 1) / ALIGN - 1) % 0x1_0000_0000_0000_0000
  }

  /** The index is a class, of blocks of the rounded size, for 1 to 256 bytes; for no bytes at all it
      wraps around and is far outside the table. */
  lemma IndexIsClassIff(bytes: nat)
    requires bytes <= MAX_BYTES
    ensures FreeListIndex(bytes) < NUM_FREE_LISTS <==> bytes >= 1
    ensures bytes >= 1 ==> RoundUp(bytes) == ALIGN * (FreeListIndex(bytes) + 1) && FreeListIndex(RoundUp(bytes)) == FreeListIndex(bytes)
    ensures bytes == 0 ==> FreeListIndex(bytes) == 0xFFFF_FFFF_FFFF_FFFF
  {
  }

  /** The class of a block of `size` bytes. */
  function Class(size: nat): (k: int)
    ensures BlockSize(size) ==> 0 <= k < NUM_FREE_LISTS && ClassBytes(k) == size
  {
    size / ALIGN - 1
  }

  function ClassBytes(k: nat): nat { ALIGN * (k + 1) }

  predicate BlockSize(size: nat) { size % ALIGN == 0 && ALIGN <= size <= MAX_BYTES }

  // ---------------------------------------------------------------- steps

  function CarvedOne(s: State, n: nat): State {
    s.(pieces := s.pieces + [Piece(s.start, n)], start := s.start + n)
  }

  /** `k` blocks cut from the front of the remainder. */
  function Carved(s: State, n: nat, k: nat): (r: State)
    ensures r == s.(pieces := r.pieces, start := r.start) && s.pieces <= r.pieces
    decreases k
  {
    if k == 0 then s else Carved(CarvedOne(s, n), n, k - 1)
  }

  /** The addresses of `k` blocks of `n` bytes in a row. */
  function Blocks(start: nat, n: nat, k: nat): (r: seq<nat>)
    ensures |r| == k
    decreases k
  {
    if k == 0 then [] else [start] + Blocks(start + n, n, k - 1)
  }

  /** Lines 64-69: what is left joins the free list of its own size. */
  function Donated(s: State): State
    requires s.end > s.start ==> BlockSize(s.end - s.start) && |s.lists| == NUM_FREE_LISTS
  {
    if s.end <= s.start then s
    else
      var k := Class(s.end - s.start);
      CarvedOne(s, s.end - s.start).(lists := s.lists[k := [s.start] + s.lists[k]])
  }

  /** Line 63. */
  function BytesToGet(s: State, n: nat, objs: nat): nat { 2 * (n * objs) + RoundUp(s.heapSize / 16) }

  /** Lines 71-73. */
  function Grown(s: State, base: nat, bytes: nat): State {
    s.(start := base, end := base + bytes, heapSize := s.heapSize + bytes, regions := s.regions + [Piece(base, bytes)])
  }

  function BytesLeft(s: State): int { s.end - s.start }

  predicate Grows(s: State, n: nat) { BytesLeft(s) < n }

  /** The remainder blocks are cut from. */
  function Supplied(s: State, n: nat, objs: nat, base: nat): State
    requires Grows(s, n) && s.end > s.start ==> BlockSize(s.end - s.start) && |s.lists| == NUM_FREE_LISTS
  {
    if Grows(s, n) then Grown(Donated(s), base, BytesToGet(s, n, objs)) else s
  }

  /** How many blocks of `n` bytes fit into `left`, up to `cap` of them. */
  function Fitting(left: int, n: nat, cap: nat): (k: nat)
    ensures k <= cap && (left >= n && cap > 0 ==> k > 0)
    decreases cap
  {
    if cap == 0 || left < n then 0 else 1 + Fitting(left - n, n, cap - 1)
  }

  /** How many blocks `chunkAlloc` delivers, lines 50-60. */
  function Delivered(s: State, n: nat, objs: nat): nat {
    if Grows(s, n) then objs else Fitting(BytesLeft(s), n, objs)
  }

  /** The division of line 56 answers exactly that number. */
  lemma {:induction false} FittingIsQuotient(left: nat, n: nat, cap: nat)
    requires n > 0
    ensures Fitting(left, n, cap) == if left >= n * cap then cap else left / n
    ensures n * Fitting(left, n, cap) <= left
    decreases cap
  {
    if cap > 0 && left >= n {
      FittingIsQuotient(left - n, n, cap - 1);
      QuotientLess(left, n);
      assert n * cap == n + n * (cap - 1);
      var k := Fitting(left - n, n, cap - 1);
      assert n * (k + 1) == n + n * k;
    } else if left < n {
      QuotientZero(left, n);
      if cap > 0 { MulMonotone(n, 1, cap); }
    }
  }

  lemma QuotientZero(left: nat, n: nat)
    requires left < n
    ensures left / n == 0
  {
  }

  lemma QuotientLess(left: nat, n: nat)
    requires 0 < n <= left
    ensures left / n == (left - n) / n + 1
  {
    var q, r := (left - n) / n, (left - n) % n;
    assert left - n == n * q + r;
    assert left == n * (q + 1) + r;
    QuotientIs(left, n, q + 1, r);
  }

  lemma QuotientIs(x: nat, n: nat, q: nat, r: nat)
    requires n > 0 && x == n * q + r && r < n
    ensures x / n == q
  {
    var p, m := x / n, x % n;
    assert x == n * p + m;
    assert n * (p + 1) == n * p + n && n * (q + 1) == n * q + n;
    if p < q { MulMonotone(n, p + 1, q); }
    if q < p { MulMonotone(n, q + 1, p); }
  }

  /** The system's grant lies above address 0, is aligned, and overlaps no earlier one. */
  ghost predicate Grant(s: State, base: nat, bytes: nat) {
    base > 0 && base % ALIGN == 0 && forall r :: r in s.regions ==> Apart(r, Piece(base, bytes))
  }

  predicate Apart(p: Piece, q: Piece) { p.addr + p.size <= q.addr || q.addr + q.size <= p.addr }

  /** Lines 28-42: `k` blocks are carved; the first is handed out, the others become the free list. */
  function Divided(s: State, n: nat, k: nat): State
    requires |s.lists| == NUM_FREE_LISTS && BlockSize(n)
  {
    var s' := Carved(s, n, k);
    s'.(live := s'.live[s.start := n],
        lists := if k <= 1 then s'.lists else s'.lists[Class(n) := Blocks(s.start + n, n, k - 1)])
  }

  /** `refill`, lines 25-43. */
  function Refilled(s: State, n: nat, base: nat): State
    requires |s.lists| == NUM_FREE_LISTS && BlockSize(n)
    requires Grows(s, n) && s.end > s.start ==> BlockSize(s.end - s.start)
  {
    Divided(Supplied(s, n, OBJS, base), n, Delivered(s, n, OBJS))
  }

  /** `allocate` of a size class, pool/MemPool.h lines 67-74. */
  function Allocated(s: State, n: nat, base: nat): State
    requires |s.lists| == NUM_FREE_LISTS && BlockSize(n)
    requires s.lists[Class(n)] == [] && Grows(s, n) && s.end > s.start ==> BlockSize(s.end - s.start)
  {
    if s.lists[Class(n)] == [] then Refilled(s, n, base) else Popped(s, n)
  }

  /** The block `allocate` returns. */
  function Result(s: State, n: nat, base: nat): nat
    requires |s.lists| == NUM_FREE_LISTS && BlockSize(n)
  {
    if s.lists[Class(n)] != [] then s.lists[Class(n)][0] else if Grows(s, n) then base else s.start
  }

  /** `deallocate`, pool/MemPool.h lines 83-87. */
  function Deallocated(s: State, p: nat): State
    requires |s.lists| == NUM_FREE_LISTS && p in s.live && BlockSize(s.live[p])
  {
    var k := Class(s.live[p]);
    s.(lists := s.lists[k := [p] + s.lists[k]], live := s.live - {p})
  }

  // ---------------------------------------------------------------- invariant

  function Total(ps: seq<Piece>): nat {
    if ps == [] then 0 else Total(ps[..|ps| - 1]) + ps[|ps| - 1].size
  }

  ghost predicate Inside(s: State, p: Piece) {
    exists i :: 0 <= i < |s.regions| && s.regions[i].addr <= p.addr && p.addr + p.size <= s.regions[i].addr + s.regions[i].size
  }

  ghost predicate PieceOk(s: State, p: Piece) {
    && BlockSize(p.size) && p.addr % ALIGN == 0 && p.addr > 0 && Inside(s, p)
    && (p.addr + p.size <= s.start || s.end <= p.addr)
  }

  /** Blocks and remainder are aligned, apart from each other, inside the regions, and add up. */
  ghost predicate Tiled(s: State) {
    && s.start <= s.end && s.start % ALIGN == 0 && s.end % ALIGN == 0 && s.heapSize % ALIGN == 0
    && (s.start < s.end ==> s.start > 0 && Inside(s, Piece(s.start, s.end - s.start)))
    && (forall p :: p in s.pieces ==> PieceOk(s, p))
    && (forall i, j :: 0 <= i < j < |s.pieces| ==> Apart(s.pieces[i], s.pieces[j]))
    && Total(s.pieces) + (s.end - s.start) == s.heapSize == Total(s.regions)
  }

  ghost predicate Listed(s: State, k: nat, a: nat) { k < |s.lists| && a in s.lists[k] }

  /** A listed block is a block of its list's size, and not handed out. */
  ghost predicate ListsOk(s: State) {
    forall k, a :: Listed(s, k, a) ==> Piece(a, ClassBytes(k)) in s.pieces && a !in s.live
  }

  /** Each block is handed out or on the free list of its size, never both and never twice. */
  ghost predicate Owned(s: State) {
    && |s.lists| == NUM_FREE_LISTS
    && ListsOk(s)
    && (forall k, i, j :: 0 <= k < NUM_FREE_LISTS && 0 <= i < j < |s.lists[k]| ==> s.lists[k][i] != s.lists[k][j])
    && (forall p :: p in s.pieces ==> Held(s, p))
    && (forall a :: a in s.live ==> Piece(a, s.live[a]) in s.pieces)
  }

  ghost predicate Held(s: State, p: Piece)
    requires |s.lists| == NUM_FREE_LISTS
  {
    BlockSize(p.size) && (if p.addr in s.live then s.live[p.addr] == p.size else p.addr in s.lists[Class(p.size)])
  }

  ghost predicate Inv(s: State) { Tiled(s) && Owned(s) }

  lemma InitInv()
    ensures Inv(Init())
  {
  }

  /** A remainder too small for the class asked for is itself a block, of a strictly smaller class. */
  lemma DonationIsSmallerClass(s: State, n: nat)
    requires Tiled(s) && BlockSize(n) && Grows(s, n) && s.end > s.start
    ensures BlockSize(s.end - s.start) && 0 <= Class(s.end - s.start) < Class(n)
  {
  }

  /** Two blocks at one address are the same block. */
  lemma AddressIsUnique(s: State, p: Piece, q: Piece)
    requires Tiled(s) && p in s.pieces && q in s.pieces && p.addr == q.addr
    ensures p == q
  {
    var i :| 0 <= i < |s.pieces| && s.pieces[i] == p;
    var j :| 0 <= j < |s.pieces| && s.pieces[j] == q;
    assert PieceOk(s, p) && PieceOk(s, q);
    assert i < j ==> Apart(s.pieces[i], s.pieces[j]);
    assert j < i ==> Apart(s.pieces[j], s.pieces[i]);
  }

  lemma TotalGrows(ps: seq<Piece>, p: Piece)
    ensures Total(ps + [p]) == Total(ps) + p.size
  {
    assert (ps + [p])[..|ps|] == ps;
  }

  lemma CarvedOneTiled(s: State, n: nat)
    requires Tiled(s) && BlockSize(n) && n <= s.end - s.start
    ensures Tiled(CarvedOne(s, n)) && Piece(s.start, n) !in s.pieces
  {
    var s', p := CarvedOne(s, n), Piece(s.start, n);
    TotalGrows(s.pieces, p);
    InsideParts(s, s', s.start, n, s.end - s.start);
    forall q | q in s'.pieces ensures PieceOk(s', q) {
      if q in s.pieces {
        assert PieceOk(s, q);
        InsideKept(s, s', q);
      }
    }
    CarvedOneApart(s, p);
  }

  lemma CarvedOneApart(s: State, p: Piece)
    requires Tiled(s) && p.addr == s.start && 0 < p.size <= s.end - s.start
    ensures p !in s.pieces
    ensures var ps := s.pieces + [p]; forall i, j :: 0 <= i < j < |ps| ==> Apart(ps[i], ps[j])
  {
    var ps := s.pieces + [p];
    forall i, j | 0 <= i < j < |ps| ensures Apart(ps[i], ps[j]) {
      assert PieceOk(s, ps[i]);
      if j < |s.pieces| { assert Apart(s.pieces[i], s.pieces[j]); }
    }
    assert forall q :: q in s.pieces ==> PieceOk(s, q);
  }

  /** The front and the back of a range inside a region are inside it. */
  lemma InsideParts(s: State, s': State, a: nat, n: nat, len: nat)
    requires Inside(s, Piece(a, len)) && n <= len && s'.regions == s.regions
    ensures Inside(s', Piece(a, n)) && Inside(s', Piece(a + n, len - n))
  {
    var i :| 0 <= i < |s.regions| && s.regions[i].addr <= a && a + len <= s.regions[i].addr + s.regions[i].size;
    assert s'.regions[i] == s.regions[i];
  }

  lemma InsideKept(s: State, s': State, q: Piece)
    requires Inside(s, q) && s.regions <= s'.regions
    ensures Inside(s', q)
  {
    var i :| 0 <= i < |s.regions| && s.regions[i].addr <= q.addr && q.addr + q.size <= s.regions[i].addr + s.regions[i].size;
    assert s'.regions[i] == s.regions[i];
  }

  lemma GrownTiled(s: State, base: nat, bytes: nat)
    requires Tiled(s) && s.start == s.end && Grant(s, base, bytes) && bytes % ALIGN == 0 && bytes > 0
    ensures Tiled(Grown(s, base, bytes))
  {
    var s', r := Grown(s, base, bytes), Piece(base, bytes);
    TotalGrows(s.regions, r);
    assert s'.regions[|s.regions|] == r;
    assert Inside(s', Piece(base, bytes));
    forall q | q in s'.pieces ensures PieceOk(s', q) {
      assert PieceOk(s, q);
      InsideKept(s, s', q);
      var i :| 0 <= i < |s.regions| && s.regions[i].addr <= q.addr && q.addr + q.size <= s.regions[i].addr + s.regions[i].size;
      assert s.regions[i] in s.regions;
    }
  }

  // ---------------------------------------------------------------- carving several blocks

  /** One block less, one block further. */
  lemma OneCarved(s: State, n: nat, k: nat)
    requires k > 0 && n * k <= s.end - s.start
    ensures n <= s.end - s.start && n * (k - 1) <= CarvedOne(s, n).end - CarvedOne(s, n).start
    ensures n * k == n + n * (k - 1)
  {
    var rest := n * (k - 1);
    assert n * k == n + rest && rest >= 0;
  }

  lemma {:induction false} CarvedStart(s: State, n: nat, k: nat)
    ensures Carved(s, n, k).start == s.start + n * k
    decreases k
  {
    if k > 0 {
      assert n * k == n + n * (k - 1);
      CarvedStart(CarvedOne(s, n), n, k - 1);
    }
  }

  lemma {:induction false} CarvedTiled(s: State, n: nat, k: nat)
    requires Tiled(s) && BlockSize(n) && n * k <= s.end - s.start
    ensures Tiled(Carved(s, n, k))
    decreases k
  {
    if k > 0 {
      OneCarved(s, n, k);
      CarvedOneTiled(s, n);
      CarvedTiled(CarvedOne(s, n), n, k - 1);
    }
  }

  lemma {:induction false} CarvedPieces(s: State, n: nat, k: nat)
    ensures forall p :: p in Carved(s, n, k).pieces <==> p in s.pieces || (p.size == n && p.addr in Blocks(s.start, n, k))
    decreases k
  {
    if k > 0 {
      CarvedPieces(CarvedOne(s, n), n, k - 1);
    }
  }

  /** Blocks in a row are distinct. */
  lemma {:induction false} BlocksDistinct(start: nat, n: nat, k: nat)
    requires n > 0
    ensures forall i :: 0 <= i < k ==> start <= Blocks(start, n, k)[i]
    ensures forall i, j :: 0 <= i < j < k ==> Blocks(start, n, k)[i] != Blocks(start, n, k)[j]
    decreases k
  {
    if k > 0 {
      BlocksDistinct(start + n, n, k - 1);
    }
  }

  /** New blocks have new addresses. */
  lemma {:induction false} BlocksNew(s: State, n: nat, k: nat)
    requires Tiled(s) && BlockSize(n) && n * k <= s.end - s.start
    ensures forall p :: p in s.pieces ==> p.addr !in Blocks(s.start, n, k)
    decreases k
  {
    if k > 0 {
      OneCarved(s, n, k);
      CarvedOneTiled(s, n);
      BlocksNew(CarvedOne(s, n), n, k - 1);
      forall p | p in s.pieces ensures p.addr != s.start {
        assert PieceOk(s, p);
      }
    }
  }

  // ---------------------------------------------------------------- donating and growing

  lemma DonatedInv(s: State)
    requires Inv(s) && (s.end > s.start ==> BlockSize(s.end - s.start))
    ensures Inv(Donated(s)) && Donated(s).start == Donated(s).end
  {
    if s.end > s.start {
      CarvedOneTiled(s, s.end - s.start);
      DonatedOwned(s);
      TiledLists(CarvedOne(s, s.end - s.start), Donated(s));
    }
  }

  lemma TiledLists(s: State, s': State)
    requires Tiled(s) && s' == s.(lists := s'.lists, live := s'.live)
    ensures Tiled(s')
  {
    forall p | p in s'.pieces ensures PieceOk(s', p) {
      assert PieceOk(s, p);
      InsideKept(s, s', p);
    }
    if s.start < s.end { InsideKept(s, s', Piece(s.start, s.end - s.start)); }
  }

  lemma DonatedOwned(s: State)
    requires Inv(s) && s.end > s.start && BlockSize(s.end - s.start)
    ensures Owned(Donated(s))
  {
    var s', k := Donated(s), Class(s.end - s.start);
    var p := Piece(s.start, s.end - s.start);
    forall q | q in s.pieces ensures q.addr != s.start {
      assert PieceOk(s, q);
    }
    assert s.start !in s.live && !Listed(s, k, s.start);
    forall j, a | Listed(s', j, a) ensures Piece(a, ClassBytes(j)) in s'.pieces && a !in s'.live {
      assert Listed(s, j, a) || (j == k && a == s.start);
    }
    assert p in s'.pieces;
    forall q | q in s'.pieces ensures Held(s', q) {
      if q != p { assert Held(s, q); }
    }
  }

  lemma GrownInv(s: State, base: nat, bytes: nat)
    requires Inv(s) && s.start == s.end && Grant(s, base, bytes) && bytes % ALIGN == 0 && bytes > 0
    ensures Inv(Grown(s, base, bytes))
  {
    GrownTiled(s, base, bytes);
    SameOwned(s, Grown(s, base, bytes));
  }

  lemma SameOwned(s: State, s': State)
    requires Owned(s) && s'.lists == s.lists && s'.live == s.live && s'.pieces == s.pieces
    ensures Owned(s')
  {
    forall k, a | Listed(s', k, a) ensures Piece(a, ClassBytes(k)) in s'.pieces && a !in s'.live {
      assert Listed(s, k, a);
    }
    forall p | p in s'.pieces ensures Held(s', p) {
      assert Held(s, p);
    }
  }

  /** `chunkAlloc` calls itself at most once: after the system's grant the remainder is large enough
      for everything asked for. */
  lemma GrownSuffices(s: State, n: nat, objs: nat, base: nat)
    requires Inv(s) && BlockSize(n) && objs > 0 && Grows(s, n) && Grant(s, base, BytesToGet(s, n, objs))
    ensures s.end > s.start ==> BlockSize(s.end - s.start)
    ensures Inv(Supplied(s, n, objs, base)) && BytesLeft(Supplied(s, n, objs, base)) >= n * objs
    ensures !Grows(Supplied(s, n, objs, base), n)
    ensures Supplied(s, n, objs, base).start == base
  {
    if s.end > s.start { DonationIsSmallerClass(s, n); }
    DonatedInv(s);
    EnoughBytes(s, n, objs);
    GrownInv(Donated(s), base, BytesToGet(s, n, objs));
  }

  lemma GrownDelivers(s: State, n: nat, objs: nat, base: nat)
    requires Inv(s) && BlockSize(n) && objs > 0 && Grows(s, n) && Grant(s, base, BytesToGet(s, n, objs))
    ensures s.end > s.start ==> BlockSize(s.end - s.start)
    ensures var s1 := Supplied(s, n, objs, base); !Grows(s1, n) && Delivered(s1, n, objs) == objs
  {
    GrownSuffices(s, n, objs, base);
    FittingIsQuotient(BytesLeft(Supplied(s, n, objs, base)), n, objs);
  }

  lemma EnoughBytes(s: State, n: nat, objs: nat)
    requires n % ALIGN == 0 && n > 0 && objs > 0
    ensures BytesToGet(s, n, objs) >= n * objs >= n && BytesToGet(s, n, objs) % ALIGN == 0
  {
    MultipleOfAlign(n, objs);
    MulMonotone(n, 1, objs);
    DoubleIsMultiple(n * objs, RoundUp(s.heapSize / 16));
  }

  lemma DoubleIsMultiple(total: nat, more: nat)
    requires total % ALIGN == 0 && more % ALIGN == 0
    ensures (2 * total + more) % ALIGN == 0
  {
  }

  lemma AddMultiples(a: nat, b: nat)
    requires a % ALIGN == 0 && b % ALIGN == 0
    ensures (a + b) % ALIGN == 0
  {
  }

  lemma {:induction false} MultipleOfAlign(n: nat, objs: nat)
    requires n % ALIGN == 0
    ensures n * objs % ALIGN == 0
    decreases objs
  {
    if objs > 0 {
      var rest := n * (objs - 1);
      assert n * objs == n + rest;
      MultipleOfAlign(n, objs - 1);
      AddMultiples(n, rest);
    }
  }

  lemma SuppliedEnough(s: State, n: nat, base: nat)
    requires Inv(s) && BlockSize(n) && (Grows(s, n) ==> Grant(s, base, BytesToGet(s, n, OBJS)))
    ensures s.end > s.start && Grows(s, n) ==> BlockSize(s.end - s.start)
    ensures var s1, k := Supplied(s, n, OBJS, base), Delivered(s, n, OBJS);
            Inv(s1) && 1 <= k <= OBJS && n * k <= s1.end - s1.start && s1.live == s.live
    ensures var s1 := Supplied(s, n, OBJS, base); s1.lists[Class(n)] == s.lists[Class(n)]
  {
    if Grows(s, n) {
      GrownSuffices(s, n, OBJS, base);
      if s.end > s.start { DonationIsSmallerClass(s, n); }
    } else {
      FittingIsQuotient(BytesLeft(s), n, OBJS);
    }
  }

  lemma {:induction false} MulMonotone(n: nat, a: nat, b: nat)
    requires a <= b
    ensures n * a <= n * b
    decreases b
  {
    if a < b {
      assert n * b == n * (b - 1) + n;
      MulMonotone(n, a, b - 1);
    }
  }

  // ---------------------------------------------------------------- refill

  lemma RefilledInv(s: State, n: nat, base: nat)
    requires Inv(s) && BlockSize(n) && s.lists[Class(n)] == [] && (Grows(s, n) ==> Grant(s, base, BytesToGet(s, n, OBJS)))
    ensures s.end > s.start && Grows(s, n) ==> BlockSize(s.end - s.start)
    ensures Inv(Refilled(s, n, base))
  {
    SuppliedEnough(s, n, base);
    DividedInv(Supplied(s, n, OBJS, base), n, Delivered(s, n, OBJS));
  }

  lemma DividedInv(s: State, n: nat, k: nat)
    requires Inv(s) && BlockSize(n) && s.lists[Class(n)] == [] && k >= 1 && n * k <= s.end - s.start
    ensures Inv(Divided(s, n, k))
  {
    CarvedTiled(s, n, k);
    TiledLists(Carved(s, n, k), Divided(s, n, k));
    RefilledOwned(s, n, k, Divided(s, n, k));
  }

  lemma RefilledOwned(s: State, n: nat, k: nat, s': State)
    requires Inv(s) && BlockSize(n) && s.lists[Class(n)] == [] && k >= 1 && n * k <= s.end - s.start
    requires s'.pieces == Carved(s, n, k).pieces && s'.live == s.live[s.start := n]
    requires s'.lists == if k <= 1 then s.lists else s.lists[Class(n) := Blocks(s.start + n, n, k - 1)]
    ensures Owned(s')
  {
    var c, rest := Class(n), Blocks(s.start + n, n, k - 1);
    assert Blocks(s.start, n, k) == [s.start] + rest;
    CarvedPieces(s, n, k);
    BlocksNew(s, n, k);
    BlocksDistinct(s.start + n, n, k - 1);
    assert s'.lists == s.lists[c := rest];
    ListsOwned(s, s', n, rest);
  }

  /** Ownership after a refill, given where the new blocks are. */
  lemma ListsOwned(s: State, s': State, n: nat, rest: seq<nat>)
    requires Owned(s) && BlockSize(n) && s.lists[Class(n)] == []
    requires s'.lists == s.lists[Class(n) := rest] && s'.live == s.live[s.start := n]
    requires forall p :: p in s'.pieces <==> p in s.pieces || (p.size == n && (p.addr == s.start || p.addr in rest))
    requires forall p :: p in s.pieces ==> p.addr != s.start && p.addr !in rest
    requires s.start !in rest && forall i, j :: 0 <= i < j < |rest| ==> rest[i] != rest[j]
    ensures Owned(s')
  {
    assert forall a :: a in s.live ==> Piece(a, s.live[a]).addr !in rest;
    forall p | p in s'.pieces ensures Held(s', p) {
      if p in s.pieces {
        assert Held(s, p);
      }
    }
    forall k, a | Listed(s', k, a)
      ensures Piece(a, ClassBytes(k)) in s'.pieces && a !in s'.live {
      if k == Class(n) {
        assert a in rest && ClassBytes(k) == n;
      } else {
        assert Listed(s, k, a);
        assert Piece(a, ClassBytes(k)) in s.pieces;
      }
    }
  }

  // ---------------------------------------------------------------- allocate and deallocate

  function Popped(s: State, n: nat): State
    requires |s.lists| == NUM_FREE_LISTS && BlockSize(n) && s.lists[Class(n)] != []
  {
    s.(lists := s.lists[Class(n) := s.lists[Class(n)][1..]], live := s.live[s.lists[Class(n)][0] := n])
  }

  lemma PoppedInv(s: State, n: nat)
    requires Inv(s) && BlockSize(n) && s.lists[Class(n)] != []
    ensures Inv(Popped(s, n))
  {
    var c := Class(n);
    var l, s' := s.lists[c], Popped(s, n);
    TiledLists(s, s');
    assert Listed(s, c, l[0]) && Piece(l[0], ClassBytes(c)) in s.pieces;
    assert l == [l[0]] + l[1..];
    assert l[0] !in l[1..];
    PoppedHeld(s, n);
    PoppedListed(s, n);
  }

  lemma PoppedHeld(s: State, n: nat)
    requires Inv(s) && BlockSize(n) && s.lists[Class(n)] != [] && Piece(s.lists[Class(n)][0], n) in s.pieces
    ensures forall p :: p in s.pieces ==> Held(Popped(s, n), p)
  {
    var l, s' := s.lists[Class(n)], Popped(s, n);
    assert l == [l[0]] + l[1..];
    forall p | p in s.pieces ensures Held(s', p) {
      assert Held(s, p);
      if p.addr == l[0] { AddressIsUnique(s, p, Piece(l[0], n)); }
    }
  }

  lemma PoppedListed(s: State, n: nat)
    requires Inv(s) && BlockSize(n) && s.lists[Class(n)] != [] && Piece(s.lists[Class(n)][0], n) in s.pieces
    ensures ListsOk(Popped(s, n))
  {
    var l, s' := s.lists[Class(n)], Popped(s, n);
    forall k, a | Listed(s', k, a)
      ensures Piece(a, ClassBytes(k)) in s'.pieces && a !in s'.live {
      assert Listed(s, k, a);
      if a == l[0] {
        AddressIsUnique(s, Piece(a, ClassBytes(k)), Piece(a, n));
      }
    }
  }

  lemma AllocatedInv(s: State, n: nat, base: nat)
    requires Inv(s) && BlockSize(n)
    requires s.lists[Class(n)] == [] && Grows(s, n) ==> Grant(s, base, BytesToGet(s, n, OBJS))
    ensures s.lists[Class(n)] == [] && s.end > s.start && Grows(s, n) ==> BlockSize(s.end - s.start)
    ensures s.lists[Class(n)] == [] ==> Inv(Refilled(s, n, base))
    ensures s.lists[Class(n)] != [] ==> Inv(Popped(s, n))
  {
    if s.lists[Class(n)] == [] { RefilledInv(s, n, base); } else { PoppedInv(s, n); }
  }

  lemma DeallocatedInv(s: State, p: nat)
    requires Inv(s) && p in s.live
    ensures BlockSize(s.live[p]) && Inv(Deallocated(s, p))
  {
    var x := Piece(p, s.live[p]);
    assert Held(s, x);
    TiledLists(s, Deallocated(s, p));
    DeallocatedHeld(s, x);
    DeallocatedListed(s, x);
    assert !Listed(s, Class(x.size), p);
    DeallocatedOwned(s, Deallocated(s, p), p);
  }

  lemma DeallocatedOwned(s: State, s': State, p: nat)
    requires Owned(s) && p in s.live && BlockSize(s.live[p]) && s' == Deallocated(s, p)
    requires ListsOk(s') && p !in s.lists[Class(s.live[p])]
    requires forall q :: q in s.pieces ==> Held(s', q)
    ensures Owned(s')
  {
  }

  lemma DeallocatedHeld(s: State, x: Piece)
    requires Inv(s) && x in s.pieces && x.addr in s.live && s.live[x.addr] == x.size && BlockSize(x.size)
    ensures forall q :: q in s.pieces ==> Held(Deallocated(s, x.addr), q)
  {
    forall q | q in s.pieces ensures Held(Deallocated(s, x.addr), q) {
      assert Held(s, q);
      if q.addr == x.addr { AddressIsUnique(s, q, x); }
    }
  }

  lemma DeallocatedListed(s: State, x: Piece)
    requires Owned(s) && x in s.pieces && x.addr in s.live && s.live[x.addr] == x.size && BlockSize(x.size)
    ensures ListsOk(Deallocated(s, x.addr))
  {
    var s', c := Deallocated(s, x.addr), Class(x.size);
    forall k, a | Listed(s', k, a)
      ensures Piece(a, ClassBytes(k)) in s'.pieces && a !in s'.live {
      if k == c && a == x.addr {
        assert ClassBytes(k) == x.size;
      } else {
        assert Listed(s, k, a);
      }
    }
  }

  // ---------------------------------------------------------------- runs

  datatype Action = Allocate(n: nat, base: nat) | Deallocate(p: nat)

  /** What callers and the system owe: requests of 1 to 256 bytes (larger ones go to the system),
      blocks given back by their holders, and a proper `base` where the system is asked for one. */
  ghost predicate Enabled(s: State, a: Action) {
    match a
    case Allocate(n, base) =>
      1 <= n <= MAX_BYTES &&
      (Misses(s, n) && Grows(s, RoundUp(n)) ==> Grant(s, base, BytesToGet(s, RoundUp(n), OBJS)))
    case Deallocate(p) => p in s.live
  }

  /** The request finds its free list empty. */
  predicate Misses(s: State, n: nat) { n <= MAX_BYTES && FreeListIndex(n) < |s.lists| && s.lists[FreeListIndex(n)] == [] }

  /** The step indexes the table of free lists within its bounds. */
  ghost predicate InBounds(s: State, a: Action) {
    && |s.lists| == NUM_FREE_LISTS
    && match a
       case Allocate(n, _) => Misses(s, n) && Grows(s, RoundUp(n)) && s.end > s.start ==> BlockSize(s.end - s.start)
       case Deallocate(p) => p in s.live ==> BlockSize(s.live[p])
  }

  lemma RoundedIsBlockSize(n: nat)
    requires 1 <= n <= MAX_BYTES
    ensures BlockSize(RoundUp(n)) && Class(RoundUp(n)) == FreeListIndex(n)
  {
  }

  lemma SmallRemainder(s: State, n: nat)
    requires Inv(s) && BlockSize(n)
    ensures Grows(s, n) && s.end > s.start ==> BlockSize(s.end - s.start)
  {
    if Grows(s, n) && s.end > s.start { DonationIsSmallerClass(s, n); }
  }

  /** One call; nothing is assumed of the state but that the table is indexed within its bounds. */
  ghost predicate Step(s: State, a: Action, s': State) {
    && Enabled(s, a) && InBounds(s, a)
    && match a
       case Allocate(n, base) =>
         RoundedIsBlockSize(n);
         s' == Allocated(s, RoundUp(n), base)
       case Deallocate(p) => s' == Deallocated(s, p)
  }

  ghost predicate StepOk(ss: seq<State>, acts: seq<Action>, i: nat)
    requires |ss| == |acts| + 1 && i < |acts|
  {
    Step(ss[i], acts[i], ss[i + 1])
  }

  ghost predicate IsRun(ss: seq<State>, acts: seq<Action>) {
    && |ss| == |acts| + 1 && ss[0] == Init()
    && forall i {:trigger StepOk(ss, acts, i)} :: 0 <= i < |acts| ==> StepOk(ss, acts, i)
  }

  lemma StepInv(s: State, a: Action, s': State)
    requires Inv(s) && Step(s, a, s')
    ensures Inv(s')
  {
    match a
    case Allocate(n, base) =>
      RoundedIsBlockSize(n);
      AllocatedInv(s, RoundUp(n), base);
    case Deallocate(p) => DeallocatedInv(s, p);
  }

  /** After any sequence of allocations and deallocations the blocks and the remainder tile what the
      system granted: aligned, pairwise apart, and together `heapSize_` bytes; and every block is
      handed out, or on exactly one free list. */
  lemma {:induction false} AlwaysTiled(ss: seq<State>, acts: seq<Action>, n: nat)
    requires IsRun(ss, acts) && n <= |acts|
    ensures Tiled(ss[n]) && Owned(ss[n])
  {
    if n == 0 {
      InitInv();
    } else {
      AlwaysTiled(ss, acts, n - 1);
      assert StepOk(ss, acts, n - 1);
      StepInv(ss[n - 1], acts[n - 1], ss[n]);
    }
  }

  ghost predicate Reachable(s: State) { exists ss, acts :: IsRun(ss, acts) && ss[|acts|] == s }

  lemma ReachableInv(s: State)
    requires Reachable(s)
    ensures Inv(s)
  {
    var ss, acts :| IsRun(ss, acts) && ss[|acts|] == s;
    AlwaysTiled(ss, acts, |acts|);
  }

  /** No run gets outside the table: whatever callers ask for next, the step stays within its bounds. */
  lemma AlwaysInBounds(s: State, a: Action)
    requires Reachable(s) && Enabled(s, a)
    ensures InBounds(s, a)
  {
    ReachableInv(s);
    match a
    case Allocate(n, _) =>
      RoundedIsBlockSize(n);
      SmallRemainder(s, RoundUp(n));
    case Deallocate(p) => DeallocatedInv(s, p);
  }

  /** `allocate` never returns a block that is handed out: the block is new to its holder, at least as
      large as asked and less than 8 bytes larger, aligned, and apart from every other block. */
  lemma AllocateReturnsOwnBlock(s: State, n: nat, base: nat, s': State)
    requires Reachable(s) && Step(s, Allocate(n, base), s')
    ensures |s.lists| == NUM_FREE_LISTS && BlockSize(RoundUp(n))
    ensures var p := Result(s, RoundUp(n), base);
            && p !in s.live && p in s'.live && s'.live == s.live[p := s'.live[p]]
            && n <= s'.live[p] < n + ALIGN && p % ALIGN == 0 && p != 0
            && forall q :: q in s.live ==> Apart(Piece(q, s'.live[q]), Piece(p, s'.live[p]))
  {
    ReachableInv(s);
    RoundedIsBlockSize(n);
    var m := RoundUp(n);
    var p := Result(s, m, base);
    StepInv(s, Allocate(n, base), s');
    if s.lists[Class(m)] == [] {
      SuppliedEnough(s, m, base);
      if Grows(s, m) { GrownSuffices(s, m, OBJS, base); }
      assert p == Supplied(s, m, OBJS, base).start;
      FirstIsNew(Supplied(s, m, OBJS, base), m);
    } else {
      assert Listed(s, Class(m), p);
    }
    assert s'.live[p] == m && PieceOk(s', Piece(p, m));
    forall q | q in s.live ensures Apart(Piece(q, s'.live[q]), Piece(p, m)) {
      LiveApart(s', p, q);
    }
  }

  /** A request asks the system for memory if and only if its free list is empty and the remainder is smaller
      than one block, and then for twice 20 blocks and a sixteenth of the heap, rounded up to 8 bytes. */
  lemma GrowsByTwiceAndSixteenth(s: State, n: nat, base: nat, s': State)
    requires Reachable(s) && Step(s, Allocate(n, base), s')
    ensures var bytes := s'.heapSize - s.heapSize;
            if Misses(s, n) && s.end - s.start < RoundUp(n) then
              && s'.regions == s.regions + [Piece(base, bytes)]
              && 40 * RoundUp(n) + s.heapSize / 16 <= bytes < 40 * RoundUp(n) + s.heapSize / 16 + 8
            else s'.regions == s.regions && bytes == 0
  {
    RoundedIsBlockSize(n);
  }

  /** A miss stocks its list: 20 blocks are cut, or as many as fit into a remainder that holds at least one,
      and all but the one handed out join the list; a hit takes one block off its list. */
  lemma MissStocksList(s: State, n: nat, base: nat, s': State)
    requires Reachable(s) && Step(s, Allocate(n, base), s')
    ensures FreeListIndex(n) < |s.lists| == |s'.lists|
    ensures var k, m, left := FreeListIndex(n), RoundUp(n), s.end - s.start;
            |s'.lists[k]| == if !Misses(s, n) then |s.lists[k]| - 1
                             else if left < m || left >= 20 * m then 19
                             else left / m - 1
  {
    RoundedIsBlockSize(n);
    if Misses(s, n) {
      ReachableInv(s);
      RefillStocks(s, RoundUp(n), base);
      BatchSize(s, RoundUp(n));
    }
  }

  lemma RefillStocks(s: State, n: nat, base: nat)
    requires Inv(s) && BlockSize(n) && s.lists[Class(n)] == [] && (Grows(s, n) ==> Grant(s, base, BytesToGet(s, n, OBJS)))
    ensures s.end > s.start && Grows(s, n) ==> BlockSize(s.end - s.start)
    ensures |Refilled(s, n, base).lists| == |s.lists| && |Refilled(s, n, base).lists[Class(n)]| == Delivered(s, n, OBJS) - 1
  {
    SuppliedEnough(s, n, base);
    DividedStocks(Supplied(s, n, OBJS, base), n, Delivered(s, n, OBJS));
  }

  lemma DividedStocks(s: State, n: nat, k: nat)
    requires |s.lists| == NUM_FREE_LISTS && BlockSize(n) && s.lists[Class(n)] == [] && k >= 1
    ensures |Divided(s, n, k).lists| == |s.lists| && |Divided(s, n, k).lists[Class(n)]| == k - 1
  {
  }

  lemma BatchSize(s: State, n: nat)
    requires s.start <= s.end && n > 0
    ensures var left := s.end - s.start;
            Delivered(s, n, OBJS) == if left < n || left >= 20 * n then 20 else left / n
  {
    if !Grows(s, n) { FittingIsQuotient(s.end - s.start, n, OBJS); }
  }

  lemma FirstIsNew(s: State, n: nat)
    requires Inv(s) && BlockSize(n) && n <= s.end - s.start
    ensures s.start !in s.live
  {
    forall p | p in s.pieces ensures p.addr != s.start {
      assert PieceOk(s, p);
    }
  }

  lemma LiveApart(s: State, p: nat, q: nat)
    requires Inv(s) && p in s.live && q in s.live && p != q
    ensures Apart(Piece(q, s.live[q]), Piece(p, s.live[p]))
  {
    var i :| 0 <= i < |s.pieces| && s.pieces[i] == Piece(p, s.live[p]);
    var j :| 0 <= j < |s.pieces| && s.pieces[j] == Piece(q, s.live[q]);
    assert i < j ==> Apart(s.pieces[i], s.pieces[j]);
    assert j < i ==> Apart(s.pieces[j], s.pieces[i]);
  }

  /** The last block of a class given back is the first to be handed out again. */
  lemma FreedIsReused(s: State, p: nat, n: nat, base: nat)
    requires Inv(s) && p in s.live && 1 <= n <= MAX_BYTES && s.live[p] == RoundUp(n)
    ensures BlockSize(RoundUp(n)) && |Deallocated(s, p).lists| == NUM_FREE_LISTS
    ensures Result(Deallocated(s, p), RoundUp(n), base) == p
    ensures Popped(Deallocated(s, p), RoundUp(n)) == s
  {
    RoundedIsBlockSize(n);
    var k := Class(RoundUp(n));
    assert ([p] + s.lists[k])[1..] == s.lists[k];
    assert Popped(Deallocated(s, p), RoundUp(n)).lists == s.lists;
    assert Popped(Deallocated(s, p), RoundUp(n)).live == s.live;
  }
}
