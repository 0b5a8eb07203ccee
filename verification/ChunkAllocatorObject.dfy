/** The allocator object of pool/MemPool.cpp and pool/MemPool.h: the free lists are linked through the
    first word of the free blocks themselves, which their users overwrite while they hold them. */
module ChunkAllocatorObject {
  import opened ChunkAllocator

  /** From `head`, the words in memory lead through exactly the blocks of `list`. */
  ghost predicate Chain(memory: map<nat, nat>, head: nat, list: seq<nat>) {
    head == (if list == [] then 0 else list[0]) && forall i :: 0 <= i < |list| ==> LinkOk(memory, list, i)
  }

  ghost predicate LinkOk(memory: map<nat, nat>, list: seq<nat>, i: nat)
    requires i < |list|
  {
    list[i] != 0 && list[i] in memory && memory[list[i]] == if i + 1 < |list| then list[i + 1] else 0
  }

  ghost predicate Linked(memory: map<nat, nat>, heads: seq<nat>, lists: seq<seq<nat>>) {
    |heads| == NUM_FREE_LISTS == |lists| && forall k :: 0 <= k < NUM_FREE_LISTS ==> Chain(memory, heads[k], lists[k])
  }

  /** Words that are not in a chain may change. */
  lemma ChainKept(memory: map<nat, nat>, memory': map<nat, nat>, head: nat, list: seq<nat>)
    requires Chain(memory, head, list)
    requires forall a :: a in list && a in memory ==> a in memory' && memory'[a] == memory[a]
    ensures Chain(memory', head, list)
  {
    forall i | 0 <= i < |list| ensures LinkOk(memory', list, i) {
      assert LinkOk(memory, list, i);
    }
  }

  lemma LinkedKept(memory: map<nat, nat>, memory': map<nat, nat>, heads: seq<nat>, lists: seq<seq<nat>>)
    requires Linked(memory, heads, lists)
    requires forall k, a: nat :: 0 <= k < NUM_FREE_LISTS && a in lists[k] && a in memory ==> a in memory' && memory'[a] == memory[a]
    ensures Linked(memory', heads, lists)
  {
    forall k | 0 <= k < NUM_FREE_LISTS ensures Chain(memory', heads[k], lists[k]) {
      ChainKept(memory, memory', heads[k], lists[k]);
    }
  }

  lemma ChainPush(memory: map<nat, nat>, head: nat, list: seq<nat>, a: nat)
    requires Chain(memory, head, list) && a != 0 && a !in list
    ensures Chain(memory[a := head], a, [a] + list)
  {
    var l := [a] + list;
    var memory' := memory[a := head];
    forall i | 0 <= i < |l| ensures LinkOk(memory', l, i) {
      if i > 0 { assert LinkOk(memory, list, i - 1); }
    }
  }

  lemma ChainPop(memory: map<nat, nat>, head: nat, list: seq<nat>)
    requires Chain(memory, head, list) && list != []
    ensures head in memory && Chain(memory, memory[head], list[1..])
  {
    var l := list[1..];
    assert LinkOk(memory, list, 0);
    forall i | 0 <= i < |l| ensures LinkOk(memory, l, i) {
      assert LinkOk(memory, list, i + 1);
    }
  }

  /** Consecutive blocks are `n` bytes apart. */
  lemma {:induction false} BlocksAt(start: nat, n: nat, k: nat)
    requires k > 0
    ensures Blocks(start, n, k)[0] == start
    ensures forall i :: 0 <= i < k - 1 ==> Blocks(start, n, k)[i + 1] == Blocks(start, n, k)[i] + n
    decreases k
  {
    if k > 1 {
      BlocksAt(start + n, n, k - 1);
    }
  }

  /** A free block's address lies in no block that is handed out. */
  lemma FreeOutsideLive(s: State, k: nat, a: nat, p: nat, off: nat)
    requires Inv(s) && Listed(s, k, a) && p in s.live && off < s.live[p]
    ensures a != p + off
  {
    var x, y := Piece(a, ClassBytes(k)), Piece(p, s.live[p]);
    var i :| 0 <= i < |s.pieces| && s.pieces[i] == x;
    var j :| 0 <= j < |s.pieces| && s.pieces[j] == y;
    assert PieceOk(s, x);
    assert i < j ==> Apart(s.pieces[i], s.pieces[j]);
    assert j < i ==> Apart(s.pieces[j], s.pieces[i]);
  }

  ghost predicate Unlisted(s: State, a: nat) { forall k: nat :: !Listed(s, k, a) }

  /** The remainder is outside every free list. */
  lemma RemainderUnlisted(s: State)
    requires Inv(s)
    ensures s.start < s.end ==> Unlisted(s, s.start)
  {
    forall k: nat | s.start < s.end ensures !Listed(s, k, s.start) {
      assert Listed(s, k, s.start) ==> PieceOk(s, Piece(s.start, ClassBytes(k)));
    }
  }

  /** The block `p` is handed out for a request of a size class. */
  ghost predicate Handed(s: State, n: nat, base: nat, p: nat, s': State) {
    Step(s, Action.Allocate(n, base), s') && |s.lists| == NUM_FREE_LISTS && BlockSize(RoundUp(n)) && p == Result(s, RoundUp(n), base)
  }

  lemma RefillReady(s: State, n: nat, base: nat)
    requires Inv(s) && BlockSize(n) && s.lists[Class(n)] == [] && (Grows(s, n) ==> Grant(s, base, BytesToGet(s, n, OBJS)))
    ensures Grows(s, n) && s.end > s.start ==> BlockSize(s.end - s.start)
    ensures Result(s, n, base) == Supplied(s, n, OBJS, base).start > 0
    ensures Delivered(s, n, OBJS) > 0
    ensures ListsAvoid(Supplied(s, n, OBJS, base).lists, Blocks(Supplied(s, n, OBJS, base).start + n, n, Delivered(s, n, OBJS) - 1))
  {
    SuppliedEnough(s, n, base);
    if Grows(s, n) { GrownSuffices(s, n, OBJS, base); }
    ListsOutside(Supplied(s, n, OBJS, base), n, Delivered(s, n, OBJS));
  }

  /** None of the blocks is on a free list. */
  ghost predicate ListsAvoid(lists: seq<seq<nat>>, blocks: seq<nat>) {
    forall k, a: nat :: 0 <= k < |lists| && a in lists[k] ==> a !in blocks
  }

  lemma AllocateReady(s: State, n: nat, base: nat)
    requires Inv(s) && Enabled(s, Action.Allocate(n, base))
    ensures |s.lists| == NUM_FREE_LISTS && BlockSize(RoundUp(n)) && Class(RoundUp(n)) == FreeListIndex(n)
    ensures InBounds(s, Action.Allocate(n, base)) && Inv(Allocated(s, RoundUp(n), base))
  {
    RoundedIsBlockSize(n);
    SmallRemainder(s, RoundUp(n));
    AllocatedInv(s, RoundUp(n), base);
  }

  class MemPool {
    const freeList: array<nat>
    var memory: map<nat, nat>
    var startFree: nat
    var endFree: nat
    var heapSize: nat
    var totalAllocated: nat
    var totalFreed: nat
    ghost var lists: seq<seq<nat>>
    ghost var pieces: seq<Piece>
    ghost var live: map<nat, nat>
    ghost var regions: seq<Piece>

    ghost function View(): State
      reads this
    {
      State(lists, pieces, live, startFree, endFree, heapSize, regions)
    }

    ghost predicate Valid()
      reads this, freeList
    {
      Inv(View()) && Linked(memory, freeList[..], lists)
    }

    /** If more memory is needed, the remainder can be donated. */
    ghost predicate CanSupply(n: nat)
      reads this
    {
      |lists| == NUM_FREE_LISTS && (endFree - startFree < n && endFree > startFree ==> BlockSize(endFree - startFree))
    }

    /** Lines 9-18. */
    constructor ()
      ensures Valid() && View() == Init() && totalAllocated == 0 == totalFreed && fresh(freeList)
    {
      freeList := new nat[NUM_FREE_LISTS](_ => 0);
      memory, startFree, endFree, heapSize, totalAllocated, totalFreed := map[], 0, 0, 0, 0, 0;
      lists, pieces, live, regions := Init().lists, [], map[], [];
      new;
      InitInv();
    }

    /** Lines 45-76. The chunk is not divided into blocks yet. */
    method ChunkAlloc(size: nat, objs: nat, base: nat) returns (result: nat, nobjs: nat)
      requires Valid() && BlockSize(size) && objs > 0
      requires Grows(View(), size) ==> Grant(View(), base, BytesToGet(View(), size, objs))
      modifies this`memory, this`startFree, this`endFree, this`heapSize, this`lists, this`pieces, this`regions, freeList
      ensures old(CanSupply(size)) && nobjs == Delivered(old(View()), size, objs)
      ensures var s := Supplied(old(View()), size, objs, base);
              result == s.start && View() == s.(start := s.start + size * nobjs)
      ensures Linked(memory, freeList[..], lists)
      decreases endFree - startFree < size
    {
      SmallRemainder(View(), size);
      var totalBytes := size * objs;
      var bytesLeft := endFree - startFree;
      nobjs := objs;
      FittingIsQuotient(bytesLeft, size, objs);
      if bytesLeft >= totalBytes {
        MulMonotone(size, 1, objs);
        result := startFree;
        startFree := startFree + totalBytes;
        return;
      }
      if bytesLeft >= size {
        nobjs := bytesLeft / size;
        totalBytes := size * nobjs;
        result := startFree;
        startFree := startFree + totalBytes;
        return;
      }
      GrownSuffices(View(), size, objs, base);
      GrownDelivers(View(), size, objs, base);
      RemainderUnlisted(View());
      Grow(size, objs, base);
      result, nobjs := ChunkAlloc(size, objs, base);
    }

    /** Lines 63-73. */
    method Grow(size: nat, objs: nat, base: nat)
      requires Linked(memory, freeList[..], lists) && startFree <= endFree && Grows(View(), size)
      requires endFree > startFree ==> BlockSize(endFree - startFree) && startFree > 0 && Unlisted(View(), startFree)
      modifies this`memory, this`startFree, this`endFree, this`heapSize, this`lists, this`pieces, this`regions, freeList
      ensures Linked(memory, freeList[..], lists) && Grows(old(View()), size)
      ensures old(endFree) > old(startFree) ==> BlockSize(old(endFree) - old(startFree)) && |old(lists)| == NUM_FREE_LISTS
      ensures View() == Supplied(old(View()), size, objs, base)
    {
      var bytesToGet := 2 * (size * objs) + RoundUp(heapSize / 16);
      var bytesLeft := endFree - startFree;
      if bytesLeft > 0 {
        Donate(bytesLeft);
      }
      startFree := base;
      heapSize := heapSize + bytesToGet;
      endFree := startFree + bytesToGet;
      regions := regions + [Piece(base, bytesToGet)];
    }

    /** Lines 64-69; the victim counts as carved. */
    method Donate(bytesLeft: nat)
      requires Linked(memory, freeList[..], lists) && 0 < bytesLeft == endFree - startFree && BlockSize(bytesLeft)
      requires startFree > 0 && Unlisted(View(), startFree)
      modifies this`memory, this`lists, this`pieces, this`startFree, freeList
      ensures View() == Donated(old(View())) && Linked(memory, freeList[..], lists)
    {
      var idx := FreeListIndex(bytesLeft);
      assert idx == Class(bytesLeft);
      LinkedPush(View(), memory, freeList[..], idx, startFree);
      memory := memory[startFree := freeList[idx]];
      freeList[idx] := startFree;
      lists := lists[idx := [startFree] + lists[idx]];
      pieces := pieces + [Piece(startFree, bytesLeft)];
      startFree := startFree + bytesLeft;
    }

    /** Lines 25-43, called on an empty list. */
    method Refill(n: nat, base: nat) returns (result: nat)
      requires Valid() && BlockSize(n) && lists[Class(n)] == []
      requires Grows(View(), n) ==> Grant(View(), base, BytesToGet(View(), n, OBJS))
      modifies this`memory, this`startFree, this`endFree, this`heapSize, this`lists, this`pieces, this`regions, this`live, freeList
      ensures old(CanSupply(n)) && Linked(memory, freeList[..], lists) && View() == Refilled(old(View()), n, base)
      ensures result == Result(old(View()), n, base)
    {
      ghost var s := View();
      RefillReady(s, n, base);
      ghost var s1 := Supplied(s, n, OBJS, base);
      var chunk, nobjs := ChunkAlloc(n, OBJS, base);
      Divide(chunk, n, nobjs, s1);
      result := chunk;
    }

    /** Lines 28-41. */
    method Divide(chunk: nat, n: nat, nobjs: nat, ghost s1: State)
      requires Linked(memory, freeList[..], lists) && BlockSize(n) && nobjs > 0 && chunk == s1.start
      requires View() == s1.(start := s1.start + n * nobjs)
      requires ListsAvoid(lists, Blocks(chunk + n, n, nobjs - 1))
      modifies this`memory, this`lists, this`pieces, this`live, freeList
      ensures |s1.lists| == NUM_FREE_LISTS && View() == Divided(s1, n, nobjs) && Linked(memory, freeList[..], lists)
    {
      CarvedStart(s1, n, nobjs);
      if nobjs != 1 {
        Link(chunk + n, n, nobjs - 1);
      }
      pieces, live := Carved(s1, n, nobjs).pieces, live[chunk := n];
    }

    /** Lines 33-41: the blocks after the first become the free list. */
    method Link(first: nat, n: nat, count: nat)
      requires BlockSize(n) && count > 0 && first > 0 && Linked(memory, freeList[..], lists)
      requires ListsAvoid(lists, Blocks(first, n, count))
      modifies this`memory, this`lists, freeList
      ensures |old(lists)| == NUM_FREE_LISTS && lists == old(lists)[Class(n) := Blocks(first, n, count)]
      ensures Linked(memory, freeList[..], lists)
    {
      ghost var mem, heads := memory, freeList[..];
      var idx := FreeListIndex(n);
      assert idx == Class(n);
      freeList[idx] := first;
      Thread(first, n, count);
      LinkedKept(mem, memory, heads, lists);
      lists := lists[idx := Blocks(first, n, count)];
      assert freeList[..] == heads[idx := first];
    }

    /** Lines 37-41: each block's first word leads to the next, the last one's to none. */
    method Thread(first: nat, n: nat, count: nat)
      requires n > 0 && count > 0 && first > 0
      modifies this`memory
      ensures Chain(memory, first, Blocks(first, n, count))
      ensures forall a :: a in old(memory) && a !in Blocks(first, n, count) ==> a in memory && memory[a] == old(memory)[a]
    {
      ghost var mem, rest := memory, Blocks(first, n, count);
      BlocksAt(first, n, count);
      BlocksDistinct(first, n, count);
      var current := first;
      for i := 0 to count - 1
        invariant current == rest[i]
        invariant forall j :: 0 <= j < i ==> rest[j] in memory && memory[rest[j]] == rest[j + 1]
        invariant forall a :: a in mem && a !in rest ==> a in memory && memory[a] == mem[a]
      {
        memory := memory[current := current + n];
        current := current + n;
      }
      memory := memory[current := 0];
      forall j | 0 <= j < count ensures LinkOk(memory, rest, j) {
        assert j + 1 < count ==> rest[j] != rest[count - 1];
      }
    }

    /** pool/MemPool.h lines 62-75; `system` answers requests beyond 256 bytes. */
    method Allocate(n: nat, base: nat, system: nat) returns (p: nat)
      requires Valid() && n >= 1 && (n <= MAX_BYTES ==> Enabled(View(), Action.Allocate(n, base)))
      modifies this, freeList
      ensures Valid()
      ensures n > MAX_BYTES ==> p == system && View() == old(View())
      ensures n <= MAX_BYTES ==> Handed(old(View()), n, base, p, View())
      ensures totalFreed == old(totalFreed)
      ensures totalAllocated == old(totalAllocated) + if Misses(old(View()), n) then 0 else n
    {
      if n > MAX_BYTES {
        totalAllocated := totalAllocated + n;
        return system;
      }
      p := AllocateSmall(n, base);
    }

    /** pool/MemPool.h lines 67-74. */
    method AllocateSmall(n: nat, base: nat) returns (p: nat)
      requires Valid() && Enabled(View(), Action.Allocate(n, base))
      modifies this, freeList
      ensures Valid() && Handed(old(View()), n, base, p, View())
      ensures totalFreed == old(totalFreed)
      ensures totalAllocated == old(totalAllocated) + if Misses(old(View()), n) then 0 else n
    {
      AllocateReady(View(), n, base);
      var idx := FreeListIndex(n);
      p := freeList[idx];
      assert Chain(memory, p, lists[idx]);
      assert lists[idx] != [] ==> LinkOk(memory, lists[idx], 0);
      if p == 0 {
        p := Refill(RoundUp(n), base);
        return;
      }
      Pop(idx, n);
      totalAllocated := totalAllocated + n;
    }

    /** pool/MemPool.h line 72. */
    method Pop(idx: nat, n: nat)
      requires Linked(memory, freeList[..], lists) && idx < NUM_FREE_LISTS && lists[idx] != [] && BlockSize(RoundUp(n)) && idx == Class(RoundUp(n))
      modifies this`live, this`lists, freeList
      ensures |old(lists)| == NUM_FREE_LISTS && View() == Popped(old(View()), RoundUp(n)) && Linked(memory, freeList[..], lists)
    {
      LinkedPop(memory, freeList[..], lists, idx);
      assert Chain(memory, freeList[idx], lists[idx]);
      live := live[freeList[idx] := RoundUp(n)];
      freeList[idx] := memory[freeList[idx]];
      lists := lists[idx := lists[idx][1..]];
    }

    /** pool/MemPool.h lines 77-88, for a block of the pool. */
    method Deallocate(p: nat, n: nat)
      requires Valid() && 1 <= n <= MAX_BYTES && p in live && live[p] == RoundUp(n)
      modifies this, freeList
      ensures Valid() && Step(old(View()), Action.Deallocate(p), View())
      ensures totalFreed == old(totalFreed) + n && totalAllocated == old(totalAllocated)
    {
      ghost var s := View();
      DeallocatedInv(s, p);
      RoundedIsBlockSize(n);
      totalFreed := totalFreed + n;
      var idx := FreeListIndex(n);
      assert PieceOk(s, Piece(p, live[p])) && Unlisted(s, p);
      LinkedPush(s, memory, freeList[..], idx, p);
      memory := memory[p := freeList[idx]];
      freeList[idx] := p;
      lists := lists[idx := [p] + lists[idx]];
      live := live - {p};
    }

    /** A user writes a word into a block it holds; no free list notices. */
    method UserWrite(p: nat, off: nat, word: nat)
      requires Valid() && p in live && off < live[p]
      modifies this`memory
      ensures Valid() && View() == old(View()) && memory == old(memory)[p + off := word]
    {
      forall k, a | Listed(View(), k, a) ensures a != p + off {
        FreeOutsideLive(View(), k, a, p, off);
      }
      assert forall k, a: nat :: 0 <= k < NUM_FREE_LISTS && a in lists[k] ==> Listed(View(), k, a);
      LinkedKept(memory, memory[p + off := word], freeList[..], lists);
      memory := memory[p + off := word];
    }
  }

  /** Linking a block that is in no list to the front of one. */
  lemma LinkedPush(s: State, memory: map<nat, nat>, heads: seq<nat>, k: nat, a: nat)
    requires Linked(memory, heads, s.lists) && k < NUM_FREE_LISTS && a != 0 && Unlisted(s, a)
    ensures Linked(memory[a := heads[k]], heads[k := a], s.lists[k := [a] + s.lists[k]])
  {
    var memory', heads', lists' := memory[a := heads[k]], heads[k := a], s.lists[k := [a] + s.lists[k]];
    forall j | 0 <= j < NUM_FREE_LISTS ensures Chain(memory', heads'[j], lists'[j]) {
      assert !Listed(s, j, a);
      if j == k { ChainPush(memory, heads[k], s.lists[k], a); } else { ChainKept(memory, memory', heads[j], s.lists[j]); }
    }
  }

  lemma LinkedPop(memory: map<nat, nat>, heads: seq<nat>, lists: seq<seq<nat>>, k: nat)
    requires Linked(memory, heads, lists) && k < NUM_FREE_LISTS && lists[k] != []
    ensures heads[k] in memory && Linked(memory, heads[k := memory[heads[k]]], lists[k := lists[k][1..]])
  {
    ChainPop(memory, heads[k], lists[k]);
  }

  lemma ListsOutside(s: State, n: nat, k: nat)
    requires Inv(s) && BlockSize(n) && n * k <= s.end - s.start
    ensures k > 0 ==> ListsAvoid(s.lists, Blocks(s.start + n, n, k - 1))
  {
    if k > 0 {
      BlocksNew(s, n, k);
      assert Blocks(s.start, n, k) == [s.start] + Blocks(s.start + n, n, k - 1);
      forall j, a: nat | 0 <= j < NUM_FREE_LISTS && a in s.lists[j] ensures a !in Blocks(s.start + n, n, k - 1) {
        assert Listed(s, j, a);
        assert Piece(a, ClassBytes(j)) in s.pieces;
      }
    }
  }
}
