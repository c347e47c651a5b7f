/** The slab pool of include/memory_pool.h on values: blocks are numbered in the order in which the slabs are made. */
module PoolSpec {

  datatype Pool = Pool(slabSize: nat, slabs: nat, free: seq<nat>, live: set<nat>) {
    function Capacity(): nat {
      slabs * slabSize
    }
  }

  /** `n` numbers downwards from `top - 1`: the order in which a new slab's blocks are linked in front of the list. */
  function Downwards(top: nat, n: nat): (s: seq<nat>)
    requires n <= top
    ensures |s| == n
  {
    seq(n, i requires 0 <= i < n => top - 1 - i)
  }

  function Grow(p: Pool): Pool {
    p.(slabs := p.slabs + 1, free := Downwards(p.Capacity() + p.slabSize, p.slabSize) + p.free)
  }

  function NewPool(slabSize: nat): Pool {
    Grow(Pool(slabSize, 0, [], {}))
  }

  /** A pool of empty slabs has nothing to hand out: the source follows a null pointer there. */
  predicate CanStock(p: Pool) {
    p.free == [] ==> 0 < p.slabSize
  }

  /** The pool the next block is taken from: grown first if nothing is free. */
  function Stocked(p: Pool): (q: Pool)
    requires CanStock(p)
    ensures q.free != []
  {
    if p.free == [] then Grow(p) else p
  }

  function Next(p: Pool): nat
    requires CanStock(p)
  {
    Stocked(p).free[0]
  }

  function Allocate(p: Pool): Pool
    requires CanStock(p)
  {
    Stocked(p).(free := Stocked(p).free[1..], live := p.live + {Next(p)})
  }

  function Deallocate(p: Pool, block: nat): Pool {
    p.(free := [block] + p.free, live := p.live - {block})
  }

  // ----- runs -----

  datatype Op = Alloc | Free(block: nat)

  /** A caller may free only a block it holds. */
  predicate Allowed(p: Pool, op: Op) {
    op.Free? ==> op.block in p.live
  }

  function Step(p: Pool, op: Op): (q: Pool)
    requires 0 < p.slabSize
    ensures q.slabSize == p.slabSize
  {
    match op
    case Alloc => Allocate(p)
    case Free(block) => Deallocate(p, block)
  }

  predicate AllAllowed(p: Pool, ops: seq<Op>)
    requires 0 < p.slabSize
    decreases |ops|
  {
    ops != [] ==> Allowed(p, ops[0]) && AllAllowed(Step(p, ops[0]), ops[1..])
  }

  function Run(p: Pool, ops: seq<Op>): (q: Pool)
    requires 0 < p.slabSize
    ensures q.slabSize == p.slabSize
    decreases |ops|
  {
    if ops == [] then p else Run(Step(p, ops[0]), ops[1..])
  }

  function Max(a: nat, b: nat): nat {
    if a < b then b else a
  }

  /** The largest number of blocks in use at any moment of a run. */
  function Peak(p: Pool, ops: seq<Op>): nat
    requires 0 < p.slabSize
    decreases |ops|
  {
    if ops == [] then |p.live| else Max(|p.live|, Peak(Step(p, ops[0]), ops[1..]))
  }

  // ----- the invariant -----

  /** The numbers of the first `n` blocks. */
  function Numbers(n: nat): set<nat> {
    Ids(Downwards(n, n))
  }

  function Ids(s: seq<nat>): set<nat> {
    set k | k in s
  }

  predicate Distinct(s: seq<nat>) {
    forall i, j | 0 <= i < j < |s| :: s[i] != s[j]
  }

  /** Free and live blocks partition the blocks of all slabs, and no block is on the free list twice. */
  predicate Tiled(p: Pool) {
    && Distinct(p.free) && Ids(p.free) !! p.live
    && Ids(p.free) + p.live == Numbers(p.Capacity())
  }

  /** The same, once the pool has its first slab. */
  predicate Partitioned(p: Pool) {
    Tiled(p) && 0 < p.slabs
  }

  lemma InNumbers(n: nat)
    ensures forall k: nat :: k in Numbers(n) <==> k < n
    ensures Distinct(Downwards(n, n))
  {
    var d := Downwards(n, n);
    forall k: nat | k < n ensures k in d { assert d[n - 1 - k] == k; }
    assert forall k | k in d :: k < n;
  }

  lemma NumbersGrow(m: nat, n: nat)
    ensures Ids(Downwards(m + n, n)) !! Numbers(m) && Ids(Downwards(m + n, n)) + Numbers(m) == Numbers(m + n)
    ensures Distinct(Downwards(m + n, n))
  {
    hide Numbers;
    var d := Downwards(m + n, n);
    InNumbers(m);
    InNumbers(m + n);
    forall k | m <= k < m + n ensures k in d { assert d[m + n - 1 - k] == k; }
  }

  lemma DistinctConcat(a: seq<nat>, b: seq<nat>)
    requires Distinct(a) && Distinct(b) && Ids(a) !! Ids(b)
    ensures Distinct(a + b) && Ids(a + b) == Ids(a) + Ids(b)
  {
    forall i, j | 0 <= i < j < |a + b| ensures (a + b)[i] != (a + b)[j] {
      if i < |a| <= j { assert a[i] in Ids(a) && b[j - |a|] in Ids(b); }
    }
  }

  lemma GrowPartitioned(p: Pool)
    requires Tiled(p)
    ensures Partitioned(Grow(p))
  {
    hide Distinct, Numbers, Ids;
    var d := Downwards(p.Capacity() + p.slabSize, p.slabSize);
    NumbersGrow(p.Capacity(), p.slabSize);
    DistinctConcat(d, p.free);
    assert Grow(p).Capacity() == p.Capacity() + p.slabSize;
  }

  lemma NewPoolPartitioned(slabSize: nat)
    ensures Partitioned(NewPool(slabSize)) && NewPool(slabSize).slabSize == slabSize
    ensures NewPool(slabSize).slabs == 1 && NewPool(slabSize).live == {}
  {
    var p := Pool(slabSize, 0, [], {});
    assert p.Capacity() == 0;
    GrowPartitioned(p);
  }

  lemma DistinctTail(s: seq<nat>)
    requires Distinct(s) && s != []
    ensures Distinct(s[1..]) && s[0] !in Ids(s[1..]) && Ids(s) == {s[0]} + Ids(s[1..])
  {
    assert forall i | 0 <= i < |s[1..]| :: s[1..][i] == s[i + 1];
  }

  lemma IdsOfFew(block: nat)
    ensures Ids([]) == {} && Ids([block]) == {block} && Distinct([block])
  {
  }

  lemma StockedPartitioned(p: Pool)
    requires Partitioned(p) && CanStock(p)
    ensures Partitioned(Stocked(p)) && Stocked(p).live == p.live
  {
    hide Distinct, Numbers, Ids;
    if p.free == [] { GrowPartitioned(p); }
  }

  /** A returned block was not in use. */
  lemma AllocateOk(p: Pool)
    requires Partitioned(p) && CanStock(p)
    ensures Partitioned(Allocate(p)) && Next(p) !in p.live && |Allocate(p).live| == |p.live| + 1
  {
    hide Distinct, Numbers, Ids, Stocked;
    StockedPartitioned(p);
    DistinctTail(Stocked(p).free);
    assert Allocate(p).Capacity() == Stocked(p).Capacity();
  }

  lemma DeallocateOk(p: Pool, block: nat)
    requires Partitioned(p) && block in p.live
    ensures Partitioned(Deallocate(p, block)) && |Deallocate(p, block).live| == |p.live| - 1
  {
    hide Distinct, Numbers, Ids;
    IdsOfFew(block);
    DistinctConcat([block], p.free);
    assert Deallocate(p, block).Capacity() == p.Capacity();
  }

  lemma CountPartition(p: Pool)
    requires Partitioned(p)
    ensures |p.free| + |p.live| == p.Capacity()
  {
    IdsCount(p.free);
    InNumbers(p.Capacity());
    IdsCount(Downwards(p.Capacity(), p.Capacity()));
    assert |Ids(p.free) + p.live| == |Ids(p.free)| + |p.live|;
  }

  lemma {:induction false} IdsCount(s: seq<nat>)
    requires Distinct(s)
    ensures |Ids(s)| == |s|
  {
    if s == [] {
      assert Ids(s) == {};
    } else {
      var t := s[1..];
      assert forall i | 0 <= i < |t| :: t[i] == s[i + 1];
      IdsCount(t);
      assert s[0] !in Ids(t) && Ids(s) == {s[0]} + Ids(t);
    }
  }

  // ----- the main results -----

  /** The number of slabs a pool needs for `peak` blocks in use; it starts with one. */
  function SlabsFor(peak: nat, slabSize: nat): nat
    requires 0 < slabSize
  {
    Max(1, (peak + slabSize - 1) / slabSize)
  }

  lemma SlabsForIs(peak: nat, slabSize: nat, slabs: nat)
    requires 0 < slabSize && 0 < slabs && peak <= slabs * slabSize
    requires slabs == 1 || (slabs - 1) * slabSize < peak
    ensures SlabsFor(peak, slabSize) == slabs
  {
    var top, m := peak + slabSize - 1, (slabs - 1) * slabSize;
    assert slabs * slabSize == m + slabSize && (slabs + 1) * slabSize == m + 2 * slabSize;
    if slabs > 1 {
      QuotientIs(top, slabSize, slabs);
    } else {
      QuotientIs(top, slabSize, if peak == 0 then 0 else 1);
    }
  }

  lemma QuotientIs(n: nat, d: nat, q: nat)
    requires 0 < d && q * d <= n < (q + 1) * d
    ensures n / d == q
  {
    var k := n / d;
    assert k * d <= n < (k + 1) * d;
    ProductOrder(k + 1, q, d);
    ProductOrder(q + 1, k, d);
  }

  lemma ProductOrder(a: nat, b: nat, d: nat)
    ensures a <= b ==> a * d <= b * d
  {
  }

  /** No slab was made before the blocks in use needed it. */
  predicate Needed(p: Pool, peak: nat) {
    |p.live| <= peak <= p.Capacity() && (p.slabs == 1 || (p.slabs - 1) * p.slabSize < peak)
  }

  lemma AllocateNeeded(p: Pool, peak: nat)
    requires Partitioned(p) && CanStock(p) && Needed(p, peak)
    ensures Needed(Allocate(p), Max(peak, |p.live| + 1))
  {
    hide Distinct, Numbers, Ids, Grow;
    CountPartition(p);
    AllocateOk(p);
    if p.free == [] {
      GrowCapacity(p);
      assert Allocate(p).Capacity() == Grow(p).Capacity() && Allocate(p).slabs == p.slabs + 1;
      assert 0 < p.slabSize;
    } else {
      assert Allocate(p).Capacity() == p.Capacity();
    }
  }

  lemma GrowCapacity(p: Pool)
    ensures Grow(p).Capacity() == p.Capacity() + p.slabSize && Grow(p).slabs == p.slabs + 1
    ensures Grow(p).live == p.live && Grow(p).slabSize == p.slabSize
  {
  }

  lemma StepNeeded(p: Pool, op: Op, peak: nat)
    requires Partitioned(p) && 0 < p.slabSize && Allowed(p, op) && Needed(p, peak)
    ensures Partitioned(Step(p, op)) && Needed(Step(p, op), Max(peak, |Step(p, op).live|))
  {
    hide Distinct, Numbers, Ids, Allocate;
    match op
    case Alloc =>
      AllocateOk(p);
      AllocateNeeded(p, peak);
    case Free(block) =>
      DeallocateOk(p, block);
      assert Deallocate(p, block).Capacity() == p.Capacity();
  }

  lemma {:induction false} RunNeeded(p: Pool, ops: seq<Op>, peak: nat)
    requires Partitioned(p) && 0 < p.slabSize && AllAllowed(p, ops) && Needed(p, peak)
    ensures Partitioned(Run(p, ops)) && Needed(Run(p, ops), Max(peak, Peak(p, ops)))
    decreases |ops|
  {
    hide Distinct, Numbers, Ids, Step;
    if ops != [] {
      StepNeeded(p, ops[0], peak);
      RunNeeded(Step(p, ops[0]), ops[1..], Max(peak, |Step(p, ops[0]).live|));
      PeakFrom(Step(p, ops[0]), ops[1..]);
    }
  }

  lemma {:induction false} PeakFrom(p: Pool, ops: seq<Op>)
    requires 0 < p.slabSize
    ensures |p.live| <= Peak(p, ops)
  {
  }

  /** After any run, free and live blocks partition the slabs and the capacity is exactly what the peak required. */
  lemma {:induction false} PoolRun(slabSize: nat, ops: seq<Op>)
    requires 0 < slabSize && AllAllowed(NewPool(slabSize), ops)
    ensures var p := Run(NewPool(slabSize), ops);
      && Partitioned(p) && |p.free| + |p.live| == p.Capacity()
      && p.Capacity() == slabSize * SlabsFor(Peak(NewPool(slabSize), ops), slabSize)
  {
    hide Distinct, Numbers, Ids, NewPool, Run, Peak, SlabsFor, AllAllowed;
    var p0 := NewPool(slabSize);
    NewPoolPartitioned(slabSize);
    assert Needed(p0, 0);
    RunNeeded(p0, ops, 0);
    var p, peak := Run(p0, ops), Peak(p0, ops);
    CountPartition(p);
    assert Max(0, peak) == peak && Needed(p, peak);
    SlabsForIs(peak, slabSize, p.slabs);
  }

  /** Reuse is last in, first out: allocating right after a free gives the freed block and undoes the free. */
  lemma FreeThenAllocate(p: Pool, block: nat)
    requires Partitioned(p) && block in p.live
    ensures var q := Deallocate(p, block); Next(q) == block && Allocate(q) == p
  {
    assert ([block] + p.free)[1..] == p.free;
    assert (p.live - {block}) + {block} == p.live;
  }

  /** The other way round, a free undoes an allocation up to the slab it may have made. */
  lemma AllocateThenFree(p: Pool)
    requires Partitioned(p) && CanStock(p)
    ensures Deallocate(Allocate(p), Next(p)) == Stocked(p)
  {
    hide Distinct, Numbers, Ids;
    var q := Stocked(p);
    AllocateOk(p);
    StockedPartitioned(p);
    assert [q.free[0]] + q.free[1..] == q.free;
    assert (p.live + {Next(p)}) - {Next(p)} == p.live;
  }

  /** Blocks freed one after the other go on the list in reverse order. */
  lemma {:induction false} FreedComeBack(p: Pool, blocks: seq<nat>)
    requires Partitioned(p) && Distinct(blocks) && Ids(blocks) <= p.live
    ensures var q := FreeAll(p, blocks);
            Partitioned(q) && q.free == Reversed(blocks) + p.free && q.live == p.live - Ids(blocks)
    decreases |blocks|
  {
    hide Partitioned, Distinct, Ids;
    IdsOfFew(0);
    if blocks != [] {
      var rest, q := blocks[1..], Deallocate(p, blocks[0]);
      DistinctTail(blocks);
      DeallocateOk(p, blocks[0]);
      FreedComeBack(q, rest);
      assert (Reversed(rest) + [blocks[0]]) + p.free == Reversed(rest) + q.free;
    }
  }

  function FreeAll(p: Pool, blocks: seq<nat>): Pool
    decreases |blocks|
  {
    if blocks == [] then p else FreeAll(Deallocate(p, blocks[0]), blocks[1..])
  }

  function Reversed(s: seq<nat>): seq<nat> {
    if s == [] then [] else Reversed(s[1..]) + [s[0]]
  }

  function Allocs(n: nat): (ops: seq<Op>)
    ensures |ops| == n
  {
    seq(n, i => Alloc)
  }

  /** Blocks come off the list from the front. */
  lemma {:induction false} AllocsLeave(p: Pool, n: nat)
    requires n <= |p.free| && 0 < p.slabSize
    ensures Run(p, Allocs(n)).free == p.free[n..]
    decreases n
  {
    if n > 0 {
      assert Allocs(n)[1..] == Allocs(n - 1);
      AllocsLeave(Allocate(p), n - 1);
      assert p.free[1..][n - 1..] == p.free[n..];
    }
  }

  /** A new pool hands out the blocks of its slab from the last one to the first. */
  lemma {:induction false} FirstBlocks(slabSize: nat, n: nat)
    requires n < slabSize
    ensures var p := Run(NewPool(slabSize), Allocs(n)); p.free != [] && Next(p) == slabSize - 1 - n
  {
    hide Run;
    var p0 := NewPool(slabSize);
    assert p0.free == Downwards(slabSize, slabSize);
    AllocsLeave(p0, n);
    assert p0.free[n..][0] == p0.free[n];
  }
}
