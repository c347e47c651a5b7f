/** The MemoryPool class of include/memory_pool.h: an intrusive free list threaded through the blocks of its slabs. */
module MemoryPool {
  import opened PoolSpec

  class Block {
    /** The number of the block, in the order in which blocks are made: its address. */
    ghost const id: nat
    var next: Block?

    constructor (ghost id: nat)
      ensures this.id == id && next == null
    {
      this.id, next := id, null;
    }
  }

  /** `head` starts a list through the `next` fields that visits exactly `s` and ends. */
  ghost predicate Linked(head: Block?, s: seq<Block>)
    reads s
  {
    if s == [] then head == null else head == s[0] && Linked(s[0].next, s[1..])
  }

  ghost function IdsOf(s: seq<Block>): (r: seq<nat>)
    ensures |r| == |s|
  {
    seq(|s|, i requires 0 <= i < |s| => s[i].id)
  }

  ghost function IdSet(s: set<Block>): set<nat> {
    set b | b in s :: b.id
  }

  function Flatten(slabs: seq<seq<Block>>): seq<Block> {
    if slabs == [] then [] else Flatten(slabs[..|slabs| - 1]) + slabs[|slabs| - 1]
  }

  class MemoryPool {
    const slabSize: nat
    var freeList: Block?
    var slabs: seq<seq<Block>>
    ghost var free: seq<Block>
    ghost var live: set<Block>

    ghost function Blocks(): set<Block>
      reads this`slabs
    {
      set b | b in Flatten(slabs)
    }

    ghost function View(): Pool
      reads this
    {
      Pool(slabSize, |slabs|, IdsOf(free), IdSet(live))
    }

    /** The block numbered `k` is the k-th block of the slabs. */
    ghost predicate Numbered()
      reads this`slabs
    {
      var all := Flatten(slabs);
      && |all| == |slabs| * slabSize
      && forall k | 0 <= k < |all| :: all[k].id == k
    }

    ghost predicate Sound()
      reads this, free
    {
      && Numbered()
      && (forall b | b in free :: b in Blocks()) && live <= Blocks()
      && Linked(freeList, free)
      && Tiled(View())
    }

    ghost predicate Valid()
      reads this, free
    {
      Sound() && slabs != []
    }

    constructor (slabSize: nat)
      ensures Valid() && this.slabSize == slabSize && View() == NewPool(slabSize) && fresh(Blocks())
    {
      this.slabSize, freeList, slabs, free, live := slabSize, null, [], [], {};
      new;
      NewPoolPartitioned(slabSize);
      assert View() == Pool(slabSize, 0, [], {});
      Grow();
    }

    /** Makes a slab and links its blocks, one by one, in front of the free list. */
    method Grow()
      requires Sound()
      modifies this`freeList, this`slabs, this`free
      ensures Valid() && View() == PoolSpec.Grow(old(View())) && live == old(live)
      ensures old(Blocks()) <= Blocks() && fresh(Blocks() - old(Blocks()))
    {
      hide Linked, Tiled;
      ghost var first := |Flatten(slabs)|;
      var slab := NewSlab(slabSize, first);
      SlabJoins(slab);
      slabs := slabs + [slab];
      LinkSlab(slab);
      BackIds(slab, first, old(free));
      GrowPartitioned(old(View()));
    }

    /** What a further slab does to the numbering. */
    lemma SlabJoins(slab: seq<Block>)
      requires Numbered() && |slab| == slabSize && forall k | 0 <= k < |slab| :: slab[k].id == |Flatten(slabs)| + k
      ensures var all := Flatten(slabs + [slab]);
        && all == Flatten(slabs) + slab
        && |all| == (|slabs| + 1) * slabSize
        && forall k | 0 <= k < |all| :: all[k].id == k
    {
      assert (slabs + [slab])[..|slabs|] == slabs;
      assert (|slabs| + 1) * slabSize == |slabs| * slabSize + slabSize;
    }

    method LinkSlab(slab: seq<Block>)
      requires Linked(freeList, free) && |slab| == slabSize
      requires forall k | 0 <= k < |slab| :: slab[k] !in free
      requires forall j, k | 0 <= j < k < |slab| :: slab[j] != slab[k]
      modifies this`freeList, this`free, slab
      ensures Linked(freeList, free) && free == Back(slab, |slab|) + old(free)
    {
      var i := 0;
      while i < slabSize
        invariant i <= slabSize && Linked(freeList, free) && free == Back(slab, i) + old(free)
      {
        hide Linked, Back;
        BackNext(slab, i, old(free));
        slab[i].next := freeList;
        LinkFront(slab[i], free);
        freeList := slab[i];
        free := [slab[i]] + free;
        i := i + 1;
      }
    }

    method NewSlab(n: nat, ghost first: nat) returns (slab: seq<Block>)
      ensures |slab| == n && forall k | 0 <= k < n :: fresh(slab[k]) && slab[k].id == first + k
    {
      slab := [];
      while |slab| < n
        invariant |slab| <= n && forall k | 0 <= k < |slab| :: fresh(slab[k]) && slab[k].id == first + k
      {
        var block := new Block(first + |slab|);
        slab := slab + [block];
      }
    }

    /** Grows a pool that has nothing free. */
    method Stock()
      requires Valid() && CanStock(View())
      modifies this`freeList, this`slabs, this`free
      ensures Valid() && View() == Stocked(old(View())) && live == old(live)
      ensures freeList != null && free != [] && freeList == free[0]
      ensures old(Blocks()) <= Blocks() && fresh(Blocks() - old(Blocks()))
    {
      hide Linked, Tiled, Numbered;
      EmptyList(freeList, free);
      if freeList == null { Grow(); }
      EmptyList(freeList, free);
      LinkTail(freeList, free);
    }

    /** Hands out the front block of the list, growing first if there is none. */
    method Allocate() returns (block: Block)
      requires Valid() && CanStock(View())
      modifies this`freeList, this`slabs, this`free, this`live
      ensures Valid() && View() == PoolSpec.Allocate(old(View()))
      ensures block.id == Next(old(View())) && block !in old(live) && live == old(live) + {block}
      ensures old(Blocks()) <= Blocks() && fresh(Blocks() - old(Blocks()))
    {
      hide Linked, Tiled, Numbered, Stocked, IdsOf, IdSet, Flatten;
      AllocateOk(View());
      Stock();
      block := freeList;
      LinkTail(freeList, free);
      FrontLeaves(block);
      freeList := block.next;
      free := free[1..];
      live := live + {block};
    }

    lemma FrontLeaves(block: Block)
      requires free != [] && block == free[0]
      ensures IdsOf(free)[0] == block.id && IdsOf(free[1..]) == IdsOf(free)[1..]
          && IdSet(live + {block}) == IdSet(live) + {block.id}
      ensures block in live ==> block.id in IdSet(live)
    {
    }

    /** Takes back a block in use and puts it in front of the list. */
    method Deallocate(block: Block)
      requires Valid() && block in live
      modifies this`freeList, this`free, this`live, block
      ensures Valid() && View() == PoolSpec.Deallocate(old(View()), block.id)
      ensures live == old(live) - {block} && Blocks() == old(Blocks())
    {
      hide Linked, Tiled, Numbered;
      LiveApart(block);
      DeallocateOk(View(), block.id);
      block.next := freeList;
      LinkFront(block, free);
      freeList := block;
      free := [block] + free;
      live := live - {block};
    }

    lemma LiveApart(block: Block)
      requires Valid() && block in live
      ensures block.id in View().live && block !in free
      ensures IdsOf([block] + free) == [block.id] + IdsOf(free) && IdSet(live - {block}) == IdSet(live) - {block.id}
    {
      hide Linked;
      var all := Flatten(slabs);
      forall b | b in live && b.id == block.id ensures b == block {
        assert b in all && block in all;
        var i :| 0 <= i < |all| && all[i] == b;
        var j :| 0 <= j < |all| && all[j] == block;
      }
      forall i | 0 <= i < |free| ensures free[i] != block {
        assert IdsOf(free)[i] in Ids(IdsOf(free));
      }
    }

    method FreeCount() returns (count: nat)
      requires Valid()
      ensures count == |View().free| && count + |View().live| == View().Capacity()
    {
      CountPartition(View());
      count := 0;
      var b := freeList;
      while b != null
        invariant count <= |free| && Linked(b, free[count..])
        decreases |free| - count
      {
        count := count + 1;
        b := b.next;
      }
    }

    method TotalCapacity() returns (n: nat)
      ensures n == View().Capacity()
    {
      n := |slabs| * slabSize;
    }
  }

  lemma {:induction false} EmptyList(head: Block?, s: seq<Block>)
    requires Linked(head, s)
    ensures head == null <==> s == []
  {
  }

  lemma {:induction false} LinkTail(head: Block?, s: seq<Block>)
    requires Linked(head, s) && s != []
    ensures head == s[0] && Linked(s[0].next, s[1..])
  {
  }

  /** The first `n` blocks of a slab, last first. */
  ghost function Back(slab: seq<Block>, n: nat): (s: seq<Block>)
    requires n <= |slab|
    ensures |s| == n
  {
    seq(n, i requires 0 <= i < n => slab[n - 1 - i])
  }

  lemma BackNext(slab: seq<Block>, i: nat, rest: seq<Block>)
    requires i < |slab| && slab[i] !in rest && forall j, k | 0 <= j < k < |slab| :: slab[j] != slab[k]
    ensures slab[i] !in Back(slab, i) + rest && [slab[i]] + (Back(slab, i) + rest) == Back(slab, i + 1) + rest
  {
  }

  lemma {:induction false} LinkFront(b: Block, s: seq<Block>)
    requires Linked(b.next, s)
    ensures Linked(b, [b] + s)
  {
    assert ([b] + s)[1..] == s;
  }

  lemma BackIds(slab: seq<Block>, first: nat, rest: seq<Block>)
    requires forall k | 0 <= k < |slab| :: slab[k].id == first + k
    ensures IdsOf(Back(slab, |slab|) + rest) == Downwards(first + |slab|, |slab|) + IdsOf(rest)
  {
  }
}
