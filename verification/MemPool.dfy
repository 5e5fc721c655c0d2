/** The fixed-size object pool: a circular scan for the next free block. A pointer
  * into the pool is the index of its block.
  */
module MemPools {

  /** The null pointer. */
  const NULL: int := -1

  /** The first `n` naturals; there are exactly `n` of them. */
  ghost function Below(n: nat): (s: set<nat>)
    ensures |s| == n
    ensures forall i :: i in s <==> 0 <= i < n
  {
    if n == 0 then {} else Below(n - 1) + {n - 1}
  }

  /** An injective map has as many values as keys. */
  lemma {:induction false} InjectiveValues<V(!new)>(m: map<nat, V>)
    requires forall a, b | a in m && b in m && m[a] == m[b] :: a == b
    ensures |m.Values| == |m|
    decreases |m|
  {
    if m != map[] {
      var k :| k in m;
      var rest := m - {k};
      InjectiveValues(rest);
      forall v | v in m.Values ensures v in rest.Values + {m[k]} {
        var j :| j in m && m[j] == v;
        assert j != k ==> j in rest && rest[j] == v;
      }
      assert m[k] !in rest.Values;
      assert m.Values == rest.Values + {m[k]};
    }
  }

  /** Pigeonhole: distinct numbers below `n` that all miss some `hole` are fewer than `n`. */
  lemma {:induction false} Pigeonhole(m: map<nat, nat>, n: nat, hole: nat)
    requires forall a, b | a in m && b in m && m[a] == m[b] :: a == b
    requires hole < n && forall a | a in m :: m[a] < n && m[a] != hole
    ensures |m| < n
  {
    InjectiveValues(m);
    var rest := Below(n) - {hole};
    assert m.Values <= rest;
    Subset(m.Values, rest);
  }

  lemma {:induction false} Subset(s: set<nat>, t: set<nat>)
    requires s <= t
    ensures |s| <= |t|
    decreases |s|
  {
    assert t == s + (t - s);
  }

  class MemPool {
    const isFree: array<bool>
    var nextFreeIndex: nat
    var freeCount: nat

    /** The blocks currently handed out. */
    ghost function Allocated(): (s: set<nat>)
      reads isFree
      ensures forall i :: i in s <==> 0 <= i < isFree.Length && !isFree[i]
    {
      set i | 0 <= i < isFree.Length && !isFree[i]
    }

    ghost predicate Valid()
      reads this, isFree
    {
      && (nextFreeIndex < isFree.Length || isFree.Length == 0)
      && freeCount + |Allocated()| == isFree.Length
    }

    constructor (numElems: nat)
      ensures Valid() && fresh(isFree) && isFree.Length == numElems && Allocated() == {}
    {
      isFree := new bool[numElems](_ => true);
      nextFreeIndex, freeCount := 0, numElems;
      new;
      assert Allocated() == {};
    }

    /** A positive count means there is a free block to be found. */
    lemma {:induction false} SomeFree()
      requires Valid() && 0 < freeCount
      ensures exists i :: 0 <= i < isFree.Length && isFree[i]
    {
      var all := Below(isFree.Length);
      var free := all - Allocated();
      assert all == free + Allocated();
      assert |free| == freeCount;
      var i :| i in free;
    }

    /** The scan terminates and hands out a block nobody holds; with no block left it
      * fails, which is fatal in the original.
      */
    method Allocate() returns (ok: bool, block: nat)
      requires Valid()
      modifies this, isFree
      ensures Valid() && ok == (old(freeCount) > 0)
      ensures ok ==> block < isFree.Length && old(isFree[block])
      ensures ok ==> Allocated() == old(Allocated()) + {block} && freeCount == old(freeCount) - 1
      ensures ok ==> forall i | 0 <= i < isFree.Length && i != block :: isFree[i] == old(isFree[i])
      ensures !ok ==> Allocated() == old(Allocated()) && isFree[..] == old(isFree[..]) && freeCount == 0
    {
      if freeCount == 0 {
        return false, 0;
      }
      SomeFree();
      ghost var target :| 0 <= target < isFree.Length && isFree[target];
      while !isFree[nextFreeIndex]
        invariant nextFreeIndex < isFree.Length && isFree[target]
        invariant freeCount == old(freeCount) && isFree[..] == old(isFree[..])
        decreases if nextFreeIndex <= target then target - nextFreeIndex
                  else isFree.Length - nextFreeIndex + target
      {
        nextFreeIndex := nextFreeIndex + 1;
        if nextFreeIndex == isFree.Length {
          nextFreeIndex := 0;
        }
      }
      ok, block := true, nextFreeIndex;
      assert isFree[block] == isFree[..][block];
      isFree[block] := false;
      freeCount := freeCount - 1;
      assert Allocated() == old(Allocated()) + {block};
    }

    method Deallocate(block: nat)
      requires Valid() && block in Allocated()
      modifies this, isFree
      ensures Valid() && Allocated() == old(Allocated()) - {block} && freeCount == old(freeCount) + 1
      ensures forall i | 0 <= i < isFree.Length && i != block :: isFree[i] == old(isFree[i])
    {
      isFree[block] := true;
      freeCount := freeCount + 1;
      assert Allocated() == old(Allocated()) - {block};
    }
  }
}
