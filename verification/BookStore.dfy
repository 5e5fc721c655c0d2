/** The store of a book: both pools, the slot table and the circular lists, changed
  * in place. Every operation is proved to be its counterpart on the flat
  * price-time sequence of its side, and to keep the links, the table and the
  * pools in agreement.
  */
module BookStores {
  import opened Types
  import opened PriceTime
  import opened Levels
  import opened MemPools
  import opened LinkedBooks

  /** Level `b` was linked in at place `k` of the ring `r`. */
  ghost predicate LevelLinked(m: Store, n: Store, priceLevels: nat, side: Side, r: seq<nat>, k: nat, b: nat) {
    && 0 < priceLevels == |m.slots| && b < |m.levels| == |n.levels| && k <= |r|
    && n.orders == m.orders && n.Head(Opposite(side)) == m.Head(Opposite(side))
    && n.slots == m.slots[SlotIndex(m.levels[b].price, priceLevels) := b]
    && LevelRing(n.levels, Inserted(r, k, b)) && n.Head(side) == Inserted(r, k, b)[0]
    && SameButLinks(m.levels, n.levels, r + [b])
  }

  /** Level `r[k]` was linked out of the ring `r`. */
  ghost predicate LevelUnlinked(m: Store, n: Store, priceLevels: nat, side: Side, r: seq<nat>, k: nat) {
    && 0 < priceLevels == |m.slots| && |m.levels| == |n.levels| && k < |r| && r[k] < |m.levels|
    && n.orders == m.orders && n.Head(Opposite(side)) == m.Head(Opposite(side))
    && n.slots == m.slots[SlotIndex(m.levels[r[k]].price, priceLevels) := NULL]
    && LevelRing(n.levels, Dropped(r, k))
    && n.Head(side) == (if |r| == 1 then NULL else Dropped(r, k)[0])
    && SameButLinks(m.levels, n.levels, r)
  }

  ghost predicate SameButLinks(ls: seq<LevelNode>, ms: seq<LevelNode>, r: seq<nat>) {
    && |ms| == |ls|
    && (forall c | 0 <= c < |ls| :: ms[c] == ls[c].(prev := ms[c].prev, next := ms[c].next))
    && (forall c | 0 <= c < |ls| && c !in r :: ms[c] == ls[c])
  }

  /** Exactly the level blocks of the two rings. */
  ghost predicate LevelsMatch(used: set<nat>, h: Shape) {
    forall b: nat :: b in used <==> b in h.bids || b in h.asks
  }

  /** Exactly the order blocks that have a level. */
  ghost predicate OrdersMatch(used: set<nat>, h: Shape) {
    forall o: nat :: o in used <==> o < |h.home| && h.home[o] != NULL
  }

  /** The flat price-time book a memory represents. */
  ghost function FlatOf(m: Store, h: Shape, priceLevels: nat): Book
    requires Linked(m, h, priceLevels)
  {
    Book(Flatten(LevelsOf(m, h, Buy)), Flatten(LevelsOf(m, h, Sell)))
  }

  /** The book gained exactly `o`, in block `block`. */
  ghost predicate Grown(m: Store, h: Shape, n: Store, g: Shape, priceLevels: nat, o: Order, block: nat) {
    && Linked(m, h, priceLevels) && Linked(n, g, priceLevels)
    && FlatOf(n, g, priceLevels) == Rested(FlatOf(m, h, priceLevels), o)
    && Placed(m.orders, n.orders, h, g, o, block)
  }

  lemma {:induction false} GrownFrom(m: Store, h: Shape, n: Store, g: Shape, priceLevels: nat, o: Order, block: nat)
    requires Linked(m, h, priceLevels) && Linked(n, g, priceLevels) && o.side != NoSide
    requires LevelsOf(n, g, Opposite(o.side)) == LevelsOf(m, h, Opposite(o.side))
    requires Flatten(LevelsOf(n, g, o.side)) == Insert(Flatten(LevelsOf(m, h, o.side)), o)
    requires Placed(m.orders, n.orders, h, g, o, block)
    ensures Grown(m, h, n, g, priceLevels, o, block)
  {
    hide Linked, Placed, Flatten, LevelsOf, Insert;
  }

  /** Block `block` now holds `o`, and every other order is where it was. */
  ghost predicate Placed(was: seq<OrderNode>, now: seq<OrderNode>, h: Shape, g: Shape, o: Order, block: nat) {
    && |now| == |was| == |g.home| == |h.home| && block < |was|
    && now[block].order == o && h.home[block] == NULL && g.home[block] != NULL
    && (forall x | 0 <= x < |was| && x != block :: now[x].order == was[x].order && g.home[x] == h.home[x])
  }

  /** The book lost exactly the order in block `block`. */
  ghost predicate Cut(m: Store, h: Shape, n: Store, g: Shape, priceLevels: nat, block: nat) {
    && Linked(m, h, priceLevels) && Linked(n, g, priceLevels)
    && |n.orders| == |m.orders| == |h.home| && block < |m.orders| && g.home == h.home[block := NULL]
    && FlatOf(n, g, priceLevels) == Taken(FlatOf(m, h, priceLevels), m.orders[block].order)
    && (forall x | 0 <= x < |m.orders| && x != block :: n.orders[x].order == m.orders[x].order)
  }

  lemma {:induction false} CutFrom(m: Store, h: Shape, n: Store, g: Shape, priceLevels: nat, block: nat)
    requires Linked(m, h, priceLevels) && Linked(n, g, priceLevels)
    requires |n.orders| == |m.orders| == |h.home| && block < |m.orders| && g.home == h.home[block := NULL]
    requires var o := m.orders[block].order;
             && o.side != NoSide
             && LevelsOf(n, g, Opposite(o.side)) == LevelsOf(m, h, Opposite(o.side))
             && Flatten(LevelsOf(n, g, o.side)) == Remove(Flatten(LevelsOf(m, h, o.side)), o.id)
    requires forall x | 0 <= x < |m.orders| && x != block :: n.orders[x].order == m.orders[x].order
    ensures Cut(m, h, n, g, priceLevels, block)
  {
    hide Linked, Flatten, LevelsOf, Remove;
  }

  lemma {:induction false} PlacedOn(was: seq<OrderNode>, h: Shape, g: Shape, o: Order, block: nat, b: nat,
          node: OrderNode)
    requires |was| == |h.home| && block < |was| && h.home[block] == NULL
    requires node.order == o && g.home == h.home[block := b]
    ensures Placed(was, was[block := node], h, g, o, block)
  {
  }

  class BookStore {
    const priceLevels: nat
    const levelPool: MemPool
    const orderPool: MemPool
    var slots: seq<int>
    var levels: seq<LevelNode>
    var orders: seq<OrderNode>
    var bids: int
    var asks: int
    ghost var shape: Shape

    ghost function Mem(): Store
      reads this
    {
      Store(slots, levels, orders, bids, asks)
    }

    /** The level pool has handed out exactly the levels in use. */
    ghost predicate LevelsPooled()
      reads this, levelPool, levelPool.isFree
    {
      && levelPool.Valid() && levelPool.isFree.Length == priceLevels
      && LevelsMatch(levelPool.Allocated(), shape)
    }

    /** The order pool has handed out exactly the orders in use. */
    ghost predicate OrdersPooled()
      reads this, orderPool, orderPool.isFree
    {
      && orderPool.Valid() && orderPool.isFree.Length == |orders|
      && OrdersMatch(orderPool.Allocated(), shape)
    }

    /** Order block `o` is in use. */
    ghost predicate Live(o: nat)
      reads this
    {
      o < |shape.home| && shape.home[o] != NULL
    }

    ghost predicate Valid()
      reads this, levelPool, levelPool.isFree, orderPool, orderPool.isFree
    {
      && Linked(Mem(), shape, priceLevels) && LevelsPooled() && OrdersPooled()
      && levelPool != orderPool && levelPool.isFree != orderPool.isFree
    }

    /** What the memory represents. */
    ghost function Flat(): Book
      requires Linked(Mem(), shape, priceLevels)
      reads this
    {
      FlatOf(Mem(), shape, priceLevels)
    }

    constructor (priceLevels: nat, orderCapacity: nat)
      requires 0 < priceLevels
      ensures Valid() && fresh(levelPool) && fresh(levelPool.isFree) && fresh(orderPool) && fresh(orderPool.isFree)
      ensures this.priceLevels == priceLevels && |orders| == |shape.home| == orderCapacity
      ensures Flat() == EMPTY_BOOK && forall o: nat :: !Live(o)
    {
      this.priceLevels := priceLevels;
      levelPool := new MemPool(priceLevels);
      orderPool := new MemPool(orderCapacity);
      slots := seq(priceLevels, _ => NULL);
      levels := seq(priceLevels, _ => LevelNode(NoSide, 0, NULL, NULL, NULL));
      orders := seq(orderCapacity, _ => OrderNode(Order(ANONYMOUS, 0, NoSide, 0, 0, 0), NULL, NULL));
      bids, asks := NULL, NULL;
      shape := Shape([], [], seq(priceLevels, _ => []), seq(orderCapacity, _ => NULL));
    }

    /** A ring as the walk over levels needs it. */
    ghost predicate Walkable(side: Side, r: seq<nat>)
      reads this
    {
      && LevelRing(levels, r) && Descending(levels, side, r)
      && Mem().Head(side) == (if r == [] then NULL else r[0])
    }

    /** The walk for a new level: to the first level it is not worse than, or the last. */
    method FindPlace(side: Side, price: nat, ghost r: seq<nat>) returns (target: nat, ghost i: nat)
      requires Walkable(side, r) && r != [] && side != NoSide
      ensures i < |r| && target == r[i]
      ensures forall j | 0 <= j < i :: Better(side, levels[r[j]].price, price)
      ensures Better(side, levels[target].price, price) ==> i == |r| - 1
    {
      var head := if side == Buy then bids else asks;
      hide LevelRing;
      target, i := head, 0;
      RingNeighbours(levels, r, 0);
      while Better(side, levels[target].price, price) && levels[target].next != head
        invariant i < |r| && target == r[i]
        invariant forall j | 0 <= j < i :: Better(side, levels[r[j]].price, price)
        invariant levels[target].next == r[Wrap(i, |r|)] && r[0] == head
        decreases |r| - i
      {
        target, i := levels[target].next, i + 1;
        RingNeighbours(levels, r, i);
      }
    }

    /** `addOrdersAtPrice`: level `b` is put in its slot and linked in by price. */
    method AddOrdersAtPrice(b: nat) returns (ghost k: nat)
      requires 0 < priceLevels == |slots| && b < |levels| && levels[b].side != NoSide
      requires Walkable(levels[b].side, shape.Ring(levels[b].side)) && b !in shape.Ring(levels[b].side)
      requires forall c | c in shape.Ring(levels[b].side) :: levels[c].price != levels[b].price
      modifies this`slots, this`levels, this`bids, this`asks
      ensures Place(old(levels), old(levels[b].side), shape.Ring(old(levels[b].side)), old(levels[b].price), k)
      ensures LevelLinked(old(Mem()), Mem(), priceLevels, old(levels[b].side), shape.Ring(old(levels[b].side)), k, b)
    {
      hide LevelRing, Inserted, Place, Descending, SlotIndex, Distinct;
      var side, price := levels[b].side, levels[b].price;
      slots := slots[SlotIndex(price, priceLevels) := b];
      var head := if side == Buy then bids else asks;
      if head == NULL {
        k := 0;
        SetHead(side, b);
        levels := levels[b := levels[b].(prev := b, next := b)];
        FirstLevel(old(levels), levels, side, price, shape.Ring(side), b);
      } else {
        k := LinkByPrice(b, side, price, shape.Ring(side));
      }
    }

    method LinkByPrice(b: nat, side: Side, price: nat, ghost r: seq<nat>) returns (ghost k: nat)
      requires side != NoSide && Walkable(side, r) && r != [] && b < |levels| && b !in r
      requires forall c | c in r :: levels[c].price != price
      modifies this`levels, this`bids, this`asks
      ensures k <= |r| && Place(old(levels), side, r, price, k) && LevelRing(levels, Inserted(r, k, b))
      ensures Mem() == old(Mem()).(levels := levels).WithHead(side, Inserted(r, k, b)[0])
      ensures SameButLinks(old(levels), levels, r + [b])
    {
      hide LevelRing, Inserted, Place, Descending, Distinct, SameButLinks;
      var head := if side == Buy then bids else asks;
      var target: nat;
      ghost var i: nat;
      target, i := FindPlace(side, price, r);
      RingNeighbours(levels, r, i);
      PlaceAt(levels, side, r, price, i);
      if Better(side, levels[target].price, price) {
        k := |r|;
        LinkBetween(target, b, levels[target].next, r, k);
      } else {
        k := i;
        LinkBetween(levels[target].prev, b, target, r, k);
        if head == target {
          SetHead(side, b);
        }
      }
    }

    /** The four link assignments that put `b` between two neighbours of a ring. */
    method LinkBetween(p: nat, b: nat, q: nat, ghost r: seq<nat>, ghost k: nat)
      requires LevelRing(levels, r) && r != [] && k <= |r| && b < |levels| && b !in r
      requires p == r[if k == 0 then |r| - 1 else k - 1] && q == r[if k == |r| then 0 else k]
      modifies this`levels
      ensures LevelRing(levels, Inserted(r, k, b)) && SameButLinks(old(levels), levels, r + [b])
    {
      ghost var was := levels;
      assert Distinct(r, |levels|);
      levels := levels[p := levels[p].(next := b)];
      levels := levels[b := levels[b].(prev := p, next := q)];
      levels := levels[q := levels[q].(prev := b)];
      LinkedBetween(was, levels, r, k, b);
    }

    method SetHead(side: Side, b: int)
      modifies this`bids, this`asks
      ensures Mem() == old(Mem()).WithHead(side, b)
    {
      if side == Buy {
        bids := b;
      } else {
        asks := b;
      }
    }

    /** `removeOrdersAtPrice`: the level leaves the ring and its slot, and its block is free again. */
    method RemoveOrdersAtPrice(side: Side, price: nat, ghost r: seq<nat>, ghost k: nat)
      requires 0 < priceLevels == |slots| && side != NoSide && k < |r|
      requires LevelRing(levels, r) && Mem().Head(side) == r[0] && r[k] < |levels|
      requires slots[SlotIndex(price, priceLevels)] == r[k] && levels[r[k]].price == price
      requires levelPool.Valid() && r[k] in levelPool.Allocated()
      modifies this`slots, this`levels, this`bids, this`asks, levelPool, levelPool.isFree
      ensures LevelUnlinked(old(Mem()), Mem(), priceLevels, side, r, k)
      ensures levelPool.Valid() && levelPool.Allocated() == old(levelPool.Allocated()) - {r[k]}
    {
      hide LevelRing, SlotIndex, Dropped, Distinct;
      var oap := slots[SlotIndex(price, priceLevels)];
      RingNeighbours(levels, r, k);
      if levels[oap].next == oap {
        SetHead(side, NULL);
      } else {
        var prev, next := levels[oap].prev, levels[oap].next;
        LinkOut(prev, oap, next, r, k);
        if (if side == Buy then bids else asks) == oap {
          SetHead(side, next);
        }
      }
      slots := slots[SlotIndex(price, priceLevels) := NULL];
      levelPool.Deallocate(oap);
    }

    /** The assignments that take `b` out from between its neighbours. */
    method LinkOut(p: nat, b: nat, q: nat, ghost r: seq<nat>, ghost k: nat)
      requires LevelRing(levels, r) && 2 <= |r| && k < |r| && b == r[k] < |levels|
      requires p == r[if k == 0 then |r| - 1 else k - 1] && q == r[Wrap(k, |r|)]
      modifies this`levels
      ensures LevelRing(levels, Dropped(r, k)) && SameButLinks(old(levels), levels, r)
    {
      ghost var was := levels;
      assert Distinct(r, |levels|);
      levels := levels[p := levels[p].(next := q)];
      levels := levels[q := levels[q].(prev := p)];
      levels := levels[b := levels[b].(prev := NULL, next := NULL)];
      LinkedOut(was, levels, r, k);
    }

    /** No order in the slot of `o` is at another price or on the other side. */
    ghost predicate Fits(o: Order)
      requires Linked(Mem(), shape, priceLevels)
      reads this
    {
      forall x | Flat().Has(x) && SlotIndex(x.price, priceLevels) == SlotIndex(o.price, priceLevels) ::
        x.price == o.price && x.side == o.side
    }

    /** `addOrder` without a level at the price: a queue of one on a new level. The
      * level pool always has a block for it.
      */
    method StartLevel(o: Order, block: nat)
      requires Linked(Mem(), shape, priceLevels) && LevelsPooled() && o.side != NoSide
      requires block < |orders| && shape.home[block] == NULL
      requires slots[SlotIndex(o.price, priceLevels)] == NULL
      modifies this, levelPool, levelPool.isFree
      ensures Grown(old(Mem()), old(shape), Mem(), shape, priceLevels, o, block) && LevelsPooled()
    {
      hide Linked, Sized, SideOk, SlotsOk, HomesOk, LevelRing, Descending, Place, LevelLinked, Inserted, SlotIndex,
           Started, Grown, LevelsMatch;
      ghost var m, h, used := Mem(), shape, levelPool.Allocated();
      LinkedParts(m, h, priceLevels, o.side);
      RoomForLevel(m, h, priceLevels, SlotIndex(o.price, priceLevels), used);
      orders := orders[block := OrderNode(o, block, block)];
      var found, b := levelPool.Allocate();
      FreshLevel(h, o.side, used, b);
      levels := levels[b := LevelNode(o.side, o.price, block, NULL, NULL)];
      StillWalkable(m, h, priceLevels, levels, o.side, b, o.price);
      ghost var mid := Mem();
      ghost var k := AddOrdersAtPrice(b);
      PlaceStays(mid.levels, m.levels, o.side, h.Ring(o.side), o.price, k, b);
      shape := Started(h, o.side, k, b, block);
      StartedOk(m, h, mid, Mem(), priceLevels, o, block, b, k);
      StartedBlocks(m, h, priceLevels, o.side, k, b, block, used);
    }

    /** `addOrder` with a level at the price: the order goes behind its last one. */
    method JoinLevel(o: Order, block: nat, oap: nat)
      requires Linked(Mem(), shape, priceLevels) && LevelsPooled() && o.side != NoSide
      requires block < |orders| && shape.home[block] == NULL
      requires slots[SlotIndex(o.price, priceLevels)] == oap < |levels|
      requires levels[oap].side == o.side && levels[oap].price == o.price
      modifies this`orders, this`shape
      ensures Grown(old(Mem()), old(shape), Mem(), shape, priceLevels, o, block) && LevelsPooled()
    {
      hide Linked, Sized, SideOk, SlotsOk, HomesOk, LevelOk, OrderRing, SlotIndex, Queued, Grown, LevelsMatch;
      ghost var m, h := Mem(), shape;
      LinkedParts(m, h, priceLevels, o.side);
      ghost var k := LevelAt(m, h, priceLevels, o.side, SlotIndex(o.price, priceLevels));
      QueueLinks(m, h, o.side, oap);
      var first := levels[oap].first;
      var last := orders[first].prev;
      orders := orders[block := OrderNode(o, NULL, NULL)];
      orders := orders[last := orders[last].(next := block)];
      orders := orders[block := orders[block].(prev := last, next := first)];
      orders := orders[first := orders[first].(prev := block)];
      assert orders == Chained(m.orders, o, block, first, last);
      hide Chained;
      shape := Queued(h, oap, block);
      JoinedOk(m, h, orders, priceLevels, o, block, oap, k);
      QueuedRings(h, oap, block, levelPool.Allocated());
    }

    /** `addOrder`, for an order in block `block`: a new level, or behind the last one of its level. */
    method QueueOrder(o: Order, block: nat)
      requires Linked(Mem(), shape, priceLevels) && LevelsPooled() && o.side != NoSide && Fits(o)
      requires block < |orders| && shape.home[block] == NULL
      modifies this, levelPool, levelPool.isFree
      ensures Grown(old(Mem()), old(shape), Mem(), shape, priceLevels, o, block) && LevelsPooled()
    {
      hide Linked, SlotIndex, FlatOf, Sized, SideOk, SlotsOk, HomesOk, Grown, LevelsPooled;
      LinkedParts(Mem(), shape, priceLevels, o.side);
      var oap := slots[SlotIndex(o.price, priceLevels)];
      if oap == NULL {
        StartLevel(o, block);
      } else {
        FitsLevel(Mem(), shape, priceLevels, o);
        JoinLevel(o, block, oap);
      }
    }

    /** Allocates a block for `o` and queues it: a priority insertion into its flat
      * side. It fails only when every order block is in use.
      */
    method AddOrder(o: Order) returns (ok: bool, block: nat)
      requires Valid() && o.side != NoSide && Fits(o)
      modifies this, levelPool, levelPool.isFree, orderPool, orderPool.isFree
      ensures Valid() && ok == (old(orderPool.freeCount) > 0)
      ensures ok ==> Flat() == Rested(old(Flat()), o)
      ensures ok ==> Placed(old(orders), orders, old(shape), shape, o, block)
      ensures !ok ==> Mem() == old(Mem()) && shape == old(shape) && orderPool.freeCount == 0
    {
      hide Linked, LinkedBooks.SlotIndex, FlatOf, Sized, SideOk, SlotsOk, HomesOk, Placed, Rested, LevelsPooled,
           Fits, OrdersMatch;
      ghost var used := orderPool.Allocated();
      LinkedParts(Mem(), shape, priceLevels, o.side);
      ok, block := orderPool.Allocate();
      if ok {
        FreshBlock(|orders|, shape, used, block);
        QueueOrder(o, block);
        PlacedLive(old(orders), orders, old(shape), shape, o, block, used);
      }
    }

    /** The priority the next order at this price gets on its side. */
    method NextPriority(price: nat, ghost side: Side) returns (priority: nat)
      requires Linked(Mem(), shape, priceLevels) && side != NoSide
      requires forall x | Flat().Has(x) && SlotIndex(x.price, priceLevels) == SlotIndex(price, priceLevels) ::
                 x.price == price && x.side == side
      ensures priority == PriceTime.NextPriority(Flat().On(side), price)
    {
      hide Linked, SlotIndex, Flatten, LevelsOf, LevelOk, SideOk, Sized, SlotsOk, HomesOk, PriceTime.NextPriority;
      ghost var m, h := Mem(), shape;
      LinkedParts(m, h, priceLevels, side);
      var oap := slots[SlotIndex(price, priceLevels)];
      if oap == NULL {
        NoneThere(m, h, priceLevels, side, price);
        NextPriorityFresh(LevelsOf(m, h, side), price);
        priority := 1;
      } else {
        ghost var o := Order(ANONYMOUS, 0, side, price, 0, 0);
        FitsLevel(m, h, priceLevels, o);
        ghost var k := LevelAt(m, h, priceLevels, side, SlotIndex(price, priceLevels));
        TailPriority(m, h, side, k);
        QueueLinks(m, h, side, oap);
        priority := orders[orders[levels[oap].first].prev].order.priority + 1;
      }
    }

    /** `removeOrder` for the last order of its level: the level goes too. */
    method DropLevel(block: nat, ghost side: Side, ghost k: nat)
      requires Linked(Mem(), shape, priceLevels) && LevelsPooled()
               && Located(Mem(), shape, priceLevels, block, side, k, 0)
      requires orders[block].prev == block
      requires DistinctIds(Flat().On(side))
      modifies this, levelPool, levelPool.isFree
      ensures Cut(old(Mem()), old(shape), Mem(), shape, priceLevels, block) && LevelsPooled()
    {
      hide Linked, Located, LevelRing, Unseated1, Cut, FlatOf, LevelUnlinked, LevelsMatch, SlotIndex, DistinctIds;
      ghost var m, h := Mem(), shape;
      LocatedParts(m, h, priceLevels, block, side, k, 0);
      AloneInLevel(m, h, priceLevels, block, side, k);
      UnseatedRings(m, h, priceLevels, side, k, block, levelPool.Allocated());
      var o := orders[block].order;
      orders := orders[block := orders[block].(prev := NULL, next := NULL)];
      ghost var mid := Mem();
      RemoveOrdersAtPrice(o.side, o.price, h.Ring(side), k);
      shape := Unseated1(h, side, k, block);
      DroppedOk(m, h, mid, Mem(), priceLevels, block, side, k);
    }

    /** `removeOrder` with others left at the level. */
    method LeaveLevel(block: nat, ghost side: Side, ghost k: nat, ghost j: nat)
      requires Linked(Mem(), shape, priceLevels) && LevelsPooled()
               && Located(Mem(), shape, priceLevels, block, side, k, j)
      requires orders[block].prev != block
      requires DistinctIds(Flat().On(side))
      modifies this
      ensures Cut(old(Mem()), old(shape), Mem(), shape, priceLevels, block) && LevelsPooled()
    {
      hide Linked, Located, Cut, FlatOf, LevelsMatch, SlotIndex, DistinctIds, Left, Unchained;
      ghost var m, h := Mem(), shape;
      LocatedParts(m, h, priceLevels, block, side, k, j);
      LocatedLinks(m, h, priceLevels, block, side, k, j);
      LeftRings(h, side, k, j, block, levelPool.Allocated());
      var prev, next := orders[block].prev, orders[block].next;
      var oap := slots[SlotIndex(orders[block].order.price, priceLevels)];
      orders := orders[block := orders[block].(prev := NULL, next := NULL)];
      orders := orders[prev := orders[prev].(next := next)];
      orders := orders[next := orders[next].(prev := prev)];
      UnchainedIs(m.orders, orders, block, prev, next);
      if levels[oap].first == block {
        levels := levels[oap := levels[oap].(first := next)];
      }
      shape := Left(h, side, k, j, block);
      LeftOk(m, h, Mem(), priceLevels, block, side, k, j);
    }

    /** The order leaves its level, and a level without orders leaves the book. */
    method UnqueueOrder(block: nat)
      requires Linked(Mem(), shape, priceLevels) && LevelsPooled() && Live(block)
      requires block < |orders| && DistinctIds(Flat().On(orders[block].order.side))
      modifies this, levelPool, levelPool.isFree
      ensures Cut(old(Mem()), old(shape), Mem(), shape, priceLevels, block) && LevelsPooled()
    {
      hide Linked, Located, FlatOf, LevelsPooled, DistinctIds, Cut;
      ghost var k, j := Locate(Mem(), shape, priceLevels, block);
      ghost var side := orders[block].order.side;
      if orders[block].prev == block {
        FirstOfOne(Mem(), shape, priceLevels, block, side, k, j);
        DropLevel(block, side, k);
      } else {
        LeaveLevel(block, side, k, j);
      }
    }

    /** `removeOrder`: the order leaves its flat side and its block is free again. */
    method RemoveOrder(block: nat)
      requires Valid() && Live(block) && block < |orders| && DistinctIds(Flat().On(orders[block].order.side))
      modifies this, levelPool, levelPool.isFree, orderPool, orderPool.isFree
      ensures Valid() && Flat() == Taken(old(Flat()), old(orders[block].order))
      ensures |orders| == |old(orders)| && shape.home == old(shape).home[block := NULL]
      ensures forall x | 0 <= x < |orders| && x != block :: orders[x].order == old(orders[x].order)
      ensures orderPool.freeCount == old(orderPool.freeCount) + 1
    {
      hide Linked, FlatOf, LevelsPooled, OrdersMatch, DistinctIds, Taken;
      ghost var h, used := shape, orderPool.Allocated();
      UnqueueOrder(block);
      CutMatch(h, shape, block, used);
      orderPool.Deallocate(block);
    }

    /** Writes the quantity of a live order. */
    method SetQty(block: nat, qty: nat)
      requires Valid() && Live(block) && block < |orders| && DistinctIds(Flat().On(orders[block].order.side))
      modifies this`orders
      ensures Valid() && Flat() == Resized(old(Flat()), old(orders[block].order), qty)
      ensures |orders| == |old(orders)| && shape == old(shape)
      ensures orders[block].order == old(orders[block].order).(qty := qty)
      ensures forall x | 0 <= x < |orders| && x != block :: orders[x].order == old(orders[x].order)
    {
      hide Linked, FlatOf, LevelsMatch, OrdersMatch, DistinctIds, Resized;
      ghost var m := Mem();
      LinkedParts(m, shape, priceLevels, Buy);
      orders := orders[block := orders[block].(order := orders[block].order.(qty := qty))];
      ResizedOk(m, shape, Mem(), priceLevels, block, qty);
    }

    /** The order with the best priority on a side, if there is any. */
    method Best(side: Side) returns (found: bool, block: nat)
      requires Linked(Mem(), shape, priceLevels) && side != NoSide
      ensures found == (Flat().On(side) != [])
      ensures found ==> Live(block) && block < |orders| && orders[block].order == Flat().On(side)[0]
    {
      hide Linked, FlatOf;
      LinkedParts(Mem(), shape, priceLevels, side);
      var head := if side == Buy then bids else asks;
      BestFlat(Mem(), shape, priceLevels, side);
      if head == NULL {
        return false, 0;
      }
      return true, levels[head].first;
    }

    /** The check against live levels that share the slot of `price` at another price. */
    method AliasCheck(price: nat) returns (aliased: bool)
      requires Linked(Mem(), shape, priceLevels)
      ensures 0 < priceLevels
      ensures aliased == (Aliased(priceLevels, Flat().bids, price) || Aliased(priceLevels, Flat().asks, price))
    {
      hide Linked, FlatOf, Aliased;
      LinkedParts(Mem(), shape, priceLevels, Buy);
      AliasedSlot(Mem(), shape, priceLevels, price);
      var oap := slots[SlotIndex(price, priceLevels)];
      aliased := oap != NULL && levels[oap].price != price;
    }

    /** One slot of `clearBook`: the block of its level, if it has one, goes back to the pool. */
    method FreeSlot(i: nat)
      requires levelPool.Valid() && i < |slots|
      requires slots[i] != NULL ==> 0 <= slots[i] < |levels| && slots[i] in levelPool.Allocated()
      modifies this`slots, this`levels, levelPool, levelPool.isFree
      ensures levelPool.Valid() && slots == old(slots)[i := NULL]
      ensures |levels| == |old(levels)| && forall b | 0 <= b < |levels| :: levels[b].price == old(levels)[b].price
      ensures levelPool.Allocated()
           == if old(slots[i]) == NULL then old(levelPool.Allocated()) else old(levelPool.Allocated()) - {old(slots[i])}
    {
      if slots[i] != NULL {
        var b := slots[i];
        levels := levels[b := levels[b].(prev := NULL, next := NULL)];
        levelPool.Deallocate(b);
        slots := slots[i := NULL];
      }
    }

    /** The loop of `clearBook` over the slots, once every order block is free. */
    method ClearLevels()
      requires 0 < priceLevels == |slots| == |levels| && |shape.home| == |orders|
      requires Sized(Mem(), shape, priceLevels) && SlotsOk(Mem(), shape, priceLevels) && LevelsPooled()
      requires orderPool.Valid() && orderPool.isFree.Length == |orders| && orderPool.Allocated() == {}
      requires levelPool != orderPool && levelPool.isFree != orderPool.isFree
      modifies this, levelPool, levelPool.isFree
      ensures Valid() && Flat() == EMPTY_BOOK && forall x: nat :: !Live(x)
      ensures |orders| == old(|orders|) == |shape.home|
    {
      hide SlotIndex, Linked, FlatOf, Above, SlotsOk, LevelsMatch, OrdersMatch;
      ghost var m, h := Mem(), shape;
      var i := 0;
      SlotsAbove(m, h, priceLevels, levelPool.Allocated());
      while i < |slots|
        invariant 0 <= i <= |slots| == |m.slots| && levelPool.Valid()
        invariant |levels| == |m.levels| && forall b | 0 <= b < |levels| :: levels[b].price == m.levels[b].price
        invariant Above(m, h, priceLevels, i, levelPool.Allocated())
        invariant orderPool.Valid() && orderPool.Allocated() == {} && |orders| == |m.orders|
        invariant forall j | 0 <= j < |slots| :: slots[j] == if j < i then NULL else m.slots[j]
      {
        SlotFreed(m, h, priceLevels, i, levelPool.Allocated());
        FreeSlot(i);
        i := i + 1;
      }
      bids, asks := NULL, NULL;
      shape := Shape([], [], seq(priceLevels, _ => []), seq(|orders|, _ => NULL));
      NothingAbove(m, h, priceLevels, levelPool.Allocated());
      EmptyLinked(Mem(), shape, priceLevels);
    }

    /** The orders in use are the orders of the flat book. */
    lemma {:induction false} LiveFlat(o: Order)
      requires Linked(Mem(), shape, priceLevels)
      ensures Flat().Has(o) <==> exists x: nat :: Live(x) && x < |orders| && orders[x].order == o
    {
      hide Linked, FlatOf, Located;
      if x: nat :| Live(x) && x < |orders| && orders[x].order == o {
        var k, j := Locate(Mem(), shape, priceLevels, x);
        LocatedHas(Mem(), shape, priceLevels, x, o.side, k, j);
      }
      if Flat().Has(o) {
        var x := FlatLocated(Mem(), shape, priceLevels, o);
      }
    }

    /** An order in use is on its side of the flat book. */
    lemma {:induction false} LiveSide(x: nat)
      requires Linked(Mem(), shape, priceLevels) && Live(x) && x < |orders|
      ensures orders[x].order.side != NoSide && orders[x].order in Flat().On(orders[x].order.side)
    {
      hide Linked, FlatOf, Located;
      var k, j := Locate(Mem(), shape, priceLevels, x);
      LocatedHas(Mem(), shape, priceLevels, x, orders[x].order.side, k, j);
    }
  }

  lemma {:induction false} FirstLevel(ls: seq<LevelNode>, ms: seq<LevelNode>, side: Side, price: nat, r: seq<nat>,
          b: nat)
    requires r == [] && b < |ls| && ms == ls[b := ls[b].(prev := b, next := b)]
    ensures LevelRing(ms, Inserted(r, 0, b)) && Place(ls, side, r, price, 0)
    ensures SameButLinks(ls, ms, r + [b])
  {
    assert Inserted(r, 0, b) == [b];
  }

  lemma {:induction false} LinkedBetween(ls: seq<LevelNode>, ms: seq<LevelNode>, r: seq<nat>, k: nat, b: nat)
    requires LevelRing(ls, r) && r != [] && k <= |r| && b < |ls| == |ms| && b !in r
    requires var p, q := r[if k == 0 then |r| - 1 else k - 1], r[if k == |r| then 0 else k];
             var after := if p == q then ls[p].(next := b) else ls[q];
             ms == ls[p := ls[p].(next := b)][b := ls[b].(prev := p, next := q)][q := after.(prev := b)]
    ensures LevelRing(ms, Inserted(r, k, b))
  {
    var p, q := r[if k == 0 then |r| - 1 else k - 1], r[if k == |r| then 0 else k];
    assert ms[p].next == b && ms[b].prev == p && ms[b].next == q && ms[q].prev == b;
    RingInsert(LevelNexts(ls), LevelPrevs(ls), LevelNexts(ms), LevelPrevs(ms), r, k, b);
  }

  lemma {:induction false} LinkedOut(ls: seq<LevelNode>, ms: seq<LevelNode>, r: seq<nat>, k: nat)
    requires LevelRing(ls, r) && 2 <= |r| && k < |r| && |ls| == |ms| && Distinct(r, |ls|)
    requires var p, q := r[if k == 0 then |r| - 1 else k - 1], r[Wrap(k, |r|)];
             ms == ls[p := ls[p].(next := q)][q := (if p == q then ls[p].(next := q) else ls[q]).(prev := p)]
                     [r[k] := ls[r[k]].(prev := NULL, next := NULL)]
    ensures LevelRing(ms, Dropped(r, k))
  {
    var p, q := r[if k == 0 then |r| - 1 else k - 1], r[Wrap(k, |r|)];
    assert p != r[k] && q != r[k];
    assert ms[p].next == q && ms[q].prev == p;
    RingRemove(LevelNexts(ls), LevelPrevs(ls), LevelNexts(ms), LevelPrevs(ms), r, k);
  }

  /** A block of a ring and its neighbours; it is its own one exactly if it is alone. */
  lemma {:induction false} RingNeighbours(levels: seq<LevelNode>, r: seq<nat>, k: nat)
    requires LevelRing(levels, r) && k < |r|
    ensures Distinct(r, |levels|) && levels[r[k]].next >= 0 && levels[r[k]].prev >= 0
    ensures levels[r[k]].next == r[Wrap(k, |r|)]
    ensures levels[r[k]].prev == r[if k == 0 then |r| - 1 else k - 1]
    ensures levels[r[k]].next == r[k] <==> |r| == 1
    ensures r[k] == r[0] <==> k == 0
    ensures |r| == 1 ==> Dropped(r, k) == [] && LevelRing(levels, [])
  {
    var n, p := Wrap(k, |r|), if k == 0 then |r| - 1 else k - 1;
    assert k == Wrap(p, |r|);
    assert LevelNexts(levels)[r[k]] == r[n] && LevelPrevs(levels)[r[k]] == r[p];
    EmptyRing(levels, r);
  }

  lemma {:induction false} EmptyRing(levels: seq<LevelNode>, r: seq<nat>)
    requires LevelRing(levels, r)
    ensures LevelRing(levels, [])
  {
  }

  /** Live levels occupy distinct slots, so an empty slot leaves a free block. */
  lemma {:induction false} RoomForLevel(m: Store, h: Shape, priceLevels: nat, hole: nat, used: set<nat>)
    requires Linked(m, h, priceLevels) && hole < priceLevels && m.slots[hole] == NULL
    requires LevelsMatch(used, h)
    ensures |used| < priceLevels
  {
    hide SideOk, HomesOk, SlotIndex;
    var f := map b | b in used :: SlotIndex(m.levels[b].price, priceLevels);
    forall b | b in f ensures m.slots[f[b]] == b && f[b] != hole {
      assert b in h.bids || b in h.asks;
    }
    Pigeonhole(f, priceLevels, hole);
    assert f.Keys == used;
  }

  lemma {:induction false} LinkedParts(m: Store, h: Shape, priceLevels: nat, side: Side)
    requires Linked(m, h, priceLevels) && side != NoSide
    ensures Sized(m, h, priceLevels) && SlotsOk(m, h, priceLevels) && HomesOk(m, h, priceLevels)
    ensures SideOk(m, h, side) && SideOk(m, h, Opposite(side))
    ensures LevelRing(m.levels, h.Ring(side)) && Descending(m.levels, side, h.Ring(side))
    ensures m.Head(side) == if h.Ring(side) == [] then NULL else h.Ring(side)[0]
    ensures 0 < priceLevels == |m.slots| == |m.levels| == |h.fifos| && |h.home| == |m.orders|
  {
  }

  /** Which blocks are in use after a level was started. */
  lemma {:induction false} StartedBlocks(m: Store, h: Shape, priceLevels: nat, side: Side, k: nat, b: nat,
          block: nat, used: set<nat>)
    requires Sized(m, h, priceLevels) && side != NoSide && k <= |h.Ring(side)| && b < |m.levels| && block < |h.home|
    requires b !in h.bids && b !in h.asks && LevelsMatch(used, h)
    ensures LevelsMatch(used + {b}, Started(h, side, k, b, block))
  {
    InsertedHas(h.Ring(side), |m.levels|, k, b);
  }

  /** The slot of a live level's price leads back to it. */
  lemma {:induction false} SlotKnows(m: Store, h: Shape, priceLevels: nat, side: Side)
    requires Sized(m, h, priceLevels) && SlotsOk(m, h, priceLevels)
    ensures forall c | c in h.Ring(side) ::
              c < |m.levels| && m.slots[SlotIndex(m.levels[c].price, priceLevels)] == c
  {
    hide SlotIndex;
  }

  /** A fresh block does not disturb the ring its level is about to join. */
  lemma {:induction false} StillWalkable(m: Store, h: Shape, priceLevels: nat, levels: seq<LevelNode>, side: Side,
          b: nat, price: nat)
    requires Sized(m, h, priceLevels) && SlotsOk(m, h, priceLevels) && SideOk(m, h, side) && b !in h.Ring(side)
    requires |levels| == |m.levels| && forall c | 0 <= c < |levels| && c != b :: levels[c] == m.levels[c]
    requires m.slots[SlotIndex(price, priceLevels)] == NULL
    ensures LevelRing(levels, h.Ring(side)) && Descending(levels, side, h.Ring(side))
    ensures forall c | c in h.Ring(side) :: c < |levels| && levels[c].price != price
  {
    hide SlotIndex, SideOk, LevelRing, Descending, SlotsOk, Distinct;
    SlotKnows(m, h, priceLevels, side);
    SideParts(m, h, side);
    RingStays(m.levels, levels, side, h.Ring(side));
  }

  ghost function Started(h: Shape, side: Side, k: nat, b: nat, block: nat): Shape
    requires k <= |h.Ring(side)| && b < |h.fifos| && block < |h.home|
  {
    h.WithRing(side, Inserted(h.Ring(side), k, b)).(fifos := h.fifos[b := [block]], home := h.home[block := b])
  }

  /** A new level at its place is an insertion into the flat side. */
  lemma {:induction false} StartedOk(m: Store, h: Shape, mid: Store, n: Store, priceLevels: nat, o: Order,
          block: nat, b: nat, k: nat)
    requires Linked(m, h, priceLevels) && o.side != NoSide && block < |m.orders| && b < |m.levels|
    requires h.home[block] == NULL && b !in h.bids && b !in h.asks
    requires m.slots[SlotIndex(o.price, priceLevels)] == NULL
    requires mid == m.(orders := m.orders[block := OrderNode(o, block, block)],
                       levels := m.levels[b := LevelNode(o.side, o.price, block, NULL, NULL)])
    requires Place(m.levels, o.side, h.Ring(o.side), o.price, k) && k <= |h.Ring(o.side)|
    requires Place(mid.levels, o.side, h.Ring(o.side), o.price, k)
    requires LevelLinked(mid, n, priceLevels, o.side, h.Ring(o.side), k, b)
    ensures Grown(m, h, n, Started(h, o.side, k, b, block), priceLevels, o, block)
  {
    assert Sized(m, h, priceLevels) && SideOk(m, h, o.side) && SideOk(m, h, Opposite(o.side));
    assert n.orders == mid.orders;
    var g := Started(h, o.side, k, b, block);
    assert g.home == h.home[block := b];
    hide *;
    PlacedOn(m.orders, h, g, o, block, b, OrderNode(o, block, block));
    StartedSeated(m, h, mid, n, priceLevels, o, block, b, k);
    SeatedFlat(m, h, priceLevels, o, k);
    SeatedOk(m, h, n, g, priceLevels, o.side, k, b, block);
    GrownFrom(m, h, n, g, priceLevels, o, block);
  }

  lemma {:induction false} StartedSeated(m: Store, h: Shape, mid: Store, n: Store, priceLevels: nat, o: Order,
          block: nat, b: nat, k: nat)
    requires Sized(m, h, priceLevels) && o.side != NoSide && block < |m.orders| && b < |m.levels|
    requires h.home[block] == NULL && b !in h.bids && b !in h.asks
    requires m.slots[SlotIndex(o.price, priceLevels)] == NULL
    requires mid == m.(orders := m.orders[block := OrderNode(o, block, block)],
                       levels := m.levels[b := LevelNode(o.side, o.price, block, NULL, NULL)])
    requires Place(mid.levels, o.side, h.Ring(o.side), o.price, k)
    requires LevelLinked(mid, n, priceLevels, o.side, h.Ring(o.side), k, b)
    ensures Seated(m, h, n, Started(h, o.side, k, b, block), priceLevels, o.side, k, b, block)
    ensures n.levels[b].price == o.price && n.orders[block].order == o
  {
    hide SlotIndex, LevelRing, Inserted, Distinct;
    PlaceStays(mid.levels, m.levels, o.side, h.Ring(o.side), o.price, k, b);
    hide Place;
    assert n.levels[b] == mid.levels[b].(prev := n.levels[b].prev, next := n.levels[b].next);
    var r := h.Ring(o.side);
    assert forall c: nat :: c in r + [b] <==> c in r || c == b;
  }

  lemma {:induction false} PlaceStays(ls: seq<LevelNode>, ms: seq<LevelNode>, side: Side, r: seq<nat>, price: nat,
          k: nat, b: nat)
    requires Place(ls, side, r, price, k) && |ms| == |ls| && b !in r
    requires forall c | 0 <= c < |ls| && c != b :: ms[c] == ls[c]
    ensures Place(ms, side, r, price, k) && k <= |r|
  {
    assert forall i | 0 <= i < |r| :: r[i] in r;
  }

  lemma {:induction false} SeatedFlat(m: Store, h: Shape, priceLevels: nat, o: Order, k: nat)
    requires SideOk(m, h, o.side) && o.side != NoSide && Place(m.levels, o.side, h.Ring(o.side), o.price, k)
    ensures k <= |LevelsOf(m, h, o.side)|
    ensures var s := LevelsOf(m, h, o.side);
            Flatten(s[..k] + [Level(o.price, [o])] + s[k..]) == Insert(Flatten(s), o)
  {
    LevelsGraded(m, h, o.side);
    PlaceBelongs(m.levels, o.side, h.Ring(o.side), LevelsOf(m, h, o.side), o.price, k);
    hide *;
    NewLevel(o.side, LevelsOf(m, h, o.side), k, o);
  }

  lemma {:induction false} PlaceBelongs(levels: seq<LevelNode>, side: Side, r: seq<nat>, ls: seq<Level>, price: nat,
          k: nat)
    requires side != NoSide && Place(levels, side, r, price, k)
    requires |ls| == |r| && forall i | 0 <= i < |r| :: ls[i].price == levels[r[i]].price
    ensures k <= |ls| && Belongs(side, ls, price, k)
    ensures forall i | 0 <= i < |ls| :: ls[i].price != price
  {
  }

  /** A used slot leads to a live level of its side. */
  lemma {:induction false} LevelAt(m: Store, h: Shape, priceLevels: nat, side: Side, i: nat) returns (k: nat)
    requires Linked(m, h, priceLevels) && side != NoSide && i < |m.slots| && m.slots[i] != NULL
    requires 0 <= m.slots[i] < |m.levels| && m.levels[m.slots[i]].side == side
    ensures k < |h.Ring(side)| && h.Ring(side)[k] == m.slots[i] && LevelOk(m, h, side, m.slots[i])
    ensures SlotIndex(m.levels[m.slots[i]].price, priceLevels) == i
  {
    hide SlotIndex, OrderRing, LevelRing;
    var b := m.slots[i];
    LevelsOk(m, h, Buy);
    LevelsOk(m, h, Sell);
    assert b in h.Ring(side);
    k :| 0 <= k < |h.Ring(side)| && h.Ring(side)[k] == b;
  }

  /** The links of a queue at its ends. */
  lemma {:induction false} QueueLinks(m: Store, h: Shape, side: Side, b: nat)
    requires LevelOk(m, h, side, b)
    ensures var f := h.fifos[b];
            && f != [] && Distinct(f, |m.orders|) && m.levels[b].first == f[0]
            && m.orders[f[0]].prev == f[|f| - 1] && m.orders[f[|f| - 1]].next == f[0]
            && (forall x | x in f :: h.home[x] == b)
  {
    var f := h.fifos[b];
    assert OrderRing(m.orders, f);
    var i, j := |f| - 1, 0;
    assert j == Wrap(i, |f|) && OrderNexts(m.orders)[f[i]] == f[j] && OrderPrevs(m.orders)[f[j]] == f[i];
  }

  ghost function Queued(h: Shape, b: nat, block: nat): Shape
    requires b < |h.fifos| && block < |h.home|
  {
    h.(fifos := h.fifos[b := h.fifos[b] + [block]], home := h.home[block := b])
  }

  /** The order blocks after `o` was chained in between `last` and `first`. */
  ghost function Chained(orders: seq<OrderNode>, o: Order, block: nat, first: nat, last: nat): (s: seq<OrderNode>)
    requires block < |orders| && first < |orders| && last < |orders|
    ensures |s| == |orders|
  {
    var one := orders[block := OrderNode(o, NULL, NULL)];
    var two := one[last := one[last].(next := block)];
    var three := two[block := two[block].(prev := last, next := first)];
    three[first := three[first].(prev := block)]
  }

  /** Joining the level at its price is an insertion into the flat side. */
  lemma {:induction false} JoinedOk(m: Store, h: Shape, orders: seq<OrderNode>, priceLevels: nat, o: Order,
          block: nat, b: nat, k: nat)
    requires Linked(m, h, priceLevels) && o.side != NoSide && block < |m.orders| == |h.home|
             && b < |m.levels| == |h.fifos|
    requires h.home[block] == NULL && k < |h.Ring(o.side)| && h.Ring(o.side)[k] == b
    requires LevelOk(m, h, o.side, b) && m.levels[b].price == o.price
    requires var f := h.fifos[b];
             f != [] && Distinct(f, |m.orders|) && orders == Chained(m.orders, o, block, f[0], f[|f| - 1])
    ensures Grown(m, h, m.(orders := orders), Queued(h, b, block), priceLevels, o, block)
  {
    var n, g := m.(orders := orders), Queued(h, b, block);
    assert SideOk(m, h, o.side) && SideOk(m, h, Opposite(o.side));
    QueueLinks(m, h, o.side, b);
    JoinedLinks(m, h, orders, o, block, b);
    assert LevelsOf(m, h, o.side)[k].price == o.price && k < |LevelsOf(m, h, o.side)|;
    hide *;
    AppendOk(m, h, n, g, priceLevels, o.side, k, block);
    LevelsGraded(m, h, o.side);
    JoinLevel(o.side, LevelsOf(m, h, o.side), k, o);
    GrownFrom(m, h, n, g, priceLevels, o, block);
  }

  lemma {:induction false} QueuedRings(h: Shape, b: nat, block: nat, used: set<nat>)
    requires b < |h.fifos| && block < |h.home| && LevelsMatch(used, h)
    ensures LevelsMatch(used, Queued(h, b, block))
  {
  }

  lemma {:induction false} JoinedLinks(m: Store, h: Shape, orders: seq<OrderNode>, o: Order, block: nat, b: nat)
    requires block < |m.orders| == |h.home| && b < |h.fifos|
    requires h.home[block] == NULL && forall x | x in h.fifos[b] :: x < |h.home| && h.home[x] == b
    requires var f := h.fifos[b];
             f != [] && Distinct(f, |m.orders|) && orders == Chained(m.orders, o, block, f[0], f[|f| - 1])
    ensures Appended(m, h, m.(orders := orders), b, block) && orders[block].order == o
    ensures Placed(m.orders, orders, h, Queued(h, b, block), o, block)
  {
    var f := h.fifos[b];
    assert f[0] in f && f[|f| - 1] in f;
    assert block != f[0] && block != f[|f| - 1];
  }

  lemma {:induction false} FreshLevel(h: Shape, side: Side, used: set<nat>, b: nat)
    requires LevelsMatch(used, h) && b !in used
    ensures b !in h.bids && b !in h.asks && b !in h.Ring(side)
  {
  }

  lemma {:induction false} FreshBlock(n: nat, h: Shape, used: set<nat>, block: nat)
    requires OrdersMatch(used, h) && block < n == |h.home| && block !in used
    ensures h.home[block] == NULL
  {
  }

  lemma {:induction false} PlacedLive(was: seq<OrderNode>, now: seq<OrderNode>, h: Shape, g: Shape, o: Order,
          block: nat, used: set<nat>)
    requires Placed(was, now, h, g, o, block) && OrdersMatch(used, h)
    ensures |now| == |was| && OrdersMatch(used + {block}, g)
  {
  }

  /** The first order of every live level is in the flat side. */
  lemma {:induction false} FirstInFlat(m: Store, h: Shape, side: Side, k: nat)
    requires SideOk(m, h, side) && k < |h.Ring(side)|
    ensures var b := h.Ring(side)[k];
            LevelOk(m, h, side, b) && m.orders[h.fifos[b][0]].order in Flatten(LevelsOf(m, h, side))
  {
    var b, ls := h.Ring(side)[k], LevelsOf(m, h, side);
    assert LevelOk(m, h, side, b);
    var x := m.orders[h.fifos[b][0]].order;
    assert ls[k].orders[0] == x && x in ls[k].orders;
    hide *;
    FlattenHas(ls, x);
  }

  /** If every order in the slot of `o` is at its price and side, so is the level there. */
  lemma {:induction false} FitsLevel(m: Store, h: Shape, priceLevels: nat, o: Order)
    requires Linked(m, h, priceLevels) && o.side != NoSide && m.slots[SlotIndex(o.price, priceLevels)] != NULL
    requires forall x | FlatOf(m, h, priceLevels).Has(x) ::
               SlotIndex(x.price, priceLevels) == SlotIndex(o.price, priceLevels) ==>
                 x.price == o.price && x.side == o.side
    ensures 0 <= m.slots[SlotIndex(o.price, priceLevels)] < |m.levels|
    ensures var l := m.levels[m.slots[SlotIndex(o.price, priceLevels)]]; l.side == o.side && l.price == o.price
  {
    var b := m.slots[SlotIndex(o.price, priceLevels)];
    var x := SlotInFlat(m, h, priceLevels, SlotIndex(o.price, priceLevels));
    hide *;
  }

  /** A used slot shows in the flat book: by the first order of its level. */
  lemma {:induction false} SlotInFlat(m: Store, h: Shape, priceLevels: nat, i: nat) returns (x: Order)
    requires Linked(m, h, priceLevels) && i < priceLevels && m.slots[i] != NULL
    ensures 0 <= m.slots[i] < |m.levels| && FlatOf(m, h, priceLevels).Has(x)
    ensures var l := m.levels[m.slots[i]];
            SlotIndex(l.price, priceLevels) == i && l.side == x.side && l.price == x.price
  {
    var b := m.slots[i];
    assert b in h.bids || b in h.asks;
    assert SlotIndex(m.levels[b].price, priceLevels) == i;
    assert SideOk(m, h, Buy) && SideOk(m, h, Sell);
    var side := if b in h.bids then Buy else Sell;
    assert b in h.Ring(side);
    hide SlotsOk, HomesOk, SlotIndex, Flatten, LevelsOf, SideOk, OrderRing;
    var k :| 0 <= k < |h.Ring(side)| && h.Ring(side)[k] == b;
    FirstInFlat(m, h, side, k);
    x := m.orders[h.fifos[b][0]].order;
  }

  /** An empty slot means no order at its prices. */
  lemma {:induction false} NoneThere(m: Store, h: Shape, priceLevels: nat, side: Side, price: nat)
    requires Linked(m, h, priceLevels) && side != NoSide && m.slots[SlotIndex(price, priceLevels)] == NULL
    ensures forall x | x in Flatten(LevelsOf(m, h, side)) :: x.price != price
  {
    hide *;
    LinkedParts(m, h, priceLevels, side);
    LevelsGraded(m, h, side);
    var ls := LevelsOf(m, h, side);
    forall x | x in Flatten(ls) ensures x.price != price {
      assert ls[0..|ls|] == ls;
      FlattenPrices(side, ls, 0, |ls|, x);
      var i :| 0 <= i < |ls| && ls[i].price == x.price;
      SlotUsed(m, h, priceLevels, side, i);
    }
  }

  /** The slot of a live level is not empty. */
  lemma {:induction false} SlotUsed(m: Store, h: Shape, priceLevels: nat, side: Side, i: nat)
    requires Linked(m, h, priceLevels) && side != NoSide && i < |LevelsOf(m, h, side)|
    ensures m.slots[SlotIndex(LevelsOf(m, h, side)[i].price, priceLevels)] != NULL
  {
    hide LevelOk, LevelRing, HomesOk, Descending;
    SlotKnows(m, h, priceLevels, side);
    assert h.Ring(side)[i] in h.Ring(side);
  }

  /** The tail of a level's queue decides the next priority at its price. */
  lemma {:induction false} TailPriority(m: Store, h: Shape, side: Side, k: nat)
    requires SideOk(m, h, side) && side != NoSide && k < |h.Ring(side)|
    ensures var b := h.Ring(side)[k];
            && LevelOk(m, h, side, b)
            && var f := h.fifos[b];
               NextPriority(Flatten(LevelsOf(m, h, side)), m.levels[b].price) == m.orders[f[|f| - 1]].order.priority + 1
  {
    var b, ls := h.Ring(side)[k], LevelsOf(m, h, side);
    LevelsGraded(m, h, side);
    assert LevelOk(m, h, side, b);
    assert ls[k] == Level(m.levels[b].price, Queue(m, h.fifos[b]));
    hide SideOk, Flatten, LevelsOf, NextPriority, Graded, OrderRing;
    NextPriorityLevel(side, ls, k);
  }

  /** Order block `block` is the `j`-th of the `k`-th level of its side. */
  ghost predicate Located(m: Store, h: Shape, priceLevels: nat, block: nat, side: Side, k: nat, j: nat) {
    && 0 < priceLevels == |m.slots| && side != NoSide && k < |h.Ring(side)|
    && block < |m.orders| == |h.home| && h.home[block] == h.Ring(side)[k]
    && var b := h.Ring(side)[k];
       && LevelOk(m, h, side, b) && b < |m.levels| == |h.fifos| && j < |h.fifos[b]| && h.fifos[b][j] == block
       && m.orders[block].order.side == side && m.orders[block].order.price == m.levels[b].price
       && m.slots[SlotIndex(m.levels[b].price, priceLevels)] == b
  }

  /** Every order in use has a location. */
  lemma {:induction false} Locate(m: Store, h: Shape, priceLevels: nat, block: nat) returns (k: nat, j: nat)
    requires Linked(m, h, priceLevels) && block < |h.home| && h.home[block] != NULL
    ensures Located(m, h, priceLevels, block, m.orders[block].order.side, k, j)
  {
    var b := h.home[block];
    var side := if b in h.bids then Buy else Sell;
    LevelsOk(m, h, side);
    SlotKnows(m, h, priceLevels, side);
    assert b in h.Ring(side) && block in h.fifos[b];
    k :| 0 <= k < |h.Ring(side)| && h.Ring(side)[k] == b;
    j :| 0 <= j < |h.fifos[b]| && h.fifos[b][j] == block;
  }

  lemma {:induction false} LocatedParts(m: Store, h: Shape, priceLevels: nat, block: nat, side: Side, k: nat, j: nat)
    requires Linked(m, h, priceLevels) && Located(m, h, priceLevels, block, side, k, j)
    ensures 0 < priceLevels == |m.slots| == |m.levels| == |h.fifos| && block < |m.orders| == |h.home|
    ensures k < |h.Ring(side)| && h.Ring(side)[k] < |m.levels| && side != NoSide
    ensures LevelRing(m.levels, h.Ring(side)) && m.Head(side) == h.Ring(side)[0]
    ensures m.levels[h.Ring(side)[k]].price == m.orders[block].order.price && m.orders[block].order.side == side
    ensures m.slots[SlotIndex(m.orders[block].order.price, priceLevels)] == h.Ring(side)[k]
  {
    LinkedParts(m, h, priceLevels, side);
  }

  lemma {:induction false} LocatedFlat(m: Store, h: Shape, priceLevels: nat, block: nat, side: Side, k: nat, j: nat)
    requires Linked(m, h, priceLevels) && Located(m, h, priceLevels, block, side, k, j)
    ensures var ls := LevelsOf(m, h, side);
            && k < |ls| && j < |ls[k].orders| == |h.fifos[h.Ring(side)[k]]| && ls[k].orders[j] == m.orders[block].order
            && FlatOf(m, h, priceLevels).On(side) == Flatten(ls)
  {
    hide LevelRing, OrderRing, SlotsOk, HomesOk, Descending;
  }

  /** An order linked to itself is alone in its level. */
  lemma {:induction false} AloneInLevel(m: Store, h: Shape, priceLevels: nat, block: nat, side: Side, k: nat)
    requires Located(m, h, priceLevels, block, side, k, 0) && m.orders[block].prev == block
    ensures h.fifos[h.Ring(side)[k]] == [block]
  {
    var f := h.fifos[h.Ring(side)[k]];
    QueueLinks(m, h, side, h.Ring(side)[k]);
    assert f[|f| - 1] == f[0];
    assert |f| == 1;
  }

  ghost function Unseated1(h: Shape, side: Side, k: nat, block: nat): Shape
    requires k < |h.Ring(side)| && h.Ring(side)[k] < |h.fifos| && block < |h.home|
  {
    h.WithRing(side, Dropped(h.Ring(side), k)).(fifos := h.fifos[h.Ring(side)[k] := []], home := h.home[block := NULL])
  }

  /** Which blocks are in use after a level was dropped. */
  lemma {:induction false} UnseatedRings(m: Store, h: Shape, priceLevels: nat, side: Side, k: nat, block: nat,
          used: set<nat>)
    requires Linked(m, h, priceLevels) && side != NoSide
    requires k < |h.Ring(side)| && h.Ring(side)[k] < |h.fifos| && block < |h.home| && LevelsMatch(used, h)
    ensures h.Ring(side)[k] in used
    ensures LevelsMatch(used - {h.Ring(side)[k]}, Unseated1(h, side, k, block))
  {
    assert SideOk(m, h, Buy) && SideOk(m, h, Sell) && Sized(m, h, priceLevels);
    SidesApart(m, h, side);
    assert h.Ring(side)[k] in h.Ring(side) && h.Ring(side)[k] !in h.Ring(Opposite(side));
    hide Linked, SideOk, SlotsOk, HomesOk;
    DroppedHas(h.Ring(side), priceLevels, k);
  }

  lemma {:induction false} DroppedOk(m: Store, h: Shape, mid: Store, n: Store, priceLevels: nat, block: nat,
          side: Side, k: nat)
    requires Linked(m, h, priceLevels) && Located(m, h, priceLevels, block, side, k, 0)
    requires h.fifos[h.Ring(side)[k]] == [block] && DistinctIds(FlatOf(m, h, priceLevels).On(side))
    requires mid == m.(orders := m.orders[block := m.orders[block].(prev := NULL, next := NULL)])
    requires LevelUnlinked(mid, n, priceLevels, side, h.Ring(side), k)
    ensures Cut(m, h, n, Unseated1(h, side, k, block), priceLevels, block)
  {
    hide *;
    LocatedParts(m, h, priceLevels, block, side, k, 0);
    LinkedParts(m, h, priceLevels, side);
    LocatedFlat(m, h, priceLevels, block, side, k, 0);
    var g := Unseated1(h, side, k, block);
    var ls := LevelsOf(m, h, side);
    DroppedUnseated(m, h, mid, n, priceLevels, block, side, k);
    UnseatedOk(m, h, n, g, priceLevels, side, k, block);
    TakeOutFlat(ls, k, 0);
    CutFrom(m, h, n, g, priceLevels, block);
  }

  lemma {:induction false} DroppedUnseated(m: Store, h: Shape, mid: Store, n: Store, priceLevels: nat, block: nat,
          side: Side, k: nat)
    requires Sized(m, h, priceLevels) && Located(m, h, priceLevels, block, side, k, 0)
    requires h.fifos[h.Ring(side)[k]] == [block]
    requires mid == m.(orders := m.orders[block := m.orders[block].(prev := NULL, next := NULL)])
    requires LevelUnlinked(mid, n, priceLevels, side, h.Ring(side), k)
    ensures Unseated(m, h, n, Unseated1(h, side, k, block), priceLevels, side, k, block)
    ensures Unseated1(h, side, k, block).home == h.home[block := NULL] && n.orders == mid.orders
  {
    hide LevelRing, Dropped, SlotIndex, LevelOk, Distinct;
  }

  lemma {:induction false} CutMatch(h: Shape, g: Shape, block: nat, used: set<nat>)
    requires OrdersMatch(used, h) && block < |h.home| && g.home == h.home[block := NULL]
    ensures h.home[block] != NULL ==> block in used
    ensures OrdersMatch(used - {block}, g)
  {
  }

  /** The links around an order that is not alone. */
  lemma {:induction false} LocatedLinks(m: Store, h: Shape, priceLevels: nat, block: nat, side: Side, k: nat, j: nat)
    requires Located(m, h, priceLevels, block, side, k, j)
    ensures var f := h.fifos[h.Ring(side)[k]];
            && Distinct(f, |m.orders|) && j < |f| && f[j] == block
            && m.orders[block].prev == f[if j == 0 then |f| - 1 else j - 1]
            && m.orders[block].next == f[Wrap(j, |f|)]
            && m.levels[h.Ring(side)[k]].first == f[0]
            && (m.orders[block].prev == block <==> |f| == 1)
            && (f[0] == block <==> j == 0)
  {
    var f := h.fifos[h.Ring(side)[k]];
    assert OrderRing(m.orders, f);
    var n, p := Wrap(j, |f|), if j == 0 then |f| - 1 else j - 1;
    assert j == Wrap(p, |f|);
    assert OrderNexts(m.orders)[f[j]] == f[n] && OrderPrevs(m.orders)[f[j]] == f[p];
  }

  lemma {:induction false} FirstOfOne(m: Store, h: Shape, priceLevels: nat, block: nat, side: Side, k: nat, j: nat)
    requires Located(m, h, priceLevels, block, side, k, j) && m.orders[block].prev == block
    ensures j == 0
  {
    LocatedLinks(m, h, priceLevels, block, side, k, j);
  }

  ghost function Left(h: Shape, side: Side, k: nat, j: nat, block: nat): Shape
    requires k < |h.Ring(side)| && h.Ring(side)[k] < |h.fifos| && j < |h.fifos[h.Ring(side)[k]]| && block < |h.home|
  {
    var b := h.Ring(side)[k];
    h.(fifos := h.fifos[b := Dropped(h.fifos[b], j)], home := h.home[block := NULL])
  }

  lemma {:induction false} LeftRings(h: Shape, side: Side, k: nat, j: nat, block: nat, used: set<nat>)
    requires k < |h.Ring(side)| && h.Ring(side)[k] < |h.fifos| && j < |h.fifos[h.Ring(side)[k]]| && block < |h.home|
    requires LevelsMatch(used, h)
    ensures LevelsMatch(used, Left(h, side, k, j, block))
  {
  }

  /** The order blocks after `block` was chained out. */
  ghost predicate Unchained(was: seq<OrderNode>, now: seq<OrderNode>, block: nat, p: nat, q: nat)
    requires block < |was| && p < |was| && q < |was|
  {
    && |now| == |was| && now[p].next == q && now[q].prev == p
    && (forall x | 0 <= x < |was| :: now[x].order == was[x].order)
    && (forall x | 0 <= x < |was| && x != block && x != p :: now[x].next == was[x].next)
    && (forall x | 0 <= x < |was| && x != block && x != q :: now[x].prev == was[x].prev)
  }

  lemma {:induction false} UnchainedIs(was: seq<OrderNode>, now: seq<OrderNode>, block: nat, p: nat, q: nat)
    requires block < |was| && p < |was| && q < |was| && p != block && q != block
    requires var one := was[block := was[block].(prev := NULL, next := NULL)];
             var two := one[p := one[p].(next := q)];
             now == two[q := two[q].(prev := p)]
    ensures Unchained(was, now, block, p, q)
  {
  }

  lemma {:induction false} LeftOk(m: Store, h: Shape, n: Store, priceLevels: nat, block: nat, side: Side, k: nat,
          j: nat)
    requires Linked(m, h, priceLevels) && Located(m, h, priceLevels, block, side, k, j)
    requires 2 <= |h.fifos[h.Ring(side)[k]]| && DistinctIds(FlatOf(m, h, priceLevels).On(side))
    requires m.orders[block].prev >= 0 && m.orders[block].next >= 0
    requires m.orders[block].prev < |m.orders| && m.orders[block].next < |m.orders|
    requires Unchained(m.orders, n.orders, block, m.orders[block].prev, m.orders[block].next)
    requires var b := h.Ring(side)[k];
             && n == m.(orders := n.orders, levels := n.levels)
             && n.levels == m.levels[b := m.levels[b].(first := if m.levels[b].first == block
                   then m.orders[block].next else m.levels[b].first)]
    ensures Cut(m, h, n, Left(h, side, k, j, block), priceLevels, block)
  {
    hide *;
    LocatedParts(m, h, priceLevels, block, side, k, j);
    LinkedParts(m, h, priceLevels, side);
    LocatedLinks(m, h, priceLevels, block, side, k, j);
    LocatedFlat(m, h, priceLevels, block, side, k, j);
    var g := Left(h, side, k, j, block);
    var ls := LevelsOf(m, h, side);
    LeftUnqueued(m, h, n, priceLevels, block, side, k, j);
    UnqueueOk(m, h, n, g, priceLevels, side, k, j);
    TakeOutFlat(ls, k, j);
    CutFrom(m, h, n, g, priceLevels, block);
  }

  lemma {:induction false} LeftUnqueued(m: Store, h: Shape, n: Store, priceLevels: nat, block: nat, side: Side,
          k: nat, j: nat)
    requires Located(m, h, priceLevels, block, side, k, j) && 2 <= |h.fifos[h.Ring(side)[k]]|
    requires m.orders[block].prev >= 0 && m.orders[block].next >= 0
    requires m.orders[block].prev < |m.orders| && m.orders[block].next < |m.orders|
    requires Unchained(m.orders, n.orders, block, m.orders[block].prev, m.orders[block].next)
    requires var b := h.Ring(side)[k];
             && n == m.(orders := n.orders, levels := n.levels)
             && n.levels == m.levels[b := m.levels[b].(first := if m.levels[b].first == block
                   then m.orders[block].next else m.levels[b].first)]
    ensures var b := h.Ring(side)[k];
            LevelOk(m, h, side, b) && Distinct(h.fifos[b], |m.orders|) && Unqueued(m, h, n, b, j)
    ensures var b := h.Ring(side)[k];
            Left(h, side, k, j, block) == h.(fifos := h.fifos[b := Dropped(h.fifos[b], j)],
                home := h.home[h.fifos[b][j] := NULL])
    ensures |n.orders| == |m.orders| && forall x | 0 <= x < |m.orders| && x != block ::
            n.orders[x].order == m.orders[x].order
    ensures Left(h, side, k, j, block).home == h.home[block := NULL]
  {
    LocatedLinks(m, h, priceLevels, block, side, k, j);
    hide LevelOk, OrderRing, Distinct, SlotIndex, Dropped;
  }

  lemma {:induction false} ResizedOk(m: Store, h: Shape, n: Store, priceLevels: nat, block: nat, qty: nat)
    requires Linked(m, h, priceLevels) && block < |m.orders| == |h.home| && h.home[block] != NULL
    requires DistinctIds(FlatOf(m, h, priceLevels).On(m.orders[block].order.side))
    requires n == m.(orders := m.orders[block := m.orders[block].(order := m.orders[block].order.(qty := qty))])
    ensures Linked(n, h, priceLevels)
    ensures FlatOf(n, h, priceLevels) == Resized(FlatOf(m, h, priceLevels), m.orders[block].order, qty)
  {
    hide *;
    var o := m.orders[block].order;
    var k, j := Locate(m, h, priceLevels, block);
    LocatedParts(m, h, priceLevels, block, o.side, k, j);
    LinkedParts(m, h, priceLevels, o.side);
    LocatedLinks(m, h, priceLevels, block, o.side, k, j);
    LocatedFlat(m, h, priceLevels, block, o.side, k, j);
    var ls := LevelsOf(m, h, o.side);
    LocatedLevel(m, h, priceLevels, block, o.side, k, j);
    ResizeOk(m, h, n, priceLevels, o.side, k, j, qty);
    ResizeFlat(ls, k, j, qty);
    ResizedFrom(m, h, n, priceLevels, o, qty);
  }

  lemma {:induction false} LocatedLevel(m: Store, h: Shape, priceLevels: nat, block: nat, side: Side, k: nat, j: nat)
    requires Located(m, h, priceLevels, block, side, k, j)
    ensures LevelOk(m, h, side, h.Ring(side)[k])
  {
  }

  lemma {:induction false} ResizedFrom(m: Store, h: Shape, n: Store, priceLevels: nat, o: Order, qty: nat)
    requires Linked(m, h, priceLevels) && Linked(n, h, priceLevels) && o.side != NoSide
    requires LevelsOf(n, h, Opposite(o.side)) == LevelsOf(m, h, Opposite(o.side))
    requires Flatten(LevelsOf(n, h, o.side)) == Requantify(Flatten(LevelsOf(m, h, o.side)), o.id, qty)
    ensures FlatOf(n, h, priceLevels) == Resized(FlatOf(m, h, priceLevels), o, qty)
  {
    hide Linked, Flatten, LevelsOf, Requantify;
  }

  /** The first order of the first level is the first of the flat side. */
  lemma {:induction false} BestFlat(m: Store, h: Shape, priceLevels: nat, side: Side)
    requires Linked(m, h, priceLevels) && side != NoSide
    ensures (m.Head(side) == NULL) <==> FlatOf(m, h, priceLevels).On(side) == []
    ensures m.Head(side) != NULL ==>
              && 0 <= m.Head(side) < |m.levels|
              && var x := m.levels[m.Head(side)].first;
                 && 0 <= x < |m.orders| == |h.home| && h.home[x] != NULL
                 && m.orders[x].order == FlatOf(m, h, priceLevels).On(side)[0]
                 && m.orders[x].order.price == m.levels[m.Head(side)].price
  {
    var r := h.Ring(side);
    assert SideOk(m, h, side);
    var ls := LevelsOf(m, h, side);
    if r != [] {
      assert LevelOk(m, h, side, r[0]);
      QueueLinks(m, h, side, r[0]);
      assert ls[0].orders[0] == m.orders[h.fifos[r[0]][0]].order;
      assert h.fifos[r[0]][0] in h.fifos[r[0]];
      FlattenHead(ls);
    }
  }

  /** A price is aliased exactly if its slot holds a level at another price. */
  lemma {:induction false} AliasedSlot(m: Store, h: Shape, priceLevels: nat, price: nat)
    requires Linked(m, h, priceLevels)
    ensures 0 < priceLevels == |m.slots|
    ensures var b, book := m.slots[SlotIndex(price, priceLevels)], FlatOf(m, h, priceLevels);
            && (b != NULL ==> 0 <= b < |m.levels|)
            && (Aliased(priceLevels, book.bids, price) || Aliased(priceLevels, book.asks, price)
                <==> b != NULL && m.levels[b].price != price)
  {
    hide Linked, FlatOf, Located;
    LinkedParts(m, h, priceLevels, Buy);
    hide Sized, SlotsOk, HomesOk, SideOk, LevelRing, Descending;
    var b, book := m.slots[SlotIndex(price, priceLevels)], FlatOf(m, h, priceLevels);
    if b != NULL {
      var x := SlotInFlat(m, h, priceLevels, SlotIndex(price, priceLevels));
    }
    if o :| book.Has(o) && o.price % priceLevels == price % priceLevels && o.price != price {
      var x := FlatLocated(m, h, priceLevels, o);
      var k, j := Locate(m, h, priceLevels, x);
      LocatedParts(m, h, priceLevels, x, o.side, k, j);
    }
  }

  /** The levels whose slots are not below `i`. */
  ghost predicate Above(m: Store, h: Shape, priceLevels: nat, i: nat, used: set<nat>)
    requires Sized(m, h, priceLevels)
  {
    forall b: nat :: b in used <==> (b in h.bids || b in h.asks) && i <= SlotIndex(m.levels[b].price, priceLevels)
  }

  lemma {:induction false} SlotsStay(m: Store, n: Store, h: Shape, priceLevels: nat)
    requires Sized(m, h, priceLevels) && SlotsOk(m, h, priceLevels)
    requires n == m.(orders := n.orders) && |n.orders| == |m.orders|
    ensures Sized(n, h, priceLevels) && SlotsOk(n, h, priceLevels)
  {
    hide SlotIndex;
  }

  lemma {:induction false} SlotsAbove(m: Store, h: Shape, priceLevels: nat, used: set<nat>)
    requires Sized(m, h, priceLevels) && LevelsMatch(used, h)
    ensures Above(m, h, priceLevels, 0, used)
  {
    hide SlotIndex;
  }

  lemma {:induction false} SlotFreed(m: Store, h: Shape, priceLevels: nat, i: nat, used: set<nat>)
    requires Sized(m, h, priceLevels) && SlotsOk(m, h, priceLevels) && i < priceLevels
             && Above(m, h, priceLevels, i, used)
    ensures m.slots[i] == NULL ==> Above(m, h, priceLevels, i + 1, used)
    ensures m.slots[i] != NULL ==> m.slots[i] in used && Above(m, h, priceLevels, i + 1, used - {m.slots[i]})
  {
    hide SlotIndex, Distinct;
    SlotKnows(m, h, priceLevels, Buy);
    SlotKnows(m, h, priceLevels, Sell);
  }

  lemma {:induction false} NothingAbove(m: Store, h: Shape, priceLevels: nat, used: set<nat>)
    requires Sized(m, h, priceLevels) && Above(m, h, priceLevels, priceLevels, used)
    ensures used == {}
  {
  }

  /** A store without heads and slots is an empty book. */
  lemma {:induction false} EmptyLinked(m: Store, h: Shape, priceLevels: nat)
    requires 0 < priceLevels == |m.slots| == |m.levels| && m.bids == m.asks == NULL
    requires h == Shape([], [], seq(priceLevels, _ => []), seq(|m.orders|, _ => NULL))
    requires forall j | 0 <= j < |m.slots| :: m.slots[j] == NULL
    ensures Linked(m, h, priceLevels) && FlatOf(m, h, priceLevels) == EMPTY_BOOK
    ensures LevelsMatch({}, h) && OrdersMatch({}, h)
  {
  }

  /** Every order of a flat side is of that side. */
  lemma {:induction false} FlatSide(m: Store, h: Shape, priceLevels: nat, side: Side, o: Order)
    requires Linked(m, h, priceLevels) && side != NoSide && o in FlatOf(m, h, priceLevels).On(side)
    ensures o.side == side
  {
    hide Linked, LevelsOf, Flatten;
    LinkedParts(m, h, priceLevels, side);
    hide Sized, SlotsOk, HomesOk, SideOk, LevelRing, Descending;
    LevelsGraded(m, h, side);
    FlattenHas(LevelsOf(m, h, side), o);
  }

  lemma {:induction false} LocatedHas(m: Store, h: Shape, priceLevels: nat, block: nat, side: Side, k: nat, j: nat)
    requires Linked(m, h, priceLevels) && Located(m, h, priceLevels, block, side, k, j)
    ensures side != NoSide && block < |m.orders| && m.orders[block].order in FlatOf(m, h, priceLevels).On(side)
  {
    hide *;
    LocatedParts(m, h, priceLevels, block, side, k, j);
    LinkedParts(m, h, priceLevels, side);
    LocatedFlat(m, h, priceLevels, block, side, k, j);
    var ls := LevelsOf(m, h, side);
    assert m.orders[block].order in ls[k].orders;
    FlattenHas(ls, m.orders[block].order);
  }

  lemma {:induction false} FlatLocated(m: Store, h: Shape, priceLevels: nat, o: Order) returns (x: nat)
    requires Linked(m, h, priceLevels) && FlatOf(m, h, priceLevels).Has(o)
    ensures x < |h.home| == |m.orders| && h.home[x] != NULL && m.orders[x].order == o
  {
    hide Linked, Flatten, LevelsOf;
    LinkedParts(m, h, priceLevels, Buy);
    hide Sized, SlotsOk, HomesOk, SideOk, LevelRing;
    var side := if o in FlatOf(m, h, priceLevels).bids then Buy else Sell;
    var ls := LevelsOf(m, h, side);
    FlattenHas(ls, o);
    var i :| 0 <= i < |ls| && o in ls[i].orders;
    x := QueuedBlock(m, h, side, i, o);
  }

  lemma {:induction false} QueuedBlock(m: Store, h: Shape, side: Side, i: nat, o: Order) returns (x: nat)
    requires SideOk(m, h, side) && side != NoSide && i < |LevelsOf(m, h, side)| && o in LevelsOf(m, h, side)[i].orders
    ensures x < |h.home| == |m.orders| && h.home[x] != NULL && m.orders[x].order == o
  {
    hide LevelRing, Descending;
    var b := h.Ring(side)[i];
    assert LevelOk(m, h, side, b);
    QueueLinks(m, h, side, b);
    hide OrderRing;
    var f := h.fifos[b];
    var j :| 0 <= j < |f| && Queue(m, f)[j] == o;
    assert f[j] in f;
    x := f[j];
  }

  /** Where the walk stopped is the place of the new price. */
  lemma {:induction false} PlaceAt(levels: seq<LevelNode>, side: Side, r: seq<nat>, price: nat, i: nat)
    requires LevelRing(levels, r) && Descending(levels, side, r) && side != NoSide && i < |r|
    requires forall j | 0 <= j < i :: Better(side, levels[r[j]].price, price)
    requires Better(side, levels[r[i]].price, price) ==> i == |r| - 1
    requires forall c | c in r :: levels[c].price != price
    ensures Place(levels, side, r, price, if Better(side, levels[r[i]].price, price) then |r| else i)
    ensures r[i] == r[0] ==> i == 0
  {
    assert r[i] in r;
    if !Better(side, levels[r[i]].price, price) {
      forall j | i <= j < |r| ensures Better(side, price, levels[r[j]].price) {
        assert j > i ==> Better(side, levels[r[i]].price, levels[r[j]].price);
      }
    }
  }
}
