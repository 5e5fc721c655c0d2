/** The client's copy of one book: the same linked store as the exchange's, found by
  * market order id, with a cached best bid and offer. Every market update is
  * proved to have the effect that module Replica gives it.
  */
module MarketBooks {
  import opened Types
  import opened PriceTime
  import opened Replica
  import opened LinkedBooks
  import opened BookStores
  import opened MemPools
  import L = Levels

  /** The best prices with the quantities offered at them. */
  datatype Bbo = Bbo(bidPrice: nat, askPrice: nat, bidQty: nat, askQty: nat)

  const NO_BBO := Bbo(INVALID_64, INVALID_64, 0, 0)

  /** All that is offered at the best price of a side, as the 32-bit sum it is kept in. */
  function TopQty(s: seq<Order>): nat {
    if s == [] then 0 else TotalQty(s[..RunLength(s)]) % 0x1_0000_0000
  }

  function RunLength(s: seq<Order>): (n: nat)
    requires s != []
    ensures n <= |s|
  {
    RunBound(s, s[0].price);
    L.LeadingRun(s, s[0].price)
  }

  lemma {:induction false} RunBound(s: seq<Order>, price: nat)
    ensures L.LeadingRun(s, price) <= |s|
  {
    if s != [] {
      RunBound(s[1..], price);
    }
  }

  function TopPrice(s: seq<Order>): nat {
    if s == [] then INVALID_64 else s[0].price
  }

  function BboOf(b: Book): Bbo {
    Bbo(TopPrice(b.bids), TopPrice(b.asks), TopQty(b.bids), TopQty(b.asks))
  }

  // ---------- what the best prices are ----------

  /** Everything offered at one price of a side. */
  function QtyAt(s: seq<Order>, price: nat): nat {
    if s == [] then 0 else (if s[0].price == price then s[0].qty else 0) + QtyAt(s[1..], price)
  }

  /** The highest bid and the lowest ask, each with everything offered there, kept in 32 bits; an
    * empty side has no price and offers nothing.
    */
  ghost predicate BestOffers(b: Book, q: Bbo) {
    && (if b.bids == [] then q.bidPrice == INVALID_64 && q.bidQty == 0
        else (forall o | o in b.bids :: o.price <= q.bidPrice) && (exists o :: o in b.bids && o.price == q.bidPrice)
             && q.bidQty == QtyAt(b.bids, q.bidPrice) % 0x1_0000_0000)
    && (if b.asks == [] then q.askPrice == INVALID_64 && q.askQty == 0
        else (forall o | o in b.asks :: q.askPrice <= o.price) && (exists o :: o in b.asks && o.price == q.askPrice)
             && q.askQty == QtyAt(b.asks, q.askPrice) % 0x1_0000_0000)
  }

  /** No order stands before one with a better price. */
  ghost predicate BestFirst(side: Side, s: seq<Order>) {
    forall i, j | 0 <= i < j < |s| :: if side == Buy then s[j].price <= s[i].price else s[i].price <= s[j].price
  }

  lemma {:induction false} BestFirstTail(side: Side, s: seq<Order>)
    requires BestFirst(side, s) && s != []
    ensures BestFirst(side, s[1..])
    ensures forall o | o in s :: if side == Buy then o.price <= s[0].price else s[0].price <= o.price
  {
    forall o | o in s ensures if side == Buy then o.price <= s[0].price else s[0].price <= o.price {
      var i :| 0 <= i < |s| && s[i] == o;
    }
  }

  lemma {:induction false} NothingAt(s: seq<Order>, price: nat)
    requires forall o | o in s :: o.price != price
    ensures QtyAt(s, price) == 0
  {
    if s != [] {
      assert s[0] in s;
      NothingAt(s[1..], price);
    }
  }

  /** At a price nothing beats, everything offered stands at the front. */
  lemma {:induction false} RunIsAll(side: Side, s: seq<Order>, price: nat)
    requires side != NoSide && BestFirst(side, s)
    requires forall o | o in s :: if side == Buy then o.price <= price else price <= o.price
    ensures L.LeadingRun(s, price) <= |s| && TotalQty(s[..L.LeadingRun(s, price)]) == QtyAt(s, price)
  {
    if s != [] {
      BestFirstTail(side, s);
      assert s[0] in s;
      if s[0].price == price {
        RunIsAll(side, s[1..], price);
        var n := L.LeadingRun(s, price);
        assert s[..n][1..] == s[1..][..n - 1];
      } else {
        NothingAt(s, price);
      }
    }
  }

  lemma {:induction false} TopIsBest(side: Side, s: seq<Order>)
    requires side != NoSide && BestFirst(side, s)
    ensures s == [] ==> TopPrice(s) == INVALID_64 && TopQty(s) == 0
    ensures s != [] ==> s[0] in s && s[0].price == TopPrice(s) && TopQty(s) == QtyAt(s, TopPrice(s)) % 0x1_0000_0000
    ensures forall o | o in s :: if side == Buy then o.price <= TopPrice(s) else TopPrice(s) <= o.price
  {
    if s != [] {
      BestFirstTail(side, s);
      RunIsAll(side, s, s[0].price);
    }
  }

  /** On every book kept in price order the cached prices and quantities are the best offers. */
  lemma {:induction false} BboIsBest(b: Book)
    requires BestFirst(Buy, b.bids) && BestFirst(Sell, b.asks)
    ensures BestOffers(b, BboOf(b))
  {
    hide TopPrice, TopQty, QtyAt, BestFirst;
    TopIsBest(Buy, b.bids);
    TopIsBest(Sell, b.asks);
  }

  lemma {:induction false} FlattenBestFirst(side: Side, ls: seq<L.Level>)
    requires side != NoSide && L.Graded(side, ls)
    ensures BestFirst(side, L.Flatten(ls))
  {
    hide L.Graded;
    if ls != [] {
      L.GradedTail(side, ls);
      FlattenBestFirst(side, ls[1..]);
      var q, t := ls[0].orders, L.Flatten(ls[1..]);
      var s: seq<Order> := q + t;
      forall i, j | 0 <= i < j < |s| ensures if side == Buy then s[j].price <= s[i].price else s[i].price <= s[j].price
      {
        if j < |q| {
          HeadPrice(side, ls, i);
          HeadPrice(side, ls, j);
        } else if i < |q| {
          HeadPrice(side, ls, i);
          assert ls[1..|ls|] == ls[1..] && s[j] == t[j - |q|] && t[j - |q|] in t;
          L.FlattenPrices(side, ls, 1, |ls|, t[j - |q|]);
          LaterPrice(side, ls, t[j - |q|]);
        } else {
          assert s[i] == t[i - |q|] && s[j] == t[j - |q|];
        }
      }
    }
  }

  lemma {:induction false} HeadPrice(side: Side, ls: seq<L.Level>, i: nat)
    requires L.Graded(side, ls) && ls != [] && i < |ls[0].orders|
    ensures ls[0].orders[i].price == ls[0].price
  {
  }

  lemma {:induction false} LaterPrice(side: Side, ls: seq<L.Level>, x: Order)
    requires side != NoSide && L.Graded(side, ls) && exists i :: 1 <= i < |ls| && ls[i].price == x.price
    ensures if side == Buy then x.price <= ls[0].price else ls[0].price <= x.price
  {
    var i :| 1 <= i < |ls| && ls[i].price == x.price;
    assert Better(side, ls[0].price, ls[i].price);
  }

  lemma {:induction false} StoreBestFirst(m: Store, h: Shape, priceLevels: nat, side: Side)
    requires Linked(m, h, priceLevels) && side != NoSide
    ensures BestFirst(side, FlatOf(m, h, priceLevels).On(side))
  {
    hide Linked, LevelsOf, L.Flatten, BestFirst;
    LinkedParts(m, h, priceLevels, side);
    hide Sized, SlotsOk, HomesOk, SideOk, LevelRing, Descending;
    LevelsGraded(m, h, side);
    FlattenBestFirst(side, LevelsOf(m, h, side));
  }

  class MarketOrderBook {
    const cfg: Config
    const store: BookStore
    const table: array<int>
    var bbo: Bbo

    ghost function Repr(): set<object> {
      {this, table, store, store.levelPool, store.levelPool.isFree, store.orderPool, store.orderPool.isFree}
    }

    /** The table knows exactly the live orders. */
    ghost predicate Indexed()
      reads table, store
    {
      && |store.orders| == |store.shape.home|
      && (forall i | 0 <= i < table.Length && table[i] != NULL ::
            && 0 <= table[i] < |store.orders| && store.Live(table[i]) && store.orders[table[i]].order.id == i)
      && (forall x: nat | store.Live(x) ::
            store.orders[x].order.id < table.Length && table[store.orders[x].order.id] == x)
    }

    /** Everything but the cached best prices. */
    ghost predicate Stored()
      reads Repr()
    {
      && cfg.Valid() && store.Valid() && store.priceLevels == cfg.priceLevels
      && table.Length == cfg.orderIds <= |store.orders|
      && Indexed()
      && L.DistinctIds(store.Flat().bids) && L.DistinctIds(store.Flat().asks)
    }

    ghost predicate Valid()
      reads Repr()
    {
      Stored() && bbo == BboOf(store.Flat())
    }

    /** The book as the market data describes it. */
    ghost function Flat(): Book
      requires Valid()
      reads Repr()
    {
      store.Flat()
    }

    /** The links of the store alone put the best prices first. */
    lemma {:induction false} BboIs()
      requires Valid()
      ensures bbo == BboOf(Flat()) && BestOffers(Flat(), bbo)
    {
      hide Linked, FlatOf, BestFirst, BestOffers, Indexed, L.DistinctIds;
      StoreBestFirst(store.Mem(), store.shape, store.priceLevels, Buy);
      StoreBestFirst(store.Mem(), store.shape, store.priceLevels, Sell);
      BboIsBest(Flat());
    }

    constructor (cfg: Config)
      requires cfg.Valid()
      ensures Valid() && this.cfg == cfg && Flat() == EMPTY_BOOK && fresh(Repr())
    {
      hide Linked, FlatOf;
      this.cfg := cfg;
      store := new BookStore(cfg.priceLevels, cfg.orderIds);
      table := new int[cfg.orderIds](_ => NULL);
      bbo := NO_BBO;
    }

    /** An id without an entry in the table is not in the book. */
    lemma {:induction false} Unknown(id: nat)
      requires Stored() && (id < table.Length ==> table[id] == NULL)
      ensures forall y | store.Flat().Has(y) :: y.id != id
    {
      hide Linked, FlatOf, L.DistinctIds, BookStore.LevelsPooled, BookStore.OrdersPooled;
      forall y | store.Flat().Has(y) ensures y.id != id {
        store.LiveFlat(y);
      }
    }

    /** An id with an entry names one order of the book, on its own side only. */
    lemma {:induction false} Known(id: nat)
      requires Stored() && id < table.Length && table[id] != NULL
      ensures 0 <= table[id] < |store.orders| && store.Live(table[id])
      ensures var o := store.orders[table[id]].order;
              && o.side != NoSide && o.id == id && o in store.Flat().On(o.side)
              && (forall y | y in store.Flat().On(Opposite(o.side)) :: y.id != id)
    {
      hide Linked, FlatOf, L.DistinctIds, BookStore.LevelsPooled, BookStore.OrdersPooled;
      var o := store.orders[table[id]].order;
      store.LiveSide(table[id]);
      forall y | y in store.Flat().On(Opposite(o.side)) ensures y.id != id {
        store.LiveFlat(y);
        FlatSide(store.Mem(), store.shape, store.priceLevels, Opposite(o.side), y);
      }
    }

    /** CANCEL of an order id in range. */
    method Cancel(u: MarketUpdate)
      requires Stored() && u.kind == UpdateKind.Cancel && u.orderId < cfg.orderIds
      modifies Repr()
      ensures Stored() && store.Flat() == Apply(cfg, old(store.Flat()), u)
    {
      hide Linked, FlatOf, L.DistinctIds, BookStore.LevelsPooled, BookStore.OrdersPooled, Remove;
      ghost var b := store.Flat();
      var block := table[u.orderId];
      if block != NULL {
        Known(u.orderId);
        CancelIs(cfg, b, u, store.orders[block].order);
        store.RemoveOrder(block);
        table[u.orderId] := NULL;
      } else {
        Unknown(u.orderId);
        CancelNone(cfg, b, u);
      }
    }

    /** MODIFY of an order id in range. */
    method Modify(u: MarketUpdate)
      requires Stored() && u.kind == UpdateKind.Modify && u.orderId < cfg.orderIds
      modifies store
      ensures Stored() && store.Flat() == Apply(cfg, old(store.Flat()), u)
    {
      hide Linked, FlatOf, L.DistinctIds, BookStore.LevelsPooled, BookStore.OrdersPooled, Requantify;
      ghost var b := store.Flat();
      var block := table[u.orderId];
      if block != NULL {
        Known(u.orderId);
        ModifyIs(cfg, b, u, store.orders[block].order);
        store.SetQty(block, u.qty);
      } else {
        Unknown(u.orderId);
        ModifyNone(cfg, b, u);
      }
    }

    /** Live ids are distinct and below the size of the table, so an absent id in
      * range always finds a block for its order.
      */
    lemma {:induction false} RoomForOrder(id: nat)
      requires Stored() && id < table.Length && table[id] == NULL
      ensures 0 < store.orderPool.freeCount
    {
      hide Linked, FlatOf, L.DistinctIds, BookStore.LevelsPooled;
      var used := store.orderPool.Allocated();
      assert forall x | x in used :: store.Live(x);
      var m := map x | x in used :: store.orders[x].order.id;
      Pigeonhole(m, cfg.orderIds, id);
      assert m.Keys == used;
    }

    /** ADD: dropped when the id is out of range or the price aliases a live level,
      * queued otherwise.
      */
    method Add(u: MarketUpdate) returns (dropped: bool)
      requires Stored() && u.kind == UpdateKind.Add && (u.orderId < cfg.orderIds ==> Landable(cfg, store.Flat(), u))
      modifies Repr()
      ensures Stored() && store.Flat() == Apply(cfg, old(store.Flat()), u)
      ensures bbo == old(bbo) && (dropped ==> store.Flat() == old(store.Flat()))
    {
      hide Linked, FlatOf, L.DistinctIds, BookStore.LevelsPooled, BookStore.OrdersPooled, Insert, Aliased,
           LinkedBooks.SlotIndex;
      ghost var b := store.Flat();
      if u.orderId >= cfg.orderIds {
        return true;
      }
      var aliased := store.AliasCheck(u.price);
      if aliased {
        return true;
      }
      dropped := false;
      if table[u.orderId] != NULL {
        Known(u.orderId);
      }
      RoomForOrder(u.orderId);
      forall o | o in b.On(u.side) ensures o.side == u.side {
        FlatSide(store.Mem(), store.shape, store.priceLevels, u.side, o);
      }
      AddIs(cfg, b, u);
      var ok, block := store.AddOrder(ToOrder(u));
      table[u.orderId] := block;
    }

    /** One entry of the table: its order, if it has one, goes back to the pool. */
    method FreeEntry(i: nat)
      requires store.orderPool.Valid() && i < table.Length
      requires table[i] != NULL ==> 0 <= table[i] < |store.orders| && table[i] in store.orderPool.Allocated()
      modifies store`orders, table, store.orderPool, store.orderPool.isFree
      ensures store.orderPool.Valid() && |store.orders| == old(|store.orders|)
      ensures forall j | 0 <= j < table.Length :: table[j] == if j == i then NULL else old(table[j])
      ensures store.orderPool.Allocated() == if old(table[i]) == NULL then old(store.orderPool.Allocated())
                                             else old(store.orderPool.Allocated()) - {old(table[i])}
    {
      if table[i] != NULL {
        var o := table[i];
        store.orders := store.orders[o := store.orders[o].(prev := NULL, next := NULL)];
        store.orderPool.Deallocate(o);
        table[i] := NULL;
      }
    }

    /** The loop of `clearBook` over the order table: every live order goes back to the pool. */
    method ClearOrders()
      requires Stored()
      modifies store`orders, table, store.orderPool, store.orderPool.isFree
      ensures store.orderPool.Valid() && store.orderPool.Allocated() == {}
      ensures |store.orders| == old(|store.orders|) && forall j | 0 <= j < table.Length :: table[j] == NULL
    {
      hide Linked, FlatOf, L.DistinctIds, BookStore.LevelsPooled, OrdersMatch, From;
      ghost var was, h, t, used := store.orders, store.shape, table[..], store.orderPool.Allocated();
      FromAll(was, h, t, used);
      var i := 0;
      while i < table.Length
        invariant 0 <= i <= table.Length == |t| && store.orderPool.Valid()
        invariant |store.orders| == |was|
        invariant From(was, t, i, store.orderPool.Allocated())
        invariant forall j | 0 <= j < table.Length :: table[j] == if j < i then NULL else t[j]
      {
        FromNext(was, t, i, store.orderPool.Allocated());
        FreeEntry(i);
        i := i + 1;
      }
      FromNone(was, t, store.orderPool.Allocated());
    }

    /** `clearBook`: nothing is left, and every block is free again. */
    method ClearBook()
      requires Stored()
      modifies Repr()
      ensures Stored() && store.Flat() == EMPTY_BOOK && bbo == NO_BBO
    {
      hide Linked, FlatOf, SlotsOk, Sized, LevelsMatch, OrdersMatch, Indexed;
      ghost var m := store.Mem();
      LinkedParts(m, store.shape, store.priceLevels, Buy);
      ClearOrders();
      SlotsStay(m, store.Mem(), store.shape, store.priceLevels);
      store.ClearLevels();
      NothingIndexed();
      bbo := NO_BBO;
    }

    lemma {:induction false} NothingIndexed()
      requires |store.orders| == |store.shape.home| && forall x: nat :: !store.Live(x)
      requires forall j | 0 <= j < table.Length :: table[j] == NULL
      ensures Indexed()
    {
    }

    /** The loop around a level's queue that sums its quantities in 32 bits. */
    method SumQueue(b: nat, ghost side: Side) returns (total: nat)
      requires b < |store.levels| && b < |store.shape.fifos|
      requires LevelOk(store.Mem(), store.shape, side, b) && Distinct(store.shape.fifos[b], |store.orders|)
      ensures total == TotalQty(Queue(store.Mem(), store.shape.fifos[b])) % 0x1_0000_0000
    {
      hide LevelOk, Queue, TotalQty;
      ghost var m, h := store.Mem(), store.shape;
      QueueLinks(m, h, side, b);
      ghost var f := h.fifos[b];
      ghost var q := Queue(m, f);
      var cur := store.levels[b].first;
      QueueStep(m, h, side, b, 0);
      SumStart(q);
      total := store.orders[cur].order.qty % 0x1_0000_0000;
      var it := store.orders[cur].next;
      ghost var i := 1;
      while it != cur
        invariant 1 <= i <= |f| == |q| && it == f[if i == |f| then 0 else i]
        invariant total == TotalQty(q[..i]) % 0x1_0000_0000
        decreases |f| - i
      {
        QueueStep(m, h, side, b, i);
        SumStep(q, i);
        total := (total + store.orders[it].order.qty) % 0x1_0000_0000;
        it := store.orders[it].next;
        i := i + 1;
      }
      assert q[..|q|] == q;
    }

    /** The best price of a side and what is offered there. */
    method BestOf(side: Side) returns (price: nat, total: nat)
      requires Linked(store.Mem(), store.shape, store.priceLevels) && side != NoSide
      ensures price == TopPrice(store.Flat().On(side)) && total == TopQty(store.Flat().On(side))
    {
      hide Linked, FlatOf, LevelOk, Queue, TopPrice, TopQty, TotalQty, Distinct;
      ghost var m, h := store.Mem(), store.shape;
      var head := if side == Buy then store.bids else store.asks;
      if head == NULL {
        TopNone(m, h, store.priceLevels, side);
        return INVALID_64, 0;
      }
      ghost var f, q := TopLevel(m, h, store.priceLevels, side);
      total := SumQueue(head, side);
      price := store.levels[head].price;
    }

    /** `updateBBO`: both sides are summed afresh. */
    method UpdateBbo()
      requires Stored()
      modifies this`bbo
      ensures Valid()
    {
      hide Indexed, L.DistinctIds, Linked, FlatOf, TopPrice, TopQty, BookStore.LevelsPooled, BookStore.OrdersPooled;
      var bidPrice, bidQty := BestOf(Buy);
      var askPrice, askQty := BestOf(Sell);
      bbo := Bbo(bidPrice, askPrice, bidQty, askQty);
    }

    /** One update of the feed: the book and its best prices are what they should be. */
    method OnMarketUpdate(u: MarketUpdate)
      requires Valid() && (u.kind == UpdateKind.Add && u.orderId < cfg.orderIds ==> Landable(cfg, Flat(), u))
      modifies Repr()
      ensures Valid() && Flat() == Apply(cfg, old(Flat()), u) && bbo == BboOf(Flat()) && BestOffers(Flat(), bbo)
    {
      hide Indexed, L.DistinctIds, Linked, FlatOf, TopPrice, TopQty, BookStore.LevelsPooled, BookStore.OrdersPooled,
           Insert, Remove, Requantify, Aliased, Landable, BestOffers;
      match u.kind {
        case Add =>
          var dropped := Add(u);
          if dropped {
            BboIs();
            return;
          }
        case Modify =>
          if u.orderId < cfg.orderIds {
            Modify(u);
          }
        case Cancel =>
          if u.orderId < cfg.orderIds {
            Cancel(u);
          }
        case Trade =>
        case Clear =>
          ClearBook();
        case SnapshotStart =>
          ClearBook();
        case SnapshotEnd =>
        case UnknownUpdate =>
          BboIs();
          return;
      }
      UpdateBbo();
      BboIs();
    }
  }

  /** The live orders are those of the table `t`, and `used` those of them from id `i` on. */
  ghost predicate From(orders: seq<OrderNode>, t: seq<int>, i: nat, used: set<nat>) {
    && (forall j | 0 <= j < |t| && t[j] != NULL :: 0 <= t[j] < |orders| && orders[t[j]].order.id == j)
    && (forall x: nat :: x in used <==> x < |orders| && i <= orders[x].order.id < |t| && t[orders[x].order.id] == x)
  }

  lemma {:induction false} FromAll(orders: seq<OrderNode>, h: Shape, t: seq<int>, used: set<nat>)
    requires OrdersMatch(used, h) && |orders| == |h.home|
    requires forall j | 0 <= j < |t| && t[j] != NULL ::
               0 <= t[j] < |orders| && h.home[t[j]] != NULL && orders[t[j]].order.id == j
    requires forall x: nat | x < |h.home| && h.home[x] != NULL :: orders[x].order.id < |t| && t[orders[x].order.id] == x
    ensures From(orders, t, 0, used)
  {
  }

  lemma {:induction false} FromNext(orders: seq<OrderNode>, t: seq<int>, i: nat, used: set<nat>)
    requires i < |t| && From(orders, t, i, used)
    ensures t[i] == NULL ==> From(orders, t, i + 1, used)
    ensures t[i] != NULL ==> 0 <= t[i] < |orders| && t[i] in used && From(orders, t, i + 1, used - {t[i]})
  {
  }

  lemma {:induction false} FromNone(orders: seq<OrderNode>, t: seq<int>, used: set<nat>)
    requires From(orders, t, |t|, used)
    ensures used == {}
  {
  }

  lemma {:induction false} TopNone(m: Store, h: Shape, priceLevels: nat, side: Side)
    requires Linked(m, h, priceLevels) && side != NoSide && m.Head(side) == NULL
    ensures TopPrice(FlatOf(m, h, priceLevels).On(side)) == INVALID_64
            && TopQty(FlatOf(m, h, priceLevels).On(side)) == 0
  {
    hide Linked, FlatOf;
    BestFlat(m, h, priceLevels, side);
  }

  /** The first level: its blocks, its orders, and what they mean for the best price. */
  lemma {:induction false} TopLevel(m: Store, h: Shape, priceLevels: nat, side: Side)
          returns (f: seq<nat>, q: seq<Order>)
    requires Linked(m, h, priceLevels) && side != NoSide && m.Head(side) != NULL
    ensures 0 <= m.Head(side) < |m.levels| && LevelOk(m, h, side, m.Head(side)) && m.Head(side) < |h.fifos|
    ensures f == h.fifos[m.Head(side)] && f != [] && Distinct(f, |m.orders|) && q == Queue(m, f)
    ensures m.levels[m.Head(side)].first == f[0]
    ensures TopPrice(FlatOf(m, h, priceLevels).On(side)) == m.levels[m.Head(side)].price
    ensures TopQty(FlatOf(m, h, priceLevels).On(side)) == TotalQty(q) % 0x1_0000_0000
  {
    hide Linked, TopPrice, TopQty, L.Flatten, LevelsOf;
    LinkedParts(m, h, priceLevels, side);
    hide Sized, SlotsOk, HomesOk, LevelRing, Descending, L.Graded;
    var r, ls := h.Ring(side), LevelsOf(m, h, side);
    assert LevelOk(m, h, side, r[0]);
    QueueLinks(m, h, side, r[0]);
    f := h.fifos[r[0]];
    q := Queue(m, f);
    LevelsGraded(m, h, side);
    TopOfLevels(side, ls);
    assert ls[0] == L.Level(m.levels[r[0]].price, q);
  }

  lemma {:induction false} TopOfLevels(side: Side, ls: seq<L.Level>)
    requires L.Graded(side, ls) && ls != [] && side != NoSide
    ensures TopPrice(L.Flatten(ls)) == ls[0].price
    ensures TopQty(L.Flatten(ls)) == TotalQty(ls[0].orders) % 0x1_0000_0000
  {
    hide TotalQty, L.LeadingRun;
    var s, q := L.Flatten(ls), ls[0].orders;
    L.FlattenHead(ls);
    L.FirstLevelRun(side, ls);
    assert s[..|q|] == q;
  }

  /** The link from the `j`-th order of a queue to the next, and back to the first only from the last. */
  lemma {:induction false} QueueStep(m: Store, h: Shape, side: Side, b: nat, j: nat)
    requires LevelOk(m, h, side, b) && j < |h.fifos[b]|
    ensures var f := h.fifos[b];
            && Distinct(f, |m.orders|) && m.orders[f[j]].next == f[Wrap(j, |f|)]
            && (f[j] == f[0] <==> j == 0) && Queue(m, f)[j] == m.orders[f[j]].order
  {
    var f := h.fifos[b];
    assert OrderRing(m.orders, f);
    var n := Wrap(j, |f|);
    assert OrderNexts(m.orders)[f[j]] == f[n];
  }

  lemma {:induction false} SumStart(q: seq<Order>)
    requires q != []
    ensures TotalQty(q[..1]) == q[0].qty
  {
    assert q[..1] == [q[0]] && [q[0]][1..] == [];
  }

  lemma {:induction false} SumStep(q: seq<Order>, i: nat)
    requires i < |q|
    ensures TotalQty(q[..i + 1]) == TotalQty(q[..i]) + q[i].qty
    ensures TotalQty(q[..i + 1]) % 0x1_0000_0000 == (TotalQty(q[..i]) % 0x1_0000_0000 + q[i].qty) % 0x1_0000_0000
  {
    assert q[..i + 1] == q[..i] + [q[i]];
    TotalQtyAppend(q[..i], q[i]);
  }

  /** What the client's book takes from its feed without being corrupted: a new id
    * and, unless the price is refused anyway, no level of the other side there.
    */
  ghost predicate Landable(cfg: Config, b: Book, u: MarketUpdate)
    requires cfg.Valid()
  {
    || Aliased(cfg.priceLevels, b.bids, u.price) || Aliased(cfg.priceLevels, b.asks, u.price)
    || (&& u.side != NoSide
        && (forall o | b.Has(o) :: o.id != u.orderId)
        && (forall o | o in b.On(Opposite(u.side)) :: o.price != u.price))
  }

  lemma {:induction false} AddIs(cfg: Config, b: Book, u: MarketUpdate)
    requires cfg.Valid() && u.kind == UpdateKind.Add && u.orderId < cfg.orderIds && Landable(cfg, b, u)
    requires !Aliased(cfg.priceLevels, b.bids, u.price) && !Aliased(cfg.priceLevels, b.asks, u.price)
    requires L.DistinctIds(b.bids) && L.DistinctIds(b.asks)
    requires forall o | o in b.On(u.side) :: o.side == u.side
    ensures Apply(cfg, b, u) == Rested(b, ToOrder(u))
    ensures L.DistinctIds(Apply(cfg, b, u).bids) && L.DistinctIds(Apply(cfg, b, u).asks)
    ensures forall x | b.Has(x) && SlotIndex(x.price, cfg.priceLevels) == SlotIndex(u.price, cfg.priceLevels) ::
              x.price == u.price && x.side == u.side
  {
    hide Insert, L.DistinctIds;
    InsertDistinct(b.On(u.side), ToOrder(u));
  }

  lemma {:induction false} CancelIs(cfg: Config, b: Book, u: MarketUpdate, o: Order)
    requires cfg.Valid() && u.kind == UpdateKind.Cancel && u.orderId < cfg.orderIds && o.id == u.orderId
             && o.side != NoSide
    requires L.DistinctIds(b.bids) && L.DistinctIds(b.asks)
    requires forall y | y in b.On(Opposite(o.side)) :: y.id != u.orderId
    ensures Apply(cfg, b, u) == Taken(b, o)
    ensures L.DistinctIds(Apply(cfg, b, u).bids) && L.DistinctIds(Apply(cfg, b, u).asks)
  {
    RemoveAbsent(b.On(Opposite(o.side)), o.id);
    RemoveDistinct(b.On(o.side), o.id);
  }

  lemma {:induction false} CancelNone(cfg: Config, b: Book, u: MarketUpdate)
    requires cfg.Valid() && u.kind == UpdateKind.Cancel && forall y | b.Has(y) :: y.id != u.orderId
    ensures Apply(cfg, b, u) == b
  {
    RemoveAbsent(b.bids, u.orderId);
    RemoveAbsent(b.asks, u.orderId);
  }

  lemma {:induction false} ModifyIs(cfg: Config, b: Book, u: MarketUpdate, o: Order)
    requires cfg.Valid() && u.kind == UpdateKind.Modify && u.orderId < cfg.orderIds && o.id == u.orderId
             && o.side != NoSide
    requires L.DistinctIds(b.bids) && L.DistinctIds(b.asks)
    requires forall y | y in b.On(Opposite(o.side)) :: y.id != u.orderId
    ensures Apply(cfg, b, u) == Resized(b, o, u.qty)
    ensures L.DistinctIds(Apply(cfg, b, u).bids) && L.DistinctIds(Apply(cfg, b, u).asks)
  {
    RequantifyAbsent(b.On(Opposite(o.side)), o.id, u.qty);
    RequantifyIds(b.On(o.side), o.id, u.qty);
  }

  lemma {:induction false} ModifyNone(cfg: Config, b: Book, u: MarketUpdate)
    requires cfg.Valid() && u.kind == UpdateKind.Modify && forall y | b.Has(y) :: y.id != u.orderId
    ensures Apply(cfg, b, u) == b
  {
    RequantifyAbsent(b.bids, u.orderId, u.qty);
    RequantifyAbsent(b.asks, u.orderId, u.qty);
  }

  lemma {:induction false} RemoveDistinct(s: seq<Order>, id: nat)
    requires L.DistinctIds(s)
    ensures L.DistinctIds(Remove(s, id))
  {
    if i :| 0 <= i < |s| && s[i].id == id {
      L.RemoveAt(s, i);
    } else {
      RemoveAbsent(s, id);
    }
  }

  lemma {:induction false} RequantifyIds(s: seq<Order>, id: nat, qty: nat)
    ensures |Requantify(s, id, qty)| == |s|
    ensures forall i | 0 <= i < |s| :: Requantify(s, id, qty)[i].id == s[i].id
  {
    if s != [] {
      RequantifyIds(s[1..], id, qty);
    }
  }

  lemma {:induction false} InsertDistinct(s: seq<Order>, o: Order)
    requires L.DistinctIds(s) && forall y | y in s :: y.id != o.id
    ensures L.DistinctIds(Insert(s, o))
  {
    if s != [] && !Better(o.side, o.price, s[0].price) {
      var t := Insert(s[1..], o);
      InsertDistinct(s[1..], o);
      forall y | y in t ensures y.id != s[0].id {
        InsertHas(s[1..], o, y);
      }
      assert forall i | 0 <= i < |t| :: t[i] in t;
    }
  }
}
