/** The matching book of one ticker as the exchange keeps it: the linked store, the
  * table from client and client order id to resting orders, and the counter of
  * market order ids. Every request is proved to do what the book of module
  * Exchange does, on any sound book.
  */
module OrderBooks {
  import opened Types
  import opened PriceTime
  import opened Exchange
  import opened Soundness
  import opened Matching
  import opened LinkedBooks
  import opened BookStores
  import opened MemPools
  import L = Levels

  class MEOrderBook {
    const cfg: Config
    const capacity: nat
    const store: BookStore
    const table: array2<int>
    var nextId: nat
    var responses: seq<Response>
    var updates: seq<MarketUpdate>

    ghost function Repr(): set<object> {
      {this, table, store, store.levelPool, store.levelPool.isFree, store.orderPool, store.orderPool.isFree}
    }

    /** Everything but the two logs. */
    ghost predicate Stored()
      reads Repr()
    {
      && cfg.Valid() && store.Valid() && store.priceLevels == cfg.priceLevels && |store.orders| == capacity
      && table.Length0 == cfg.clients && table.Length1 == cfg.orderIds
      && Indexed()
    }

    /** The table knows exactly the resting orders. */
    ghost predicate Indexed()
      reads table, store
      requires table.Length0 == cfg.clients && table.Length1 == cfg.orderIds
    {
      && |store.orders| == |store.shape.home|
      && (forall c, i | 0 <= c < table.Length0 && 0 <= i < table.Length1 && table[c, i] != NULL ::
            && 0 <= table[c, i] < |store.orders| && store.Live(table[c, i])
            && store.orders[table[c, i]].order.owner == Owner(c, i))
      && (forall x: nat | store.Live(x) ::
            var w := store.orders[x].order.owner;
            w.client < table.Length0 && w.orderId < table.Length1 && table[w.client, w.orderId] == x)
    }

    ghost function Abs(): XBook
      requires Stored()
      reads Repr()
    {
      XBook(store.Flat(), nextId)
    }

    ghost predicate Valid()
      reads Repr()
    {
      Stored() && Sound(cfg, Abs())
    }

    ghost function Log(): Effects
      reads this
    {
      Effects(responses, updates)
    }

    constructor (cfg: Config, capacity: nat)
      requires cfg.Valid()
      ensures Valid() && this.cfg == cfg && this.capacity == capacity && Abs() == FRESH_XBOOK && Log() == QUIET
      ensures fresh(Repr())
    {
      hide Linked, FlatOf, Sound, BookStore.Valid;
      this.cfg, this.capacity := cfg, capacity;
      store := new BookStore(cfg.priceLevels, capacity);
      table := new int[cfg.clients, cfg.orderIds]((_, _) => NULL);
      nextId, responses, updates := 1, [], [];
      new;
      EmptySound(cfg);
    }

    /** The order blocks of the pool in use hold the resting orders, each exactly once. */
    lemma {:induction false} Occupancy()
      requires Valid()
      ensures store.orderPool.freeCount + Resting(store.Flat()) == capacity
    {
      hide Linked, FlatOf, Sound, Resting;
      var used := store.orderPool.Allocated();
      var held := map a | a in used :: store.orders[a].order;
      assert held.Keys == used;
      InjectiveValues(held);
      forall o ensures o in held.Values <==> store.Flat().Has(o) {
        store.LiveFlat(o);
        if x: nat :| store.Live(x) && x < |store.orders| && store.orders[x].order == o {
          assert x in held && held[x] == o;
        }
      }
      SetOfBook(cfg, Abs(), held.Values);
    }

    /** `match`: the taker meets the first order of the other side. */
    method Match(t: Taker, block: nat, leaves: nat) returns (left: nat)
      requires Valid() && t.side != NoSide && 0 < leaves
      requires var opp := store.Flat().On(Opposite(t.side));
               store.Live(block) && block < |store.orders| && opp != [] && store.orders[block].order == opp[0]
      modifies Repr()
      ensures Valid() && nextId == old(nextId)
      ensures var opp := old(store.Flat().On(Opposite(t.side)));
              && left == leaves - Min(leaves, opp[0].qty)
              && store.Flat() == old(store.Flat()).With(Opposite(t.side), AfterMatch(opp, leaves))
              && Log() == old(Log()).Then(MatchEffects(t, opp[0], leaves))
      ensures store.orderPool.freeCount >= old(store.orderPool.freeCount)
    {
      hide Sound, FlatOf, Linked, AfterMatch, L.DistinctIds, Resized, Taken, Indexed, BookStore.Valid;
      ghost var x, side := Abs(), Opposite(t.side);
      SoundSide(cfg, x, side);
      var passive := store.orders[block].order;
      assert passive in x.book.On(side);
      MatchedBook(x.book, side, leaves);
      MatchedSound(cfg, x, side, leaves);
      var fill := Min(leaves, passive.qty);
      left := leaves - fill;
      SetQty(block, passive.qty - fill);
      responses := responses
                   + [TakerFill(t, passive.price, fill, left), MakerFill(t.ticker, passive, fill, passive.qty - fill)];
      updates := updates + [TradeUpdate(t, passive.price, fill)];
      if passive.qty - fill == 0 {
        updates := updates + [OrderUpdate(UpdateKind.Cancel, t.ticker, passive)];
        RemoveOrder(block);
      } else {
        updates := updates + [OrderUpdate(Modify, t.ticker, passive.(qty := passive.qty - fill))];
      }
    }

    /** `checkForMatch`: match the best order of the other side while it crosses. It
      * terminates, and it is the greedy sweep.
      */
    method CheckForMatch(t: Taker, qty: nat) returns (leaves: nat)
      requires Valid() && t.side != NoSide
      modifies Repr()
      ensures Valid() && nextId == old(nextId)
      ensures var s := Sweep(t, old(store.Flat().On(Opposite(t.side))), qty);
              && leaves == s.leaves
              && store.Flat() == old(store.Flat()).With(Opposite(t.side), s.rest)
              && Log() == old(Log()).Then(s.effects)
      ensures store.orderPool.freeCount >= old(store.orderPool.freeCount)
    {
      hide Sweep, AfterMatch, MatchEffects, FlatOf, Linked, Indexed, Sound, SweptSo, Effects.Then,
           BookStore.LevelsPooled, BookStore.OrdersPooled;
      ghost var side, book := Opposite(t.side), store.Flat();
      ghost var done, goal := QUIET, Sweep(t, book.On(side), qty);
      leaves := qty;
      SweptFirst(t, book.On(side), qty, Log());
      while 0 < leaves
        invariant Valid() && nextId == old(nextId)
        invariant store.Flat() == book.With(side, store.Flat().On(side))
        invariant SweptSo(t, store.Flat().On(side), leaves, done, goal) && Log() == old(Log()).Then(done)
        invariant store.orderPool.freeCount >= old(store.orderPool.freeCount)
        decreases leaves + |store.Flat().On(side)|
      {
        ghost var opp := store.Flat().On(side);
        var found, block := store.Best(if t.side == Buy then Sell else Buy);
        if !found || !Crosses(t.side, t.price, store.orders[block].order.price) {
          break;
        }
        SweptNext(t, opp, leaves, done, goal, old(Log()));
        done := done.Then(MatchEffects(t, opp[0], leaves));
        leaves := Match(t, block, leaves);
      }
      SweptDone(t, store.Flat().On(side), leaves, done, goal);
    }

    /** Writing a quantity keeps the table. */
    method SetQty(block: nat, qty: nat)
      requires Stored() && store.Live(block) && block < |store.orders|
      requires L.DistinctIds(store.Flat().On(store.orders[block].order.side))
      modifies store
      ensures Stored() && store.Live(block) && block < |store.orders|
      ensures store.Flat() == Resized(old(store.Flat()), old(store.orders[block].order), qty)
      ensures store.orders[block].order == old(store.orders[block].order).(qty := qty)
    {
      hide Linked, FlatOf, L.DistinctIds, Resized;
      store.SetQty(block, qty);
    }

    /** `removeOrder` with its table entry. */
    method RemoveOrder(block: nat)
      requires Stored() && store.Live(block) && block < |store.orders|
      requires L.DistinctIds(store.Flat().On(store.orders[block].order.side))
      modifies Repr()
      ensures Stored() && nextId == old(nextId) && Log() == old(Log())
      ensures store.Flat() == Taken(old(store.Flat()), old(store.orders[block].order))
      ensures store.orderPool.freeCount == old(store.orderPool.freeCount) + 1
    {
      hide Linked, FlatOf, L.DistinctIds, Taken;
      var w := store.orders[block].order.owner;
      store.RemoveOrder(block);
      table[w.client, w.orderId] := NULL;
    }

    /** The table finds exactly the order that the owner has in the book. */
    lemma {:induction false} TableLookup(owner: Owner)
      requires Valid()
      ensures if owner.client < table.Length0 && owner.orderId < table.Length1
              && table[owner.client, owner.orderId] != NULL
              then var block := table[owner.client, owner.orderId];
                   && 0 <= block < |store.orders| && store.Live(block)
                   && Lookup(store.Flat(), owner) == Some(store.orders[block].order)
              else Lookup(store.Flat(), owner) == None
    {
      hide Linked, FlatOf, Lookup, AliasFree, Uncrossed, Prioritised, BookStore.LevelsPooled, BookStore.OrdersPooled;
      LookupHas(store.Flat(), owner);
      if Lookup(store.Flat(), owner).Some? {
        store.LiveFlat(Lookup(store.Flat(), owner).value);
      }
      if owner.client < table.Length0 && owner.orderId < table.Length1 && table[owner.client, owner.orderId] != NULL {
        var block := table[owner.client, owner.orderId];
        store.LiveFlat(store.orders[block].order);
        assert store.Flat().Has(store.orders[block].order);
      }
    }

    /** A CANCEL request does what the cancel of the flat book does. */
    method Cancel(client: nat, orderId: nat, ticker: nat)
      requires Valid()
      modifies Repr()
      ensures Valid()
      ensures var out := CancelOrder(old(Abs()), ticker, Owner(client, orderId));
              Abs() == out.x && Log() == old(Log()).Then(out.effects)
    {
      hide Sound, Linked, FlatOf, Lookup, Indexed, L.DistinctIds, Taken;
      ghost var x := Abs();
      TableLookup(Owner(client, orderId));
      CancelKeepsSound(cfg, x, ticker, Owner(client, orderId));
      var block := if client < table.Length0 && orderId < table.Length1 then table[client, orderId] else NULL;
      if block == NULL {
        responses := responses
                     + [Response(CancelRejected, client, ticker, orderId, INVALID_64, NoSide, INVALID_64, 0, 0)];
      } else {
        var o := store.orders[block].order;
        store.LiveSide(block);
        SoundSide(cfg, x, o.side);
        CanceledBook(x, ticker, Owner(client, orderId), o);
        RemoveOrder(block);
        updates := updates + [OrderUpdate(UpdateKind.Cancel, ticker, o)];
        responses := responses + [Response(Canceled, client, ticker, orderId, o.id, o.side, o.price, 0, 0)];
      }
    }

    /** A NEW request does what the add of the flat book does, unless its remainder
      * finds as many orders resting as the pool has blocks, which is fatal in the
      * original. It fails in no other case.
      */
    method Add(client: nat, orderId: nat, ticker: nat, side: Side, price: nat, qty: nat) returns (ok: bool)
      requires Valid() && side != NoSide
      modifies Repr()
      ensures ok <==> !Overflows(cfg, capacity, old(Abs()), Owner(client, orderId), side, price, qty)
      ensures ok ==> Valid()
      ensures ok ==> var out := AddOrder(cfg, old(Abs()), ticker, Owner(client, orderId), side, price, qty);
                     Abs() == out.x && Log() == old(Log()).Then(out.effects)
    {
      hide Sound, Linked, FlatOf, Lookup, Indexed, Admits, Sweep, Rested, PriceTime.NextPriority, Effects.Then,
           AddOrder, Settle, Overflows, Resting;
      ghost var x, owner := Abs(), Owner(client, orderId);
      TableLookup(owner);
      AddKeepsSound(cfg, x, ticker, owner, side, price, qty);
      var aliased := store.AliasCheck(price);
      AdmitsCheck(cfg, x, owner, price, aliased);
      if client >= table.Length0 || orderId >= table.Length1 || table[client, orderId] != NULL || aliased {
        responses := responses + [Rejection(client, ticker, orderId, side, price)];
        RejectedIs(cfg, x, ticker, owner, side, price, qty, old(Log()), Log());
        NoOverflow(cfg, capacity, x, owner, side, price, qty);
        return true;
      }
      var t := Taker(ticker, Owner(client, orderId), nextId, side, price);
      nextId := nextId + 1;
      BumpSound(cfg, x);
      responses := responses + [Acceptance(t, qty)];
      Accepting(old(Log()), Log(), t, qty);
      ghost var s := Sweep(t, x.book.On(Opposite(side)), qty);
      AcceptedIs(cfg, x, t, qty, s, old(Log()));
      var leaves := CheckForMatch(t, qty);
      OverflowIs(cfg, capacity, x, t, qty, s);
      Occupancy();
      ok := true;
      if leaves > 0 {
        RemainderFits(cfg, x, t, qty);
        ok := RestRemainder(t, leaves);
      }
    }

    /** What is left of a taker rests behind everything at its price. */
    method RestRemainder(t: Taker, leaves: nat) returns (ok: bool)
      requires Stored() && t.side != NoSide && Admits(cfg, store.Flat(), t.owner, t.price)
      requires forall y | store.Flat().Has(y)
               && SlotIndex(y.price, cfg.priceLevels) == SlotIndex(t.price, cfg.priceLevels) ::
                 y.price == t.price && y.side == t.side
      modifies Repr()
      ensures ok == (old(store.orderPool.freeCount) > 0) && nextId == old(nextId)
      ensures ok ==> Stored()
      ensures ok ==> var o := Remainder(t, old(store.Flat()), leaves);
                     && store.Flat() == Rested(old(store.Flat()), o)
                     && Log() == old(Log()).Then(Effects([], [OrderUpdate(UpdateKind.Add, t.ticker, o)]))
    {
      hide Linked, FlatOf, Indexed, SlotIndex, Rested, PriceTime.NextPriority;
      var priority := store.NextPriority(t.price, t.side);
      var o := Order(t.owner, t.id, t.side, t.price, leaves, priority);
      ok := StoreOrder(o);
      if ok {
        updates := updates + [OrderUpdate(UpdateKind.Add, t.ticker, o)];
      }
    }

    /** A new resting order with its table entry; it fails only when the order pool is used up. */
    method StoreOrder(o: Order) returns (ok: bool)
      requires Stored() && o.side != NoSide && store.Fits(o)
      requires o.owner.client < cfg.clients && o.owner.orderId < cfg.orderIds
      requires forall y | store.Flat().Has(y) :: y.owner != o.owner
      modifies Repr()
      ensures ok == (old(store.orderPool.freeCount) > 0) && nextId == old(nextId) && Log() == old(Log())
      ensures ok ==> Stored() && store.Flat() == Rested(old(store.Flat()), o)
      ensures !ok ==> store.orderPool.freeCount == 0
    {
      hide Linked, FlatOf, Rested, BookStore.LevelsPooled, BookStore.OrdersPooled, BookStore.Fits;
      forall x: nat | store.Live(x) ensures store.orders[x].order.owner != o.owner {
        store.LiveFlat(store.orders[x].order);
      }
      var block: nat;
      ok, block := store.AddOrder(o);
      if ok {
        table[o.owner.client, o.owner.orderId] := block;
      }
    }
  }

  /** So far the sweep sent `done`; the rest of it remains to be done on `opp`. */
  ghost predicate SweptSo(t: Taker, opp: seq<Order>, leaves: nat, done: Effects, goal: Swept) {
    var s := Sweep(t, opp, leaves);
    goal == Swept(s.rest, s.leaves, done.Then(s.effects))
  }

  lemma {:induction false} SweptFirst(t: Taker, opp: seq<Order>, qty: nat, log: Effects)
    ensures SweptSo(t, opp, qty, QUIET, Sweep(t, opp, qty)) && log.Then(QUIET) == log
  {
    hide Sweep;
    var e := Sweep(t, opp, qty).effects;
    assert QUIET.Then(e) == e && log.Then(QUIET) == log;
  }

  lemma {:induction false} SweptNext(t: Taker, opp: seq<Order>, leaves: nat, done: Effects, goal: Swept, log: Effects)
    requires 0 < leaves && opp != [] && Crosses(t.side, t.price, opp[0].price)
    requires SweptSo(t, opp, leaves, done, goal)
    ensures var left, rest := leaves - Min(leaves, opp[0].qty), AfterMatch(opp, leaves);
            && SweptSo(t, rest, left, done.Then(MatchEffects(t, opp[0], leaves)), goal)
            && left + |rest| < leaves + |opp|
    ensures log.Then(done).Then(MatchEffects(t, opp[0], leaves)) == log.Then(done.Then(MatchEffects(t, opp[0], leaves)))
  {
    hide Sweep, MatchEffects;
    SweepStep(t, opp, leaves);
    var e := MatchEffects(t, opp[0], leaves);
    var f := Sweep(t, AfterMatch(opp, leaves), leaves - Min(leaves, opp[0].qty)).effects;
    ThenAssoc(done, e, f);
    ThenAssoc(log, done, e);
  }

  lemma {:induction false} SweptDone(t: Taker, opp: seq<Order>, leaves: nat, done: Effects, goal: Swept)
    requires leaves == 0 || opp == [] || !Crosses(t.side, t.price, opp[0].price)
    requires SweptSo(t, opp, leaves, done, goal)
    ensures goal == Swept(opp, leaves, done)
  {
    assert done.Then(QUIET) == done;
  }

  /** The checks of `add` decide admission. */
  lemma {:induction false} AdmitsCheck(cfg: Config, x: XBook, owner: Owner, price: nat, aliased: bool)
    requires cfg.Valid()
    requires aliased == (Aliased(cfg.priceLevels, x.book.bids, price) || Aliased(cfg.priceLevels, x.book.asks, price))
    ensures Admits(cfg, x.book, owner, price) <==>
            owner.client < cfg.clients && owner.orderId < cfg.orderIds && Lookup(x.book, owner) == None && !aliased
  {
    hide Lookup, Aliased;
    LookupHas(x.book, owner);
  }

  lemma {:induction false} RejectedIs(cfg: Config, x: XBook, ticker: nat, owner: Owner, side: Side, price: nat,
          qty: nat, was: Effects, log: Effects)
    requires cfg.Valid() && !Admits(cfg, x.book, owner, price)
    requires log == Effects(was.responses + [Rejection(owner.client, ticker, owner.orderId, side, price)], was.updates)
    ensures var out := AddOrder(cfg, x, ticker, owner, side, price, qty);
            out.x == x && log == was.Then(out.effects)
  {
    hide Admits;
  }

  lemma {:induction false} Accepting(was: Effects, log: Effects, t: Taker, qty: nat)
    requires log == Effects(was.responses + [Acceptance(t, qty)], was.updates)
    ensures log == was.Then(Effects([Acceptance(t, qty)], []))
  {
  }
}
