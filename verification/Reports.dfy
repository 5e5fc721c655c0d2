/** What one request is answered with and what it leaves, in plain comparisons and field by
  * field: which prices may trade, in which order, who is told what, and what then rests.
  */
module Reports {
  import opened Types
  import opened PriceTime
  import opened Exchange
  import opened Soundness

  /** An answer that carries no trade: everything but its kind. */
  ghost predicate Answers(r: Response, ticker: nat, owner: Owner, id: nat, side: Side, price: nat, leaves: nat) {
    && r.client == owner.client && r.clientOrderId == owner.orderId && r.ticker == ticker
    && r.marketOrderId == id && r.side == side && r.price == price
    && r.execQty == 0 && r.leavesQty == leaves
  }

  // ---------- which NEW requests are refused ----------

  /** An id is out of range, the owner has a resting order, or a resting price shares the slot of this one. */
  ghost predicate Refusable(cfg: Config, b: Book, owner: Owner, price: nat)
    requires cfg.Valid()
  {
    || owner.client >= cfg.clients
    || owner.orderId >= cfg.orderIds
    || (exists o | b.Has(o) :: o.owner == owner)
    || (exists o | b.Has(o) :: o.price != price && o.price % cfg.priceLevels == price % cfg.priceLevels)
  }

  lemma {:induction false} AdmitsMeans(cfg: Config, b: Book, owner: Owner, price: nat)
    requires cfg.Valid()
    ensures Admits(cfg, b, owner, price) <==> !Refusable(cfg, b, owner, price)
  {
    if !Refusable(cfg, b, owner, price) {
      assert forall o | o in b.bids || o in b.asks :: b.Has(o);
    } else if Admits(cfg, b, owner, price) {
      assert forall o | b.Has(o) :: o in b.bids || o in b.asks;
      assert false;
    }
  }

  /** Nothing happens but the refusal. */
  ghost predicate Refused(x: XBook, ticker: nat, owner: Owner, side: Side, price: nat, out: Outcome) {
    && out.x == x && out.effects.updates == []
    && |out.effects.responses| == 1 && out.effects.responses[0].kind == Rejected
    && Answers(out.effects.responses[0], ticker, owner, INVALID_64, side, price, 0)
  }

  // ---------- what an accepted NEW trades against ----------

  /** `a` has priority over `b` among orders of this side: higher bids, lower asks, then the earlier id. */
  ghost predicate Outranks(side: Side, a: Order, b: Order) {
    || (side == Buy && a.price > b.price)
    || (side == Sell && a.price < b.price)
    || (a.price == b.price && a.id < b.id)
  }

  /** The price is no worse than the limit of an incoming order of this side. */
  ghost predicate WithinLimit(side: Side, limit: nat, price: nat) {
    if side == Buy then price <= limit else limit <= price
  }

  /** Of `qty` the first `n` orders of `opp` take all of theirs and the next one `part`:
    * only within the limit, in order of priority, and no less than is possible.
    */
  ghost predicate Allocates(side: Side, limit: nat, opp: seq<Order>, qty: nat, n: nat, part: nat) {
    var other := if side == Buy then Sell else Buy;
    && n <= |opp| && TotalQty(opp[..n]) + part <= qty
    && (part > 0 ==> n < |opp| && part < opp[n].qty)
    && (forall i, j | 0 <= i < j < |opp| :: Outranks(other, opp[i], opp[j]))
    && (forall i | 0 <= i < n || (i == n && part > 0) :: WithinLimit(side, limit, opp[i].price))
    && (TotalQty(opp[..n]) + part < qty ==>
          part == 0 && forall i | n <= i < |opp| :: !WithinLimit(side, limit, opp[i].price))
  }

  /** What the allocation leaves of the side it took from. */
  ghost predicate LeavesOpposite(opp: seq<Order>, n: nat, part: nat, rest: seq<Order>)
    requires n <= |opp| && (part > 0 ==> n < |opp| && part <= opp[n].qty)
  {
    && |rest| == |opp| - n
    && (forall i | 0 < i < |rest| :: rest[i] == opp[n + i])
    && (rest != [] ==> rest[0] == opp[n].(qty := opp[n].qty - part))
  }

  /** `o` rests beside everything that rested, last in the queue of its price. */
  ghost predicate Joins(side: Side, own: seq<Order>, o: Order, now: seq<Order>) {
    && (forall y :: y in now <==> y == o || y in own)
    && (forall i, j | 0 <= i < j < |now| :: Outranks(side, now[i], now[j]))
    && (forall y | y in own && y.price == o.price :: y.id < o.id && y.priority < o.priority)
    && (o.priority == 1 || exists y | y in own :: y.price == o.price && y.priority + 1 == o.priority)
  }

  /** An order in every field but its priority. */
  ghost predicate OrderIs(o: Order, owner: Owner, id: nat, side: Side, price: nat, qty: nat) {
    o.owner == owner && o.id == id && o.side == side && o.price == price && o.qty == qty
  }

  /** The book an accepted NEW leaves; `o` is what rests of it, if anything is left. */
  ghost predicate Rests(side: Side, b: Book, n: nat, part: nat, left: nat, o: Order, c: Book)
    requires side != NoSide
    requires var opp := if side == Buy then b.asks else b.bids;
             n <= |opp| && (part > 0 ==> n < |opp| && part <= opp[n].qty)
  {
    && LeavesOpposite(if side == Buy then b.asks else b.bids, n, part, if side == Buy then c.asks else c.bids)
    && var own, now := if side == Buy then b.bids else b.asks, if side == Buy then c.bids else c.asks;
    if left == 0 then now == own else Joins(side, own, o, now)
  }

  /** ACCEPTED first, then two responses and two updates per fill, then an ADD if anything is left. */
  ghost predicate Reported(t: Taker, opp: seq<Order>, qty: nat, n: nat, part: nat, left: nat, o: Order, e: Effects)
    requires n <= |opp| && (part > 0 ==> n < |opp|)
  {
    var k := if part == 0 then n else n + 1;
    && |e.responses| == 1 + 2 * k && |e.updates| == 2 * k + (if left == 0 then 0 else 1)
    && e.responses[0].kind == Accepted && Answers(e.responses[0], t.ticker, t.owner, t.id, t.side, t.price, qty)
    && GreedyReports(t, opp, qty, n, part, Effects(e.responses[1..], e.updates[..2 * k]))
    && (left > 0 ==> e.updates[2 * k].kind == Add && TellsOrder(e.updates[2 * k], t.ticker, o, left))
  }

  /** Everything an accepted NEW does. */
  ghost predicate Served(x: XBook, t: Taker, qty: nat, n: nat, part: nat, o: Order, out: Outcome)
    requires t.side != NoSide
  {
    var opp := if t.side == Buy then x.book.asks else x.book.bids;
    && Allocates(t.side, t.price, opp, qty, n, part)
    && var left := qty - TotalQty(opp[..n]) - part;
    && (left > 0 ==> OrderIs(o, t.owner, t.id, t.side, t.price, left))
    && Rests(t.side, x.book, n, part, left, o, out.x.book) && out.x.nextId == x.nextId + 1
    && Reported(t, opp, qty, n, part, left, o, out.effects)
  }

  lemma {:induction false} SortedOutranks(side: Side, s: seq<Order>)
    requires side != NoSide && Sorted(side, s)
    ensures forall i, j | 0 <= i < j < |s| :: Outranks(side, s[i], s[j])
  {
    forall i, j | 0 <= i < j < |s| ensures Outranks(side, s[i], s[j]) {
      assert Before(side, s[i], s[j]);
    }
  }

  lemma {:induction false} GreedyAllocates(t: Taker, opp: seq<Order>, qty: nat, n: nat, part: nat, s: Swept)
    requires t.side != NoSide && Sorted(Opposite(t.side), opp)
    requires Greedy(t, opp, qty, n, part, s)
    ensures Allocates(t.side, t.price, opp, qty, n, part) && LeavesOpposite(opp, n, part, s.rest)
    ensures s.leaves == qty - TotalQty(opp[..n]) - part
  {
    hide GreedyReports, TotalQty;
    var side := Opposite(t.side);
    SortedOutranks(side, opp);
    if s.leaves > 0 && n < |opp| {
      forall i | n <= i < |opp| ensures !WithinLimit(t.side, t.price, opp[i].price) {
        assert i > n ==> Outranks(side, opp[n], opp[i]);
      }
    }
    assert opp[n..] != [] ==> opp[n].(qty := opp[n].qty - 0) == opp[n];
  }

  /** The priority of the next order at a price is one more than the greatest there, 1 if there is none. */
  lemma {:induction false} NextPriorityIs(s: seq<Order>, price: nat)
    ensures NextPriority(s, price) == 1
            || exists y | y in s :: y.price == price && y.priority + 1 == NextPriority(s, price)
  {
    if s != [] && s[|s| - 1].price != price {
      NextPriorityIs(s[..|s| - 1], price);
    } else if s != [] {
      assert s[|s| - 1] in s;
    }
  }

  lemma {:induction false} InsertJoins(side: Side, s: seq<Order>, o: Order)
    requires side != NoSide && Sorted(side, s) && Prioritised(s) && o.side == side
    requires o.priority == NextPriority(s, o.price) && forall y | y in s :: y.id < o.id
    ensures Joins(side, s, o, Insert(s, o))
  {
    hide Sorted, Prioritised, Insert, NextPriority, Outranks;
    forall y ensures y in Insert(s, o) <==> y == o || y in s { InsertHas(s, o, y); }
    InsertSorted(side, s, o);
    SortedOutranks(side, Insert(s, o));
    NextPriorityTops(side, s, o.price);
    NextPriorityIs(s, o.price);
  }

  lemma {:induction false} SettleRests(cfg: Config, x: XBook, t: Taker, qty: nat, n: nat, part: nat, s: Swept)
      returns (o: Order)
    requires cfg.Valid() && Sound(cfg, x) && t.side != NoSide && t.id == x.nextId
    requires var opp := x.book.On(Opposite(t.side));
             && n <= |opp| && (part > 0 ==> n < |opp| && part <= opp[n].qty)
             && LeavesOpposite(opp, n, part, s.rest)
    ensures Rests(t.side, x.book, n, part, s.leaves, o, Settle(x.book, t, qty, s).x.book)
    ensures s.leaves > 0 ==> o == Remainder(t, x.book.With(Opposite(t.side), s.rest), s.leaves)
    ensures s.leaves > 0 ==> OrderIs(o, t.owner, t.id, t.side, t.price, s.leaves)
  {
    hide Sorted, Prioritised, Insert, NextPriority, Joins, LeavesOpposite, AliasFree, Keyed, Uncrossed;
    var b := x.book.With(Opposite(t.side), s.rest);
    o := Remainder(t, b, s.leaves);
    if s.leaves > 0 {
      var own := x.book.On(t.side);
      assert b.On(t.side) == own;
      forall y | y in own ensures y.id < o.id { assert x.book.Has(y); }
      InsertJoins(t.side, own, o);
    }
  }

  lemma {:induction false} SettleReported(b: Book, t: Taker, qty: nat, n: nat, part: nat, s: Swept, o: Order)
    requires n <= |b.On(Opposite(t.side))| && (part > 0 ==> n < |b.On(Opposite(t.side))|)
    requires GreedyReports(t, b.On(Opposite(t.side)), qty, n, part, s.effects)
    requires s.leaves > 0 ==> o == Remainder(t, b.With(Opposite(t.side), s.rest), s.leaves)
    ensures Reported(t, b.On(Opposite(t.side)), qty, n, part, s.leaves, o, Settle(b, t, qty, s).effects)
  {
    hide FullFill, PartialFill, Rested;
    var k := if part == 0 then n else n + 1;
    var e := Settle(b, t, qty, s).effects;
    assert e.responses[1..] == s.effects.responses && e.updates[..2 * k] == s.effects.updates;
    assert Effects(e.responses[1..], e.updates[..2 * k]) == s.effects;
  }

  /** A NEW is refused exactly when it is refusable, and then nothing else happens. */
  lemma {:induction false} NewRefused(cfg: Config, x: XBook, ticker: nat, owner: Owner, side: Side, price: nat,
                                      qty: nat)
    requires cfg.Valid()
    ensures var out := AddOrder(cfg, x, ticker, owner, side, price, qty);
            Refusable(cfg, x.book, owner, price) <==> Refused(x, ticker, owner, side, price, out)
  {
    hide Admits, Refusable, Sweep;
    AdmitsMeans(cfg, x.book, owner, price);
  }

  /** Any other NEW is served: greedily, in price-time order, each fill at the resting price,
    * and what is left rests behind the orders of its price.
    */
  lemma {:induction false} NewServed(cfg: Config, x: XBook, ticker: nat, owner: Owner, side: Side, price: nat,
                                     qty: nat)
      returns (n: nat, part: nat, o: Order)
    requires cfg.Valid() && Sound(cfg, x) && side != NoSide && !Refusable(cfg, x.book, owner, price)
    ensures Served(x, Taker(ticker, owner, x.nextId, side, price), qty, n, part, o,
                   AddOrder(cfg, x, ticker, owner, side, price, qty))
  {
    hide Admits, Refusable, Sweep, Allocates, Reported, Rests, Settle, LeavesOpposite, GreedyReports, OrderIs,
         AliasFree, Keyed, Uncrossed, Prioritised, Crosses;
    AdmitsMeans(cfg, x.book, owner, price);
    var t, opp := Taker(ticker, owner, x.nextId, side, price), x.book.On(Opposite(side));
    var s := Sweep(t, opp, qty);
    assert forall y | y in opp :: x.book.Has(y);
    n, part := GreedySweep(t, opp, qty);
    GreedyAllocates(t, opp, qty, n, part, s);
    o := ServedSettle(cfg, x, t, qty, n, part, s);
  }

  lemma {:induction false} ServedSettle(cfg: Config, x: XBook, t: Taker, qty: nat, n: nat, part: nat, s: Swept)
      returns (o: Order)
    requires cfg.Valid() && Sound(cfg, x) && t.side != NoSide && t.id == x.nextId
    requires var opp := x.book.On(Opposite(t.side));
             && n <= |opp| && (part > 0 ==> n < |opp| && part <= opp[n].qty)
             && LeavesOpposite(opp, n, part, s.rest)
             && Allocates(t.side, t.price, opp, qty, n, part) && s.leaves == qty - TotalQty(opp[..n]) - part
             && GreedyReports(t, opp, qty, n, part, s.effects)
    ensures Served(x, t, qty, n, part, o, Settle(x.book, t, qty, s))
  {
    hide Sound, Allocates, Reported, Rests, LeavesOpposite, GreedyReports, OrderIs, Remainder, TotalQty;
    o := SettleRests(cfg, x, t, qty, n, part, s);
    SettleReported(x.book, t, qty, n, part, s, o);
  }

  // ---------- CANCEL ----------

  /** The order `o` leaves the book and both sides of the wire hear which one it was. */
  ghost predicate Withdrawn(x: XBook, ticker: nat, o: Order, out: Outcome) {
    && out.x.nextId == x.nextId
    && (forall y :: y in out.x.book.bids <==> y in x.book.bids && y != o)
    && (forall y :: y in out.x.book.asks <==> y in x.book.asks && y != o)
    && |out.effects.responses| == 1 && out.effects.responses[0].kind == Canceled
    && Answers(out.effects.responses[0], ticker, o.owner, o.id, o.side, o.price, 0)
    && |out.effects.updates| == 1 && out.effects.updates[0].kind == Cancel
    && TellsOrder(out.effects.updates[0], ticker, o, o.qty)
  }

  /** Nothing happens but the refusal, which names neither an order nor a price. */
  ghost predicate CancelRefused(x: XBook, ticker: nat, owner: Owner, out: Outcome) {
    && out.x == x && out.effects.updates == []
    && |out.effects.responses| == 1 && out.effects.responses[0].kind == CancelRejected
    && Answers(out.effects.responses[0], ticker, owner, INVALID_64, NoSide, INVALID_64, 0)
  }

  /** A CANCEL takes out the owner's resting order, whichever it is, and is refused if there is none. */
  lemma {:induction false} CancelServed(cfg: Config, x: XBook, ticker: nat, owner: Owner)
    requires cfg.Valid() && Sound(cfg, x)
    ensures forall o | x.book.Has(o) && o.owner == owner :: Withdrawn(x, ticker, o, CancelOrder(x, ticker, owner))
    ensures (forall o | x.book.Has(o) :: o.owner != owner) ==>
              CancelRefused(x, ticker, owner, CancelOrder(x, ticker, owner))
  {
    hide AliasFree, Uncrossed, Prioritised, Lookup;
    LookupHas(x.book, owner);
    match Lookup(x.book, owner)
    case None =>
    case Some(o) =>
      assert x.book.Has(o) && forall p | x.book.Has(p) && p.owner == owner :: p == o;
      assert o.side == if o in x.book.bids then Buy else Sell;
      forall y ensures y in Remove(x.book.On(o.side), o.id) <==> y in x.book.On(o.side) && y != o {
        RemoveHas(x.book.On(o.side), o.id, y);
        assert y in x.book.On(o.side) ==> x.book.Has(y);
      }
      assert o !in x.book.On(Opposite(o.side));
  }

  // ---------- one request to the engine, after any run ----------

  /** A NEW does one of two things to its book. */
  ghost predicate ServesNew(cfg: Config, x: XBook, r: Request, out: Outcome)
    requires cfg.Valid() && r.side != NoSide
  {
    var owner := Owner(r.client, r.orderId);
    if Refusable(cfg, x.book, owner, r.price) then Refused(x, r.ticker, owner, r.side, r.price, out)
    else exists n: nat, part: nat, o ::
           Served(x, Taker(r.ticker, owner, x.nextId, r.side, r.price), r.qty, n, part, o, out)
  }

  /** So does a CANCEL. */
  ghost predicate ServesCancel(x: XBook, r: Request, out: Outcome) {
    var owner := Owner(r.client, r.orderId);
    || (exists o :: x.book.Has(o) && o.owner == owner && Withdrawn(x, r.ticker, o, out))
    || ((forall o | x.book.Has(o) :: o.owner != owner) && CancelRefused(x, r.ticker, owner, out))
  }

  /** A request concerns the book of its own ticker alone; one without a book, or of an unknown
    * kind, is rejected with its own fields.
    */
  ghost predicate Dispatched(cfg: Config, books: seq<XBook>, r: Request, out: EngineOutcome)
    requires cfg.Valid() && Sided(r) && |books| == |out.books| == cfg.tickers
  {
    && (forall k | 0 <= k < cfg.tickers && k != r.ticker :: out.books[k] == books[k])
    && if r.ticker >= cfg.tickers || r.kind == OtherRequest then
         && out.books == books && out.effects.updates == []
         && |out.effects.responses| == 1 && out.effects.responses[0].kind == Rejected
         && Answers(out.effects.responses[0], r.ticker, Owner(r.client, r.orderId), INVALID_64, r.side, r.price, 0)
       else
         var own := Outcome(out.books[r.ticker], out.effects);
         if r.kind == NewRequest then ServesNew(cfg, books[r.ticker], r, own)
         else ServesCancel(books[r.ticker], r, own)
  }

  lemma {:induction false} NewServes(cfg: Config, x: XBook, r: Request)
    requires cfg.Valid() && Sound(cfg, x) && r.side != NoSide
    ensures ServesNew(cfg, x, r, AddOrder(cfg, x, r.ticker, Owner(r.client, r.orderId), r.side, r.price, r.qty))
  {
    hide Refusable, Refused, Served, Sound, AddOrder;
    var owner := Owner(r.client, r.orderId);
    if Refusable(cfg, x.book, owner, r.price) {
      NewRefused(cfg, x, r.ticker, owner, r.side, r.price, r.qty);
    } else {
      var n, part, o := NewServed(cfg, x, r.ticker, owner, r.side, r.price, r.qty);
    }
  }

  lemma {:induction false} CancelServes(cfg: Config, x: XBook, r: Request)
    requires cfg.Valid() && Sound(cfg, x)
    ensures ServesCancel(x, r, CancelOrder(x, r.ticker, Owner(r.client, r.orderId)))
  {
    hide Withdrawn, CancelRefused, Sound, CancelOrder;
    CancelServed(cfg, x, r.ticker, Owner(r.client, r.orderId));
  }

  lemma {:induction false} ProcessDispatches(cfg: Config, books: seq<XBook>, r: Request)
    requires cfg.Valid() && EngineSound(cfg, books) && Sided(r)
    ensures Dispatched(cfg, books, r, Process(cfg, books, r))
  {
    hide ServesNew, ServesCancel, Sound, AddOrder, CancelOrder;
    if r.ticker < cfg.tickers && r.kind == NewRequest {
      NewServes(cfg, books[r.ticker], r);
    } else if r.ticker < cfg.tickers && r.kind == CancelRequest {
      CancelServes(cfg, books[r.ticker], r);
    }
  }

  /** After any run from start-up the next request is dispatched and served so. */
  lemma {:induction false} NextServed(cfg: Config, rs: seq<Request>, r: Request)
    requires cfg.Valid() && Sided(r) && forall q | q in rs :: Sided(q)
    ensures Dispatched(cfg, Run(cfg, rs).books, r, Process(cfg, Run(cfg, rs).books, r))
  {
    hide Dispatched, EngineSound, Process, Run;
    RunSound(cfg, rs);
    ProcessDispatches(cfg, Run(cfg, rs).books, r);
  }
}
