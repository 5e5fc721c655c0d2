/** The matching engine as a function: one request in, a new book and the
  * responses and market updates it emits out.
  */
module Exchange {
  import opened Types
  import opened PriceTime

  /** What one call sends to the two outgoing queues. */
  datatype Effects = Effects(responses: seq<Response>, updates: seq<MarketUpdate>) {
    function Then(next: Effects): Effects {
      Effects(responses + next.responses, updates + next.updates)
    }
  }

  const QUIET := Effects([], [])

  /** The order being matched: everything about it except how much is left. */
  datatype Taker = Taker(ticker: nat, owner: Owner, id: nat, side: Side, price: nat)

  datatype XBook = XBook(book: Book, nextId: nat)

  const FRESH_XBOOK := XBook(EMPTY_BOOK, 1)

  datatype Swept = Swept(rest: seq<Order>, leaves: nat, effects: Effects)

  datatype Outcome = Outcome(x: XBook, effects: Effects)

  // ---------- messages ----------

  function TakerFill(t: Taker, price: nat, qty: nat, leaves: nat): Response {
    Response(Filled, t.owner.client, t.ticker, t.owner.orderId, t.id, t.side, price, qty, leaves)
  }

  function MakerFill(ticker: nat, maker: Order, qty: nat, leaves: nat): Response {
    Response(Filled, maker.owner.client, ticker, maker.owner.orderId, maker.id, maker.side,
             maker.price, qty, leaves)
  }

  function TradeUpdate(t: Taker, price: nat, qty: nat): MarketUpdate {
    MarketUpdate(Trade, t.ticker, t.side, price, qty, INVALID_64, INVALID_64)
  }

  /** An update that names a resting order. */
  function OrderUpdate(kind: UpdateKind, ticker: nat, o: Order): MarketUpdate {
    MarketUpdate(kind, ticker, o.side, o.price, o.qty, o.id, o.priority)
  }

  function Rejection(client: nat, ticker: nat, orderId: nat, side: Side, price: nat): Response {
    Response(Rejected, client, ticker, orderId, INVALID_64, side, price, 0, 0)
  }

  // ---------- matching ----------

  /** One call of `match`: the taker with `leaves` left meets `maker`. */
  function MatchEffects(t: Taker, maker: Order, leaves: nat): Effects {
    var fill := Min(leaves, maker.qty);
    Effects([TakerFill(t, maker.price, fill, leaves - fill),
             MakerFill(t.ticker, maker, fill, maker.qty - fill)],
            [TradeUpdate(t, maker.price, fill),
             if fill == maker.qty then OrderUpdate(Cancel, t.ticker, maker)
             else OrderUpdate(Modify, t.ticker, maker.(qty := maker.qty - fill))])
  }

  function AfterMatch(opp: seq<Order>, leaves: nat): seq<Order>
    requires opp != []
  {
    if opp[0].qty <= leaves then opp[1..] else [opp[0].(qty := opp[0].qty - leaves)] + opp[1..]
  }

  /** `checkForMatch`: trade with the head of the other side while it crosses. */
  function Sweep(t: Taker, opp: seq<Order>, leaves: nat): Swept
    decreases leaves + |opp|
  {
    if leaves == 0 || opp == [] || !Crosses(t.side, t.price, opp[0].price) then
      Swept(opp, leaves, QUIET)
    else
      var s := Sweep(t, AfterMatch(opp, leaves), leaves - Min(leaves, opp[0].qty));
      s.(effects := MatchEffects(t, opp[0], leaves).Then(s.effects))
  }

  // ---------- the two requests ----------

  /** The ids are in range, the owner has no live order under this id, and the
    * price does not share its slot with another live price.
    */
  predicate Admits(cfg: Config, b: Book, owner: Owner, price: nat)
    requires cfg.Valid()
  {
    && owner.client < cfg.clients
    && owner.orderId < cfg.orderIds
    && !OwnerRests(b.bids, owner) && !OwnerRests(b.asks, owner)
    && !Aliased(cfg.priceLevels, b.bids, price) && !Aliased(cfg.priceLevels, b.asks, price)
  }

  predicate OwnerRests(s: seq<Order>, owner: Owner) {
    exists o | o in s :: o.owner == owner
  }

  function AddOrder(cfg: Config, x: XBook, ticker: nat, owner: Owner, side: Side, price: nat, qty: nat)
    : Outcome
    requires cfg.Valid()
  {
    if !Admits(cfg, x.book, owner, price) then
      Outcome(x, Effects([Rejection(owner.client, ticker, owner.orderId, side, price)], []))
    else
      var t := Taker(ticker, owner, x.nextId, side, price);
      Settle(x.book, t, qty, Sweep(t, x.book.On(Opposite(side)), qty))
  }

  /** An accepted order once swept: acknowledged first, and resting if anything is left. */
  function Settle(b: Book, t: Taker, qty: nat, s: Swept): Outcome {
    var swept := b.With(Opposite(t.side), s.rest);
    var accepted := Effects([Acceptance(t, qty)], []).Then(s.effects);
    if s.leaves == 0 then
      Outcome(XBook(swept, t.id + 1), accepted)
    else
      var o := Remainder(t, swept, s.leaves);
      Outcome(XBook(Rested(swept, o), t.id + 1), accepted.Then(Effects([], [OrderUpdate(Add, t.ticker, o)])))
  }

  function Acceptance(t: Taker, qty: nat): Response {
    Response(Accepted, t.owner.client, t.ticker, t.owner.orderId, t.id, t.side, t.price, 0, qty)
  }

  /** The order that rests for what the sweep left unfilled. */
  function Remainder(t: Taker, b: Book, leaves: nat): Order {
    Order(t.owner, t.id, t.side, t.price, leaves, NextPriority(b.On(t.side), t.price))
  }

  function FindOwner(s: seq<Order>, owner: Owner): Option<Order> {
    if s == [] then None
    else if s[0].owner == owner then Some(s[0])
    else FindOwner(s[1..], owner)
  }

  function Lookup(b: Book, owner: Owner): Option<Order> {
    var bid := FindOwner(b.bids, owner);
    if bid.Some? then bid else FindOwner(b.asks, owner)
  }

  function CancelOrder(x: XBook, ticker: nat, owner: Owner): Outcome {
    match Lookup(x.book, owner)
    case None =>
      Outcome(x, Effects([Response(CancelRejected, owner.client, ticker, owner.orderId, INVALID_64,
                                   NoSide, INVALID_64, 0, 0)], []))
    case Some(o) =>
      Outcome(x.(book := x.book.With(o.side, Remove(x.book.On(o.side), o.id))),
              Effects([Response(Canceled, owner.client, ticker, owner.orderId, o.id, o.side, o.price, 0, 0)],
                      [OrderUpdate(Cancel, ticker, o)]))
  }

  // ---------- the engine: one book per ticker ----------

  datatype EngineOutcome = EngineOutcome(books: seq<XBook>, effects: Effects)

  /** Dispatch of one request. Side bytes other than BUY and SELL are not modelled. */
  function Process(cfg: Config, books: seq<XBook>, r: Request): EngineOutcome
    requires cfg.Valid() && |books| == cfg.tickers
  {
    if r.ticker >= cfg.tickers || r.kind == OtherRequest then
      EngineOutcome(books, Effects([Rejection(r.client, r.ticker, r.orderId, r.side, r.price)], []))
    else
      var owner := Owner(r.client, r.orderId);
      var out := if r.kind == NewRequest
                 then AddOrder(cfg, books[r.ticker], r.ticker, owner, r.side, r.price, r.qty)
                 else CancelOrder(books[r.ticker], r.ticker, owner);
      EngineOutcome(books[r.ticker := out.x], out.effects)
  }

  // ---------- what every book keeps ----------

  ghost predicate Proper(cfg: Config, nextId: nat, o: Order) {
    && 0 < o.qty
    && o.id < nextId
    && o.owner.client < cfg.clients
    && o.owner.orderId < cfg.orderIds
  }

  /** An owner names at most one order, and so does a market id. */
  ghost predicate Keyed(b: Book) {
    forall o, p | b.Has(o) && b.Has(p) :: o.owner == p.owner || o.id == p.id ==> o == p
  }

  /** No two live prices share a slot. */
  ghost predicate AliasFree(priceLevels: nat, b: Book)
    requires 0 < priceLevels
  {
    forall o, p | b.Has(o) && b.Has(p) :: o.price % priceLevels == p.price % priceLevels ==> o.price == p.price
  }

  ghost predicate Uncrossed(b: Book) {
    forall o, p | o in b.bids && p in b.asks :: o.price < p.price
  }

  /** Within a level priorities rise with arrival. */
  ghost predicate Prioritised(s: seq<Order>) {
    && (forall o | o in s :: 0 < o.priority)
    && (forall o, p | o in s && p in s :: o.price == p.price && o.id < p.id ==> o.priority < p.priority)
  }

  ghost predicate Sound(cfg: Config, x: XBook)
    requires cfg.Valid()
  {
    && 0 < x.nextId
    && Sorted(Buy, x.book.bids) && Sorted(Sell, x.book.asks)
    && (forall o | x.book.Has(o) :: Proper(cfg, x.nextId, o))
    && Keyed(x.book)
    && AliasFree(cfg.priceLevels, x.book)
    && Uncrossed(x.book)
    && Prioritised(x.book.bids) && Prioritised(x.book.asks)
  }

  // ---------- the sweep is the greedy price-time sweep ----------

  /** A FILLED to `owner` about its order `id`, field by field. */
  ghost predicate TellsFill(r: Response, ticker: nat, owner: Owner, id: nat, side: Side, price: nat, qty: nat,
                            leaves: nat)
  {
    && r.kind == Filled && r.client == owner.client && r.clientOrderId == owner.orderId
    && r.ticker == ticker && r.marketOrderId == id && r.side == side
    && r.price == price && r.execQty == qty && r.leavesQty == leaves
  }

  /** Fill `i` of a sweep, of `qty` at the price of the resting order `maker`: who is told what. */
  ghost predicate TellsBoth(t: Taker, maker: Order, qty: nat, left: nat, i: nat, e: Effects)
    requires qty <= maker.qty && |e.responses| == |e.updates| && 2 * i + 1 < |e.responses|
  {
    var trade := e.updates[2 * i];
    && TellsFill(e.responses[2 * i], t.ticker, t.owner, t.id, t.side, maker.price, qty, left)
    && TellsFill(e.responses[2 * i + 1], t.ticker, maker.owner, maker.id, maker.side, maker.price, qty, maker.qty - qty)
    && trade.kind == Trade && trade.ticker == t.ticker && trade.side == t.side
    && trade.price == maker.price && trade.qty == qty
    && trade.orderId == INVALID_64 && trade.priority == INVALID_64
  }

  /** An update about the resting order `o`, its quantity given apart. */
  ghost predicate TellsOrder(u: MarketUpdate, ticker: nat, o: Order, qty: nat) {
    && u.ticker == ticker && u.side == o.side && u.price == o.price && u.qty == qty
    && u.orderId == o.id && u.priority == o.priority
  }

  /** The reports of the complete fill of `opp[i]`; the CANCEL still names the quantity it had. */
  ghost predicate FullFill(t: Taker, opp: seq<Order>, qty: nat, i: nat, e: Effects)
    requires i < |opp| && |e.responses| == |e.updates| && 2 * i + 1 < |e.responses|
  {
    && TotalQty(opp[..i + 1]) <= qty
    && TellsBoth(t, opp[i], opp[i].qty, qty - TotalQty(opp[..i + 1]), i, e)
    && e.updates[2 * i + 1].kind == Cancel && TellsOrder(e.updates[2 * i + 1], t.ticker, opp[i], opp[i].qty)
  }

  /** The reports of a partial fill of `opp[n]`. */
  ghost predicate PartialFill(t: Taker, opp: seq<Order>, n: nat, part: nat, e: Effects)
    requires n < |opp| && |e.responses| == |e.updates| && 2 * n + 1 < |e.responses|
  {
    && part < opp[n].qty
    && TellsBoth(t, opp[n], part, 0, n, e)
    && e.updates[2 * n + 1].kind == Modify && TellsOrder(e.updates[2 * n + 1], t.ticker, opp[n], opp[n].qty - part)
  }

  /** Exactly `n` complete fills, then a last partial one if `part` is not 0. */
  ghost predicate GreedyReports(t: Taker, opp: seq<Order>, qty: nat, n: nat, part: nat, e: Effects)
    requires n <= |opp| && (part > 0 ==> n < |opp|)
  {
    && |e.responses| == |e.updates| == 2 * (if part == 0 then n else n + 1)
    && (forall i | 0 <= i < n :: FullFill(t, opp, qty, i, e))
    && (part > 0 ==> PartialFill(t, opp, n, part, e))
  }

  /** `s` is what the greedy price-time allocation of `qty` leaves behind: with
    * cumulative depths D(i), the first `n` crossing orders, D(n) <= qty, are
    * filled completely at their own prices, the next one gets `part`, and
    * nothing else is touched.
    */
  ghost predicate Greedy(t: Taker, opp: seq<Order>, qty: nat, n: nat, part: nat, s: Swept) {
    && n <= |opp|
    && TotalQty(opp[..n]) + part <= qty
    && (forall i | 0 <= i < n :: Crosses(t.side, t.price, opp[i].price))
    && (part > 0 ==> n < |opp| && part < opp[n].qty && Crosses(t.side, t.price, opp[n].price))
    && s.leaves == qty - TotalQty(opp[..n]) - part
    && (s.leaves == 0 || n == |opp| || (part == 0 && !Crosses(t.side, t.price, opp[n].price)))
    && s.rest == (if part == 0 then opp[n..] else [opp[n].(qty := opp[n].qty - part)] + opp[n + 1..])
    && GreedyReports(t, opp, qty, n, part, s.effects)
  }

  lemma {:induction false} GreedyReportsCons(t: Taker, opp: seq<Order>, qty: nat, n: nat, part: nat, e: Effects)
    requires opp != [] && opp[0].qty <= qty
    requires n < |opp| && (part > 0 ==> n + 1 < |opp|)
    requires GreedyReports(t, opp[1..], qty - opp[0].qty, n, part, e)
    ensures GreedyReports(t, opp, qty, n + 1, part, MatchEffects(t, opp[0], qty).Then(e))
  {
    var all := MatchEffects(t, opp[0], qty).Then(e);
    forall i | 0 <= i < n + 1 ensures FullFill(t, opp, qty, i, all) {
      assert opp[..i + 1][1..] == opp[1..][..i];
      if i > 0 {
        assert FullFill(t, opp[1..], qty - opp[0].qty, i - 1, e);
        assert all.responses[2 * i] == e.responses[2 * (i - 1)];
        assert all.responses[2 * i + 1] == e.responses[2 * (i - 1) + 1];
        assert all.updates[2 * i] == e.updates[2 * (i - 1)];
        assert all.updates[2 * i + 1] == e.updates[2 * (i - 1) + 1];
      }
    }
  }

  lemma {:induction false} GreedyCons(t: Taker, opp: seq<Order>, qty: nat, n: nat, part: nat, s: Swept)
    requires opp != [] && opp[0].qty <= qty && Crosses(t.side, t.price, opp[0].price)
    requires Greedy(t, opp[1..], qty - opp[0].qty, n, part, s)
    ensures Greedy(t, opp, qty, n + 1, part, s.(effects := MatchEffects(t, opp[0], qty).Then(s.effects)))
  {
    hide GreedyReports, MatchEffects, TotalQty, Crosses;
    var tail := opp[1..];
    TailOf(opp, n);
    forall i | 0 <= i < n + 1 ensures Crosses(t.side, t.price, opp[i].price) {
      assert i > 0 ==> opp[i] == tail[i - 1];
    }
    GreedyReportsCons(t, opp, qty, n, part, s.effects);
  }

  lemma {:induction false} TailOf(opp: seq<Order>, n: nat)
    requires opp != [] && n < |opp|
    ensures TotalQty(opp[..n + 1]) == opp[0].qty + TotalQty(opp[1..][..n]) && opp[1..][n..] == opp[n + 1..]
    ensures n < |opp[1..]| ==> opp[1..][n] == opp[n + 1] && opp[1..][n + 1..] == opp[n + 2..]
  {
    assert opp[..n + 1][1..] == opp[1..][..n];
  }

  lemma {:induction false} GreedyNone(t: Taker, opp: seq<Order>, qty: nat)
    requires qty == 0 || opp == [] || !Crosses(t.side, t.price, opp[0].price)
    ensures Greedy(t, opp, qty, 0, 0, Swept(opp, qty, QUIET))
  {
    assert opp[..0] == [] && opp[0..] == opp;
  }

  lemma {:induction false} GreedyPartial(t: Taker, opp: seq<Order>, qty: nat)
    requires opp != [] && 0 < qty < opp[0].qty && Crosses(t.side, t.price, opp[0].price)
    ensures Greedy(t, opp, qty, 0, qty, Swept(AfterMatch(opp, qty), 0, MatchEffects(t, opp[0], qty).Then(QUIET)))
  {
    var e := MatchEffects(t, opp[0], qty);
    assert e.Then(QUIET) == e;
    assert PartialFill(t, opp, 0, qty, e);
  }

  lemma {:induction false} SweepStep(t: Taker, opp: seq<Order>, leaves: nat)
    requires 0 < leaves && opp != [] && Crosses(t.side, t.price, opp[0].price)
    ensures var s := Sweep(t, AfterMatch(opp, leaves), leaves - Min(leaves, opp[0].qty));
            Sweep(t, opp, leaves) == Swept(s.rest, s.leaves, MatchEffects(t, opp[0], leaves).Then(s.effects))
  {
  }

  /** The loop of `match` calls is the greedy price-time allocation. */
  lemma {:induction false} GreedySweep(t: Taker, opp: seq<Order>, qty: nat) returns (n: nat, part: nat)
    requires forall o | o in opp :: 0 < o.qty
    ensures Greedy(t, opp, qty, n, part, Sweep(t, opp, qty))
  {
    hide Greedy, TotalQty, AfterMatch, MatchEffects;
    n, part := 0, 0;
    if qty == 0 || opp == [] || !Crosses(t.side, t.price, opp[0].price) {
      GreedyNone(t, opp, qty);
    } else if opp[0].qty <= qty {
      n, part := GreedySweep(t, opp[1..], qty - opp[0].qty);
      GreedyFull(t, opp, qty, n, part);
      n := n + 1;
    } else {
      part := qty;
      GreedyLast(t, opp, qty);
    }
  }

  lemma {:induction false} GreedyFull(t: Taker, opp: seq<Order>, qty: nat, n: nat, part: nat)
    requires opp != [] && 0 < opp[0].qty <= qty && Crosses(t.side, t.price, opp[0].price)
    requires Greedy(t, opp[1..], qty - opp[0].qty, n, part, Sweep(t, opp[1..], qty - opp[0].qty))
    ensures Greedy(t, opp, qty, n + 1, part, Sweep(t, opp, qty))
  {
    hide Greedy, Sweep, MatchEffects, Effects.Then;
    SweepStep(t, opp, qty);
    GreedyCons(t, opp, qty, n, part, Sweep(t, opp[1..], qty - opp[0].qty));
  }

  lemma {:induction false} GreedyLast(t: Taker, opp: seq<Order>, qty: nat)
    requires opp != [] && 0 < qty < opp[0].qty && Crosses(t.side, t.price, opp[0].price)
    ensures Greedy(t, opp, qty, 0, qty, Sweep(t, opp, qty))
  {
    SweepStep(t, opp, qty);
    GreedyPartial(t, opp, qty);
    assert Sweep(t, AfterMatch(opp, qty), 0) == Swept(AfterMatch(opp, qty), 0, QUIET);
  }
}
