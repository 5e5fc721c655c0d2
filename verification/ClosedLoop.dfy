/** The trading loop closed: strategy, order manager and risk check on one side,
  * the matching engine on the other, FIFO queues of requests and responses in
  * between, and any other clients trading at any moment.
  */
module ClosedLoop {
  import opened Types
  import opened PriceTime
  import opened Exchange
  import opened Soundness
  import opened Ledger
  import Position
  import Orders

  /** `requests` are on their way to the engine; `sent` is every response the engine
    * has addressed to this client, of which the first `read` have been handled.
    */
  datatype Loop = Loop(manager: Orders.Book, holdings: seq<Position.Holding>, requests: seq<Request>,
                       books: seq<XBook>, sent: seq<Response>, read: nat)

  datatype Event =
    | Strategy(ticker: nat, bid: nat, ask: nat, clip: nat)
    | EngineTakes
    | OtherClient(request: Request)
    | ClientReads(quote: Position.Quote)
    | BookMoves(ticker: nat, quote: Position.Quote)

  /** This client, its limits per instrument, and the exchange's capacities. */
  datatype Setup = Setup(cfg: Config, client: nat, limits: seq<Orders.Limits>) {
    /** Limits small enough for 32-bit position arithmetic. */
    predicate Valid() {
      && cfg.Valid()
      && |limits| == cfg.tickers
      && forall t | 0 <= t < |limits| :: limits[t].maxOrderSize + limits[t].maxPosition < 0x8000_0000
    }
  }

  function Mine(client: nat, rs: seq<Response>): seq<Response> {
    if rs == [] then []
    else Mine(client, rs[..|rs| - 1]) + if rs[|rs| - 1].client == client then [rs[|rs| - 1]] else []
  }

  predicate WellFormed(s: Setup, l: Loop) {
    && l.manager.Sized(s.cfg.tickers)
    && |l.holdings| == |l.books| == s.cfg.tickers
    && l.read <= |l.sent|
  }

  function Start(s: Setup): Loop {
    Loop(Orders.Book(seq(s.cfg.tickers, _ => seq(Orders.SIDES, _ => Orders.FRESH_SLOT)), 1),
         seq(s.cfg.tickers, _ => Position.FLAT), [], FreshEngine(s.cfg), [], 0)
  }

  /** `TradeEngine::handleResponse`: fills reach the position first, then every
    * response reaches the order manager.
    */
  function HandleResponse(l: Loop, r: Response, quote: Position.Quote): Loop
    requires r.ticker < |l.holdings| && r.ticker < |l.manager.slots| && |l.manager.slots[r.ticker]| == Orders.SIDES
  {
    var h := l.holdings[r.ticker];
    var g := if r.kind == Filled
             then Position.AfterQuote(Position.AfterFill(h, r.side, r.price, r.execQty), quote) else h;
    l.(holdings := l.holdings[r.ticker := g], manager := Orders.OnOrderUpdate(l.manager, r))
  }

  function Next(s: Setup, l: Loop, e: Event): (r: Loop)
    requires s.Valid() && WellFormed(s, l)
    ensures WellFormed(s, r)
  {
    match e
    case Strategy(ticker, bid, ask, clip) =>
      if ticker >= s.cfg.tickers then l
      else
        var out := Orders.MoveOrders(s.client, l.manager, s.limits[ticker], l.holdings[ticker], ticker, bid, ask, clip);
        l.(manager := out.book, requests := l.requests + out.requests)
    case EngineTakes =>
      if l.requests == [] then l
      else
        var out := Process(s.cfg, l.books, l.requests[0]);
        l.(requests := l.requests[1..], books := out.books, sent := l.sent + Mine(s.client, out.effects.responses))
    case OtherClient(request) =>
      if request.client == s.client then l
      else
        var out := Process(s.cfg, l.books, request);
        l.(books := out.books, sent := l.sent + Mine(s.client, out.effects.responses))
    case ClientReads(quote) =>
      if l.read == |l.sent| then l
      else
        var r := l.sent[l.read];
        if r.ticker >= s.cfg.tickers then l.(read := l.read + 1)
        else HandleResponse(l, r, quote).(read := l.read + 1)
    case BookMoves(ticker, quote) =>
      if ticker >= s.cfg.tickers then l
      else l.(holdings := l.holdings[ticker := Position.AfterQuote(l.holdings[ticker], quote)])
  }

  function Reach(s: Setup, events: seq<Event>): (l: Loop)
    requires s.Valid()
    ensures WellFormed(s, l)
  {
    if events == [] then Start(s)
    else Next(s, Reach(s, events[..|events| - 1]), events[|events| - 1])
  }

  // ---------- the client's share of the responses ----------

  lemma {:induction false} MineReplay(client: nat, rs: seq<Response>, ticker: nat, orderId: nat, a: Account)
    ensures Replay(ticker, Owner(client, orderId), a, rs) == Replay(ticker, Owner(client, orderId), a, Mine(client, rs))
  {
    hide Note;
    if rs != [] {
      var init, r := rs[..|rs| - 1], rs[|rs| - 1];
      MineReplay(client, init, ticker, orderId, a);
      var mine := Mine(client, init);
      if r.client == client {
        ReplayLast(ticker, Owner(client, orderId), a, mine, r);
      } else {
        assert Mine(client, rs) == mine;
      }
    }
  }

  lemma {:induction false} ReplayLast(ticker: nat, owner: Owner, a: Account, rs: seq<Response>, r: Response)
    ensures Replay(ticker, owner, a, rs + [r]) ==
            if Concerns(r, ticker, owner) then Note(Replay(ticker, owner, a, rs), r) else Replay(ticker, owner, a, rs)
  {
    assert (rs + [r])[..|rs|] == rs;
  }

  lemma {:induction false} MineHas(client: nat, rs: seq<Response>)
    ensures forall r :: r in Mine(client, rs) <==> r in rs && r.client == client
  {
    if rs != [] {
      MineHas(client, rs[..|rs| - 1]);
      assert rs == rs[..|rs| - 1] + [rs[|rs| - 1]];
    }
  }

  /** A faulted account never recovers, so no prefix of a clean history is faulty. */
  lemma {:induction false} FaultSticks(ticker: nat, owner: Owner, rs: seq<Response>)
    ensures Replay(ticker, owner, Fault, rs) == Fault
  {
    if rs != [] {
      FaultSticks(ticker, owner, rs[..|rs| - 1]);
    }
  }

  // ---------- the invariant ----------

  predicate Working(state: Orders.OrderState) {
    state == Orders.Live || state == Orders.PendingCancel
  }

  /** What the responses handled so far say about one of this client's order ids. */
  function Known(s: Setup, l: Loop, ticker: nat, orderId: nat): Account
    requires l.read <= |l.sent|
  {
    Replay(ticker, Owner(s.client, orderId), Closed, l.sent[..l.read])
  }

  /** All responses, handled or in flight, agree with the engine's books. */
  ghost predicate Accounted(s: Setup, l: Loop)
    requires WellFormed(s, l)
  {
    forall t: nat, c: nat | t < s.cfg.tickers ::
      Replay(t, Owner(s.client, c), Closed, l.sent) == AccountOf(l.books[t].book, Owner(s.client, c))
  }

  /** An order known to be open is the one its slot tracks, with the exact quantity. */
  ghost predicate Tracked(s: Setup, l: Loop)
    requires WellFormed(s, l)
  {
    forall t: nat, c: nat | t < s.cfg.tickers && Known(s, l, t, c).Open? ::
      var a := Known(s, l, t, c);
      && a.side != NoSide
      && Working(l.manager.At(t, a.side).state)
      && l.manager.At(t, a.side).orderId == c
      && l.manager.At(t, a.side).qty == a.qty
  }

  /** The slot that a NEW or its ACCEPTED will be matched with is still waiting for it. */
  ghost predicate Awaits(s: Setup, l: Loop, ticker: nat, side: Side, orderId: nat, qty: nat)
    requires WellFormed(s, l)
  {
    && ticker < s.cfg.tickers && side != NoSide
    && l.manager.At(ticker, side).state == Orders.PendingNew
    && l.manager.At(ticker, side).orderId == orderId
    && l.manager.At(ticker, side).qty == qty
  }

  ghost predicate Awaited(s: Setup, l: Loop)
    requires WellFormed(s, l)
  {
    && (forall i | 0 <= i < |l.requests| && l.requests[i].kind == NewRequest ::
          Awaits(s, l, l.requests[i].ticker, l.requests[i].side, l.requests[i].orderId, l.requests[i].qty))
    && (forall j | l.read <= j < |l.sent| && l.sent[j].kind == Accepted ::
          Awaits(s, l, l.sent[j].ticker, l.sent[j].side, l.sent[j].clientOrderId, l.sent[j].leavesQty))
  }

  /** Order ids rise along the path NEW, queue, ACCEPTED; none is used twice. */
  ghost predicate Rising(s: Setup, l: Loop) {
    && (forall i | 0 <= i < |l.requests| :: l.requests[i].client == s.client)
    && (forall i | 0 <= i < |l.requests| && l.requests[i].kind == NewRequest ::
          l.requests[i].orderId < l.manager.nextId)
    && (forall i, k | 0 <= i < k < |l.requests| && l.requests[i].kind == l.requests[k].kind == NewRequest ::
          l.requests[i].orderId < l.requests[k].orderId)
    && (forall j | 0 <= j < |l.sent| && l.sent[j].kind == Accepted :: l.sent[j].clientOrderId < l.manager.nextId)
    && (forall j, i | 0 <= j < |l.sent| && 0 <= i < |l.requests|
                      && l.sent[j].kind == Accepted && l.requests[i].kind == NewRequest ::
          l.sent[j].clientOrderId < l.requests[i].orderId)
    && (forall j, k | 0 <= j < k < |l.sent| && l.sent[j].kind == l.sent[k].kind == Accepted ::
          l.sent[j].clientOrderId < l.sent[k].clientOrderId)
  }

  /** Quantity that may still trade on a slot. */
  function Exposed(slot: Orders.Slot): nat {
    if slot.state == Orders.PendingNew || Working(slot.state) then slot.qty else 0
  }

  /** Even if everything exposed on one side trades, the limit holds. */
  predicate Within(limits: Orders.Limits, position: int, buy: Orders.Slot, sell: Orders.Slot) {
    && position + Exposed(buy) <= limits.maxPosition
    && Exposed(sell) <= limits.maxPosition + position
  }

  ghost predicate AllWithin(s: Setup, l: Loop)
    requires s.Valid() && WellFormed(s, l)
  {
    forall t: nat | t < s.cfg.tickers ::
      Within(s.limits[t], l.holdings[t].position, l.manager.At(t, Buy), l.manager.At(t, Sell))
  }

  ghost predicate LoopOk(s: Setup, l: Loop)
    requires s.Valid() && WellFormed(s, l)
  {
    && EngineSound(s.cfg, l.books)
    && (forall r | r in l.sent :: r.client == s.client)
    && Accounted(s, l) && Tracked(s, l) && Awaited(s, l) && Rising(s, l) && AllWithin(s, l)
  }

  lemma {:induction false} AtWith(b: Orders.Book, tickers: nat, ticker: nat, side: Side, slot: Orders.Slot)
    requires b.Sized(tickers) && ticker < tickers
    ensures var c := b.With(ticker, side, slot);
            && c.Sized(tickers) && c.nextId == b.nextId
            && (forall t: nat, d: Side | t < tickers ::
                  c.At(t, d) == if t == ticker && d == side then slot else b.At(t, d))
  {
  }

  // ---------- the strategy moves an order ----------

  lemma {:induction false} PlaceOk(s: Setup, l: Loop, ticker: nat, price: nat, side: Side, qty: nat)
    requires s.Valid() && WellFormed(s, l) && LoopOk(s, l) && ticker < s.cfg.tickers && side != NoSide
    requires !Working(l.manager.At(ticker, side).state) && l.manager.At(ticker, side).state != Orders.PendingNew
    requires Orders.CheckPreTradeRisk(s.limits[ticker], l.holdings[ticker].position, l.holdings[ticker].totalPnl,
                                      side, qty) == Orders.Allowed
    ensures var id := l.manager.nextId;
            var slot := Orders.Slot(Orders.PendingNew, ticker, id, side, price, qty);
            var r := Request(NewRequest, s.client, ticker, id, side, price, qty);
            LoopOk(s, l.(manager := l.manager.With(ticker, side, slot).(nextId := id + 1),
                requests := l.requests + [r]))
  {
    hide EngineSound, AccountOf, Replay;
    var id := l.manager.nextId;
    var slot := Orders.Slot(Orders.PendingNew, ticker, id, side, price, qty);
    AtWith(l.manager, s.cfg.tickers, ticker, side, slot);
    var m := l.(manager := l.manager.With(ticker, side, slot).(nextId := id + 1),
                requests := l.requests + [Request(NewRequest, s.client, ticker, id, side, price, qty)]);
    assert forall t: nat, d: Side | t < s.cfg.tickers ::
        m.manager.At(t, d) == if t == ticker && d == side then slot else l.manager.At(t, d);
    assert Accounted(s, m);
    assert Tracked(s, m) by {
      forall t: nat, c: nat | t < s.cfg.tickers && Known(s, m, t, c).Open?
        ensures var a := Known(s, m, t, c);
                && a.side != NoSide && Working(m.manager.At(t, a.side).state)
                && m.manager.At(t, a.side).orderId == c && m.manager.At(t, a.side).qty == a.qty {
        assert Known(s, l, t, c) == Known(s, m, t, c);
      }
    }
    PlaceAwaited(s, l, m, ticker, side, slot);
    PlaceWithin(s, l, m, ticker, side, slot);
  }

  lemma {:induction false} PlaceAwaited(s: Setup, l: Loop, m: Loop, ticker: nat, side: Side, slot: Orders.Slot)
    requires s.Valid() && WellFormed(s, l) && WellFormed(s, m) && ticker < s.cfg.tickers && side != NoSide
    requires Awaited(s, l) && Rising(s, l)
    requires l.manager.At(ticker, side).state != Orders.PendingNew
    requires slot.state == Orders.PendingNew && slot.orderId == l.manager.nextId
    requires m == l.(manager := l.manager.With(ticker, side, slot).(nextId := slot.orderId + 1),
                     requests := l.requests +
                         [Request(NewRequest, s.client, ticker, slot.orderId, side, slot.price, slot.qty)])
    ensures Awaited(s, m) && Rising(s, m)
  {
    PlaceRising(s, l, m, slot, m.requests[|l.requests|]);
    hide Rising;
    AtWith(l.manager, s.cfg.tickers, ticker, side, slot);
    assert forall t: nat, d: Side | t < s.cfg.tickers ::
        m.manager.At(t, d) == if t == ticker && d == side then slot else l.manager.At(t, d);
    assert forall i | 0 <= i < |l.requests| :: m.requests[i] == l.requests[i];
  }

  lemma {:induction false} PlaceRising(s: Setup, l: Loop, m: Loop, slot: Orders.Slot, r: Request)
    requires Rising(s, l) && r.client == s.client && r.kind == NewRequest && r.orderId == l.manager.nextId
    requires m.manager.nextId == l.manager.nextId + 1 && m.requests == l.requests + [r] && m.sent == l.sent
    ensures Rising(s, m)
  {
    assert forall i | 0 <= i < |l.requests| :: m.requests[i] == l.requests[i];
  }

  /** The position limit counts only the position, yet bounds everything exposed:
    * the slot was empty, so the new order is all there is on this side.
    */
  lemma {:induction false} PlaceWithin(s: Setup, l: Loop, m: Loop, ticker: nat, side: Side, slot: Orders.Slot)
    requires s.Valid() && WellFormed(s, l) && WellFormed(s, m) && ticker < s.cfg.tickers && side != NoSide
    requires AllWithin(s, l) && m.holdings == l.holdings
    requires m.manager.slots == l.manager.With(ticker, side, slot).slots
    requires slot.state == Orders.PendingNew
    requires Orders.CheckPreTradeRisk(s.limits[ticker], l.holdings[ticker].position, l.holdings[ticker].totalPnl,
                                      side, slot.qty) == Orders.Allowed
    ensures AllWithin(s, m)
  {
    AtWith(l.manager, s.cfg.tickers, ticker, side, slot);
    AllowedMeans(s.limits[ticker], l.holdings[ticker], side, slot.qty);
    hide Orders.CheckPreTradeRisk;
    forall t: nat | t < s.cfg.tickers
      ensures Within(s.limits[t], m.holdings[t].position, m.manager.At(t, Buy), m.manager.At(t, Sell)) {
      assert Within(s.limits[t], l.holdings[t].position, l.manager.At(t, Buy), l.manager.At(t, Sell));
      assert forall d :: m.manager.At(t, d) == l.manager.With(ticker, side, slot).At(t, d);
    }
  }

  /** Within 32-bit limits an allowed order fits next to the position on its side. */
  lemma {:induction false} AllowedMeans(limits: Orders.Limits, h: Position.Holding, side: Side, qty: nat)
    requires side != NoSide && limits.maxOrderSize < 0x8000_0000
    requires Orders.CheckPreTradeRisk(limits, h.position, h.totalPnl, side, qty) == Orders.Allowed
    ensures qty <= limits.maxOrderSize
    ensures side == Buy ==> h.position + qty <= limits.maxPosition
    ensures side == Sell ==> qty <= limits.maxPosition + h.position
  {
    assert Orders.AsInt32(qty) == qty;
  }

  /** The loop once a live order of ours is being withdrawn. */
  function Withdrawn(tickers: nat, l: Loop, ticker: nat, side: Side, r: Request): Loop
    requires l.manager.Sized(tickers) && ticker < tickers
  {
    l.(manager := l.manager.With(ticker, side, l.manager.At(ticker, side).(state := Orders.PendingCancel)),
       requests := l.requests + [r])
  }

  lemma {:induction false} WithdrawTracked(s: Setup, l: Loop, ticker: nat, side: Side, r: Request)
    requires s.Valid() && WellFormed(s, l) && Accounted(s, l) && Tracked(s, l) && ticker < s.cfg.tickers
             && side != NoSide
    requires l.manager.At(ticker, side).state == Orders.Live
    ensures var m := Withdrawn(s.cfg.tickers, l, ticker, side, r); WellFormed(s, m) && Accounted(s, m) && Tracked(s, m)
  {
    hide AccountOf, Replay;
    var m := Withdrawn(s.cfg.tickers, l, ticker, side, r);
    AtWith(l.manager, s.cfg.tickers, ticker, side, l.manager.At(ticker, side).(state := Orders.PendingCancel));
    assert forall t: nat, c: nat :: Known(s, l, t, c) == Known(s, m, t, c);
  }

  lemma {:induction false} WithdrawAwaited(s: Setup, l: Loop, ticker: nat, side: Side, r: Request)
    requires s.Valid() && WellFormed(s, l) && Awaited(s, l) && Rising(s, l) && ticker < s.cfg.tickers && side != NoSide
    requires l.manager.At(ticker, side).state == Orders.Live && r.kind == CancelRequest && r.client == s.client
    ensures var m := Withdrawn(s.cfg.tickers, l, ticker, side, r); WellFormed(s, m) && Awaited(s, m) && Rising(s, m)
  {
    var m := Withdrawn(s.cfg.tickers, l, ticker, side, r);
    CancelRising(s, l, m, r);
    hide Rising;
    AtWith(l.manager, s.cfg.tickers, ticker, side, l.manager.At(ticker, side).(state := Orders.PendingCancel));
    assert forall i | 0 <= i < |l.requests| :: m.requests[i] == l.requests[i];
  }

  lemma {:induction false} CancelRising(s: Setup, l: Loop, m: Loop, r: Request)
    requires Rising(s, l) && r.kind == CancelRequest && r.client == s.client
    requires m.manager.nextId == l.manager.nextId && m.sent == l.sent && m.requests == l.requests + [r]
    ensures Rising(s, m)
  {
    assert forall i | 0 <= i < |l.requests| :: m.requests[i] == l.requests[i];
  }

  lemma {:induction false} WithdrawWithin(s: Setup, l: Loop, ticker: nat, side: Side, r: Request)
    requires s.Valid() && WellFormed(s, l) && AllWithin(s, l) && ticker < s.cfg.tickers && side != NoSide
    requires l.manager.At(ticker, side).state == Orders.Live
    ensures var m := Withdrawn(s.cfg.tickers, l, ticker, side, r); WellFormed(s, m) && AllWithin(s, m)
  {
    var m := Withdrawn(s.cfg.tickers, l, ticker, side, r);
    AtWith(l.manager, s.cfg.tickers, ticker, side, l.manager.At(ticker, side).(state := Orders.PendingCancel));
    forall t: nat | t < s.cfg.tickers
      ensures Within(s.limits[t], m.holdings[t].position, m.manager.At(t, Buy), m.manager.At(t, Sell)) {
      assert Within(s.limits[t], l.holdings[t].position, l.manager.At(t, Buy), l.manager.At(t, Sell));
    }
  }

  lemma {:induction false} WithdrawOk(s: Setup, l: Loop, ticker: nat, side: Side, r: Request)
    requires s.Valid() && WellFormed(s, l) && LoopOk(s, l) && ticker < s.cfg.tickers && side != NoSide
    requires l.manager.At(ticker, side).state == Orders.Live
    requires r.kind == CancelRequest && r.client == s.client
    ensures WellFormed(s, Withdrawn(s.cfg.tickers, l, ticker, side, r))
            && LoopOk(s, Withdrawn(s.cfg.tickers, l, ticker, side, r))
  {
    hide EngineSound, Accounted, Tracked, Awaited, Rising, AllWithin;
    WithdrawTracked(s, l, ticker, side, r);
    WithdrawAwaited(s, l, ticker, side, r);
    WithdrawWithin(s, l, ticker, side, r);
  }

  lemma {:induction false} SameSlot(b: Orders.Book, tickers: nat, ticker: nat, side: Side)
    requires b.Sized(tickers) && ticker < tickers
    ensures b.With(ticker, side, b.At(ticker, side)) == b
  {
    var row, i := b.slots[ticker], Orders.SideIndex(side);
    assert row[i := row[i]] == row;
  }

  lemma {:induction false} MoveOk(s: Setup, l: Loop, ticker: nat, price: nat, side: Side, qty: nat)
    requires s.Valid() && WellFormed(s, l) && LoopOk(s, l) && ticker < s.cfg.tickers && side != NoSide
    ensures var risk := Orders.CheckPreTradeRisk(s.limits[ticker], l.holdings[ticker].position,
                                                 l.holdings[ticker].totalPnl, side, qty);
            var out := Orders.MoveOne(s.client, l.manager, ticker, price, side, qty, risk);
            var m := l.(manager := out.book, requests := l.requests + out.requests);
            WellFormed(s, m) && LoopOk(s, m)
  {
    hide LoopOk;
    var risk := Orders.CheckPreTradeRisk(s.limits[ticker], l.holdings[ticker].position, l.holdings[ticker].totalPnl,
                                         side, qty);
    var slot := l.manager.At(ticker, side);
    var moved := Orders.MoveOrder(s.client, l.manager.nextId, slot, ticker, price, side, qty, risk);
    if moved.requests == [] {
      SameSlot(l.manager, s.cfg.tickers, ticker, side);
      assert l.manager.(nextId := l.manager.nextId) == l.manager;
      assert l.requests + [] == l.requests;
      assert l.(manager := l.manager, requests := l.requests) == l;
    } else if slot.state == Orders.Live {
      WithdrawOk(s, l, ticker, side, moved.requests[0]);
    } else {
      PlaceOk(s, l, ticker, price, side, qty);
    }
  }

  lemma {:induction false} StrategyOk(s: Setup, l: Loop, ticker: nat, bid: nat, ask: nat, clip: nat)
    requires s.Valid() && WellFormed(s, l) && LoopOk(s, l) && ticker < s.cfg.tickers
    ensures LoopOk(s, Next(s, l, Strategy(ticker, bid, ask, clip)))
  {
    hide LoopOk;
    var h := l.holdings[ticker];
    var first := Orders.MoveOne(s.client, l.manager, ticker, bid, Buy, clip,
                                Orders.CheckPreTradeRisk(s.limits[ticker], h.position, h.totalPnl, Buy, clip));
    var mid := l.(manager := first.book, requests := l.requests + first.requests);
    MoveOk(s, l, ticker, bid, Buy, clip);
    MoveOk(s, mid, ticker, ask, Sell, clip);
    var second := Orders.MoveOne(s.client, mid.manager, ticker, ask, Sell, clip,
                                 Orders.CheckPreTradeRisk(s.limits[ticker], h.position, h.totalPnl, Sell, clip));
    assert l.requests + (first.requests + second.requests) == mid.requests + second.requests;
  }

  // ---------- the engine handles a request ----------

  /** What the engine sends this client: only FILLED after the first message, and an
    * ACCEPTED only for a NEW of its own, as asked.
    */
  lemma {:induction false} MineAccepted(client: nat, rs: seq<Response>)
    requires forall i | 0 < i < |rs| :: rs[i].kind == Filled
    ensures var mine := Mine(client, rs);
            && |mine| <= |rs|
            && (forall i | 0 < i < |mine| :: mine[i].kind == Filled)
            && (mine != [] && mine[0].kind != Filled ==> mine[0] == rs[0])
  {
    if rs != [] {
      MineAccepted(client, rs[..|rs| - 1]);
    }
  }

  lemma {:induction false} EngineAccounted(s: Setup, l: Loop, r: Request, m: Loop)
    requires s.Valid() && WellFormed(s, l) && WellFormed(s, m) && EngineSound(s.cfg, l.books) && Accounted(s, l)
    requires Sided(r)
    requires var out := Process(s.cfg, l.books, r);
             m.books == out.books && m.sent == l.sent + Mine(s.client, out.effects.responses)
    ensures Accounted(s, m)
  {
    var rs := Process(s.cfg, l.books, r).effects.responses;
    forall t: nat, c: nat | t < s.cfg.tickers
      ensures Replay(t, Owner(s.client, c), Closed, m.sent) == AccountOf(m.books[t].book, Owner(s.client, c)) {
      var who := Owner(s.client, c);
      ProcessLedger(s.cfg, l.books, r, t, who);
      ReplayConcat(t, who, Closed, l.sent, Mine(s.client, rs));
      MineReplay(s.client, rs, t, c, AccountOf(l.books[t].book, who));
    }
  }

  /** An ACCEPTED among the new responses belongs to the request just handled. */
  lemma {:induction false} NewAccepted(s: Setup, l: Loop, r: Request)
    requires s.Valid() && WellFormed(s, l)
    ensures var mine := Mine(s.client, Process(s.cfg, l.books, r).effects.responses);
            && (forall p | p in mine :: p.client == s.client)
            && (forall i | 0 < i < |mine| :: mine[i].kind == Filled)
            && (forall p | p in mine && p.kind == Accepted ::
                  && r.kind == NewRequest && r.client == s.client
                  && p.ticker == r.ticker && p.side == r.side && p.clientOrderId == r.orderId && p.leavesQty == r.qty)
  {
    var rs := Process(s.cfg, l.books, r).effects.responses;
    ProcessResponses(s.cfg, l.books, r);
    MineAccepted(s.client, rs);
    MineHas(s.client, rs);
  }

  lemma {:induction false} EngineAwaited(s: Setup, l: Loop, r: Request, m: Loop, mine: seq<Response>)
    requires s.Valid() && WellFormed(s, l) && WellFormed(s, m) && Awaited(s, l) && Rising(s, l)
    requires (l.requests != [] && r == l.requests[0] && m.requests == l.requests[1..])
          || (r.client != s.client && m.requests == l.requests)
    requires m.manager == l.manager && m.read == l.read && m.sent == l.sent + mine
    requires forall i | 0 < i < |mine| :: mine[i].kind == Filled
    requires forall p | p in mine && p.kind == Accepted ::
               && r.kind == NewRequest && r.client == s.client
               && p.ticker == r.ticker && p.side == r.side && p.clientOrderId == r.orderId && p.leavesQty == r.qty
    ensures Awaited(s, m) && Rising(s, m)
  {
    var shift := if m.requests == l.requests then 0 else 1;
    assert forall i | 0 <= i < |m.requests| :: m.requests[i] == l.requests[i + shift];
    forall j | 0 <= j < |m.sent| && m.sent[j].kind == Accepted
      ensures (j < |l.sent| && m.sent[j] == l.sent[j]) ||
              (j == |l.sent| && shift == 1 && r == l.requests[0] && r.kind == NewRequest
               && m.sent[j].ticker == r.ticker && m.sent[j].side == r.side
               && m.sent[j].clientOrderId == r.orderId && m.sent[j].leavesQty == r.qty)
    {
      if j >= |l.sent| {
        assert m.sent[j] == mine[j - |l.sent|] && mine[j - |l.sent|] in mine;
        assert l.requests != [] && r == l.requests[0];
        assert m.requests != l.requests;
      }
    }
  }

  lemma {:induction false} EngineOk(s: Setup, l: Loop, r: Request, m: Loop)
    requires s.Valid() && WellFormed(s, l) && LoopOk(s, l) && WellFormed(s, m) && Sided(r)
    requires (l.requests != [] && r == l.requests[0] && m.requests == l.requests[1..])
          || (r.client != s.client && m.requests == l.requests)
    requires var out := Process(s.cfg, l.books, r);
             m == l.(requests := m.requests, books := out.books, sent := l.sent + Mine(s.client, out.effects.responses))
    ensures LoopOk(s, m)
  {
    hide EngineSound, AccountOf, Replay, Process, Rising, Awaited, Accounted;
    var mine := Mine(s.client, Process(s.cfg, l.books, r).effects.responses);
    ProcessKeepsSound(s.cfg, l.books, r);
    EngineAccounted(s, l, r, m);
    NewAccepted(s, l, r);
    EngineAwaited(s, l, r, m, mine);
    forall t: nat, c: nat ensures Known(s, l, t, c) == Known(s, m, t, c) {
      assert m.sent[..m.read] == l.sent[..l.read];
    }
    assert Tracked(s, m);
    assert AllWithin(s, m);
  }

  // ---------- the client handles a response ----------

  lemma {:induction false} KnownClean(s: Setup, l: Loop, n: nat, ticker: nat, orderId: nat)
    requires s.Valid() && WellFormed(s, l) && Accounted(s, l) && n <= |l.sent| && ticker < s.cfg.tickers
    ensures Replay(ticker, Owner(s.client, orderId), Closed, l.sent[..n]) != Fault
  {
    var who := Owner(s.client, orderId);
    assert l.sent == l.sent[..n] + l.sent[n..];
    assert Replay(ticker, who, Closed, l.sent) == AccountOf(l.books[ticker].book, who);
    ReplayConcat(ticker, who, Closed, l.sent[..n], l.sent[n..]);
    FaultSticks(ticker, who, l.sent[n..]);
  }

  lemma {:induction false} KnownStep(s: Setup, l: Loop, ticker: nat, orderId: nat)
    requires l.read < |l.sent|
    ensures var r := l.sent[l.read];
            Known(s, l.(read := l.read + 1), ticker, orderId) ==
            if Concerns(r, ticker, Owner(s.client, orderId)) then Note(Known(s, l, ticker, orderId), r)
            else Known(s, l, ticker, orderId)
  {
    assert l.sent[..l.read + 1][..l.read] == l.sent[..l.read];
  }

  /** What the next response can be, given everything handled so far. */
  ghost predicate Expected(a: Account, r: Response) {
    && (r.kind == Accepted ==> a.Closed?)
    && (r.kind == Filled ==> a.Open? && a.side == r.side && r.execQty + r.leavesQty == a.qty)
    && (r.kind == Canceled ==> a.Open? && a.side == r.side)
  }

  lemma {:induction false} NextExpected(s: Setup, l: Loop)
    requires s.Valid() && WellFormed(s, l) && Accounted(s, l) && l.read < |l.sent|
    requires l.sent[l.read].client == s.client && l.sent[l.read].ticker < s.cfg.tickers
    ensures var r := l.sent[l.read]; Expected(Known(s, l, r.ticker, r.clientOrderId), r)
  {
    var r := l.sent[l.read];
    KnownClean(s, l, l.read + 1, r.ticker, r.clientOrderId);
    KnownStep(s, l, r.ticker, r.clientOrderId);
  }

  /** The slot a response lands on is the slot of the order it is about. */
  lemma {:induction false} LandsOn(s: Setup, l: Loop)
    requires s.Valid() && WellFormed(s, l) && Accounted(s, l) && Tracked(s, l) && Awaited(s, l)
    requires l.read < |l.sent| && l.sent[l.read].client == s.client && l.sent[l.read].ticker < s.cfg.tickers
    ensures var r := l.sent[l.read];
            var slot := l.manager.At(r.ticker, r.side);
            && (r.kind == Accepted ==> Awaits(s, l, r.ticker, r.side, r.clientOrderId, r.leavesQty))
            && (r.kind == Filled ==> r.side != NoSide && Working(slot.state) && slot.orderId == r.clientOrderId
                                     && slot.qty == r.execQty + r.leavesQty)
            && (r.kind == Canceled ==> r.side != NoSide && Working(slot.state) && slot.orderId == r.clientOrderId)
  {
    NextExpected(s, l);
    var r := l.sent[l.read];
    var a := Known(s, l, r.ticker, r.clientOrderId);
  }

  lemma {:induction false} ReadTracked(s: Setup, l: Loop, m: Loop)
    requires s.Valid() && WellFormed(s, l) && WellFormed(s, m) && Accounted(s, l) && Tracked(s, l) && Awaited(s, l)
    requires l.read < |l.sent| && l.sent[l.read].client == s.client && l.sent[l.read].ticker < s.cfg.tickers
    requires m.manager == Orders.OnOrderUpdate(l.manager, l.sent[l.read]) && m.sent == l.sent && m.read == l.read + 1
    ensures Tracked(s, m)
  {
    var r := l.sent[l.read];
    var slot := Orders.OnResponse(l.manager.At(r.ticker, r.side), r);
    AtWith(l.manager, s.cfg.tickers, r.ticker, r.side, slot);
    LandsOn(s, l);
    NextExpected(s, l);
    forall t: nat, c: nat | t < s.cfg.tickers && Known(s, m, t, c).Open?
      ensures var a := Known(s, m, t, c);
              && a.side != NoSide && Working(m.manager.At(t, a.side).state)
              && m.manager.At(t, a.side).orderId == c && m.manager.At(t, a.side).qty == a.qty
    {
      KnownStep(s, l, t, c);
      assert Known(s, m, t, c) == Known(s, l.(read := l.read + 1), t, c);
      var a := Known(s, l, t, c);
      if !Concerns(r, t, Owner(s.client, c)) {
        assert l.manager.At(t, a.side).orderId == c;
      }
    }
  }

  lemma {:induction false} ReadAwaited(s: Setup, l: Loop, m: Loop)
    requires s.Valid() && WellFormed(s, l) && WellFormed(s, m)
    requires Accounted(s, l) && Tracked(s, l) && Awaited(s, l) && Rising(s, l)
    requires l.read < |l.sent| && l.sent[l.read].client == s.client && l.sent[l.read].ticker < s.cfg.tickers
    requires m.manager == Orders.OnOrderUpdate(l.manager, l.sent[l.read])
    requires m.sent == l.sent && m.requests == l.requests && m.read == l.read + 1
    ensures Awaited(s, m) && Rising(s, m)
  {
    var r := l.sent[l.read];
    AtWith(l.manager, s.cfg.tickers, r.ticker, r.side, Orders.OnResponse(l.manager.At(r.ticker, r.side), r));
    LandsOn(s, l);
    hide Accounted, Tracked;
    forall i | 0 <= i < |m.requests| && m.requests[i].kind == NewRequest
      ensures Awaits(s, m, m.requests[i].ticker, m.requests[i].side, m.requests[i].orderId, m.requests[i].qty) {
      assert Awaits(s, l, l.requests[i].ticker, l.requests[i].side, l.requests[i].orderId, l.requests[i].qty);
    }
    forall j | m.read <= j < |m.sent| && m.sent[j].kind == Accepted
      ensures Awaits(s, m, m.sent[j].ticker, m.sent[j].side, m.sent[j].clientOrderId, m.sent[j].leavesQty) {
      assert Awaits(s, l, l.sent[j].ticker, l.sent[j].side, l.sent[j].clientOrderId, l.sent[j].leavesQty);
    }
  }

  lemma {:induction false} ReadWithin(s: Setup, l: Loop, quote: Position.Quote, m: Loop)
    requires s.Valid() && WellFormed(s, l) && WellFormed(s, m) && AllWithin(s, l)
    requires Accounted(s, l) && Tracked(s, l) && Awaited(s, l)
    requires l.read < |l.sent| && l.sent[l.read].client == s.client && l.sent[l.read].ticker < s.cfg.tickers
    requires m == HandleResponse(l, l.sent[l.read], quote).(read := l.read + 1)
    ensures AllWithin(s, m)
  {
    var r := l.sent[l.read];
    AtWith(l.manager, s.cfg.tickers, r.ticker, r.side, Orders.OnResponse(l.manager.At(r.ticker, r.side), r));
    LandsOn(s, l);
    hide Accounted, Tracked, Awaited, Position.AfterFill, Position.AfterQuote;
    forall t: nat | t < s.cfg.tickers
      ensures Within(s.limits[t], m.holdings[t].position, m.manager.At(t, Buy), m.manager.At(t, Sell)) {
      assert Within(s.limits[t], l.holdings[t].position, l.manager.At(t, Buy), l.manager.At(t, Sell));
      PositionAfter(l.holdings[t], r, quote);
    }
  }

  lemma {:induction false} PositionAfter(h: Position.Holding, r: Response, quote: Position.Quote)
    ensures Position.AfterQuote(Position.AfterFill(h, r.side, r.price, r.execQty), quote).position
            == h.position + Position.SideValue(r.side) * r.execQty
  {
  }

  lemma {:induction false} ReadOk(s: Setup, l: Loop, quote: Position.Quote)
    requires s.Valid() && WellFormed(s, l) && LoopOk(s, l) && l.read < |l.sent|
    ensures LoopOk(s, Next(s, l, ClientReads(quote)))
  {
    hide Replay, AccountOf, Sound, Position.AfterFill, Position.AfterQuote, Orders.OnOrderUpdate;
    var m := Next(s, l, ClientReads(quote));
    var r := l.sent[l.read];
    assert r in l.sent;
    assert Accounted(s, m);
    hide Accounted, Tracked, Awaited, Rising, AllWithin;
    if r.ticker < s.cfg.tickers {
      ReadTracked(s, l, m);
      ReadAwaited(s, l, m);
      ReadWithin(s, l, quote, m);
    } else {
      forall t: nat, c: nat | t < s.cfg.tickers ensures Known(s, m, t, c) == Known(s, l, t, c) {
        KnownStep(s, l, t, c);
      }
      assert Tracked(s, m);
    }
  }

  // ---------- every reachable state ----------

  lemma {:induction false} BookMovesOk(s: Setup, l: Loop, ticker: nat, quote: Position.Quote)
    requires s.Valid() && WellFormed(s, l) && LoopOk(s, l) && ticker < s.cfg.tickers
    ensures LoopOk(s, Next(s, l, BookMoves(ticker, quote)))
  {
    hide EngineSound, AccountOf, Replay;
    var m := Next(s, l, BookMoves(ticker, quote));
    assert forall t: nat, c: nat :: Known(s, l, t, c) == Known(s, m, t, c);
    assert Tracked(s, m) && Accounted(s, m) && Awaited(s, m) && Rising(s, m);
    forall t: nat | t < s.cfg.tickers
      ensures Within(s.limits[t], m.holdings[t].position, m.manager.At(t, Buy), m.manager.At(t, Sell)) {
      assert Within(s.limits[t], l.holdings[t].position, l.manager.At(t, Buy), l.manager.At(t, Sell));
    }
  }

  predicate FairEvent(e: Event) {
    e.OtherClient? ==> Sided(e.request)
  }

  /** A request of this client's own is sided. */
  lemma {:induction false} OwnSided(s: Setup, l: Loop)
    requires s.Valid() && WellFormed(s, l) && Awaited(s, l) && l.requests != []
    ensures Sided(l.requests[0])
  {
  }

  lemma {:induction false} NextOk(s: Setup, l: Loop, e: Event)
    requires s.Valid() && WellFormed(s, l) && LoopOk(s, l) && FairEvent(e)
    ensures LoopOk(s, Next(s, l, e))
  {
    match e
    case Strategy(ticker, bid, ask, clip) =>
      if ticker < s.cfg.tickers { StrategyOk(s, l, ticker, bid, ask, clip); }
    case EngineTakes =>
      if l.requests != [] {
        OwnSided(s, l);
        hide LoopOk;
        EngineOk(s, l, l.requests[0], Next(s, l, e));
      }
    case OtherClient(request) =>
      if request.client != s.client {
        hide LoopOk;
        EngineOk(s, l, request, Next(s, l, e));
      }
    case ClientReads(quote) =>
      if l.read < |l.sent| { ReadOk(s, l, quote); }
    case BookMoves(ticker, quote) =>
      if ticker < s.cfg.tickers { BookMovesOk(s, l, ticker, quote); }
  }

  lemma {:induction false} StartOk(s: Setup)
    requires s.Valid()
    ensures LoopOk(s, Start(s))
  {
    FreshSound(s.cfg);
    var l := Start(s);
    forall t: nat, c: nat | t < s.cfg.tickers
      ensures Replay(t, Owner(s.client, c), Closed, l.sent) == AccountOf(l.books[t].book, Owner(s.client, c)) {
      LookupHas(l.books[t].book, Owner(s.client, c));
    }
  }

  lemma {:induction false} ReachOk(s: Setup, events: seq<Event>)
    requires s.Valid() && forall e | e in events :: FairEvent(e)
    ensures LoopOk(s, Reach(s, events))
  {
    if events == [] {
      StartOk(s);
    } else {
      ReachOk(s, events[..|events| - 1]);
      NextOk(s, Reach(s, events[..|events| - 1]), events[|events| - 1]);
    }
  }

  // ---------- what it guarantees ----------

  /** In every interleaving the position never exceeds the limit, although the risk
    * check sees neither resting nor in-flight orders, and it stays inside 32 bits.
    */
  lemma {:induction false} PositionBounded(s: Setup, events: seq<Event>, ticker: nat)
    requires s.Valid() && (forall e | e in events :: FairEvent(e)) && ticker < s.cfg.tickers
    ensures var l := Reach(s, events);
            && Position.Abs(l.holdings[ticker].position) <= s.limits[ticker].maxPosition < 0x8000_0000
            && l.holdings[ticker].position + Exposed(l.manager.At(ticker, Buy)) <= s.limits[ticker].maxPosition
            && Exposed(l.manager.At(ticker, Sell)) <= s.limits[ticker].maxPosition + l.holdings[ticker].position
  {
    ReachOk(s, events);
    var l := Reach(s, events);
    assert Within(s.limits[ticker], l.holdings[ticker].position, l.manager.At(ticker, Buy), l.manager.At(ticker, Sell));
  }

  /** Net quantity executed in the responses not yet handled. */
  function InFlight(ticker: nat, rs: seq<Response>): int {
    if rs == [] then 0
    else InFlight(ticker, rs[1..]) +
         if rs[0].kind == Filled && rs[0].ticker == ticker then Position.SideValue(rs[0].side) * rs[0].execQty else 0
  }

  /** The position including every execution the client has not heard of. */
  function TruePosition(l: Loop, ticker: nat): int
    requires ticker < |l.holdings| && l.read <= |l.sent|
  {
    l.holdings[ticker].position + InFlight(ticker, l.sent[l.read..])
  }

  /** Handling one more response moves its execution from in flight to the position. */
  lemma {:induction false} DrainStep(s: Setup, l: Loop, ticker: nat)
    requires s.Valid() && WellFormed(s, l) && ticker < s.cfg.tickers && l.read < |l.sent|
    ensures var m := Next(s, l, ClientReads(Position.Quote(INVALID_64, INVALID_64)));
            && m.sent == l.sent && m.read == l.read + 1
            && TruePosition(l, ticker) == TruePosition(m, ticker)
  {
    var quote := Position.Quote(INVALID_64, INVALID_64);
    assert l.sent[l.read..][1..] == l.sent[l.read + 1..];
    PositionAfter(l.holdings[ticker], l.sent[l.read], quote);
    hide Position.AfterFill, Position.AfterQuote;
  }

  lemma {:induction false} DrainPosition(s: Setup, l: Loop, ticker: nat)
    requires s.Valid() && WellFormed(s, l) && LoopOk(s, l) && ticker < s.cfg.tickers
    ensures Position.Abs(TruePosition(l, ticker)) <= s.limits[ticker].maxPosition
    decreases |l.sent| - l.read
  {
    if l.read == |l.sent| {
      assert Within(s.limits[ticker], l.holdings[ticker].position, l.manager.At(ticker, Buy),
             l.manager.At(ticker, Sell));
    } else {
      hide LoopOk;
      var quote := Position.Quote(INVALID_64, INVALID_64);
      ReadOk(s, l, quote);
      DrainStep(s, l, ticker);
      DrainPosition(s, Next(s, l, ClientReads(quote)), ticker);
    }
  }

  /** The bound also holds of the true position. */
  lemma {:induction false} TruePositionBounded(s: Setup, events: seq<Event>, ticker: nat)
    requires s.Valid() && (forall e | e in events :: FairEvent(e)) && ticker < s.cfg.tickers
    ensures var l := Reach(s, events);
            Position.Abs(TruePosition(l, ticker)) <= s.limits[ticker].maxPosition
  {
    ReachOk(s, events);
    hide LoopOk, Reach, TruePosition;
    DrainPosition(s, Reach(s, events), ticker);
  }

  // ---------- one order per side, although responses carry no order id check ----------

  /** What the engine had told about an order id after its first `n` responses. */
  function Told(s: Setup, l: Loop, n: nat, ticker: nat, orderId: nat): Account
    requires n <= |l.sent|
  {
    Replay(ticker, Owner(s.client, orderId), Closed, l.sent[..n])
  }

  /** Executions of an order among the unread responses up to the `n`-th. */
  function Unread(s: Setup, l: Loop, n: nat, ticker: nat, orderId: nat): nat
    requires l.read <= n <= |l.sent|
  {
    Executed(ticker, Owner(s.client, orderId), l.sent[l.read..n])
  }

  lemma {:induction false} ToldStep(s: Setup, l: Loop, n: nat, ticker: nat, orderId: nat)
    requires l.read < n <= |l.sent|
    ensures var r := l.sent[n - 1];
            var concerned := Concerns(r, ticker, Owner(s.client, orderId));
            && Told(s, l, n, ticker, orderId) ==
               (if concerned then Note(Told(s, l, n - 1, ticker, orderId), r) else Told(s, l, n - 1, ticker, orderId))
            && Unread(s, l, n, ticker, orderId) ==
               Unread(s, l, n - 1, ticker, orderId) + (if concerned && r.kind == Filled then r.execQty else 0)
  {
    assert l.sent[..n][..n - 1] == l.sent[..n - 1];
    assert l.sent[l.read..n][..n - l.read - 1] == l.sent[l.read..n - 1];
  }

  /** Before its ACCEPTED nothing is known or executed of an order. */
  lemma {:induction false} QuietBefore(s: Setup, l: Loop, n: nat, j: nat)
    requires s.Valid() && WellFormed(s, l) && Accounted(s, l) && Tracked(s, l) && Awaited(s, l) && Rising(s, l)
    requires l.read <= n <= j < |l.sent| && l.sent[j].kind == Accepted && l.sent[j].client == s.client
    ensures var t, c := l.sent[j].ticker, l.sent[j].clientOrderId;
            t < s.cfg.tickers && Told(s, l, n, t, c) == Closed && Unread(s, l, n, t, c) == 0
    decreases n
  {
    var t, c := l.sent[j].ticker, l.sent[j].clientOrderId;
    assert Awaits(s, l, t, l.sent[j].side, c, l.sent[j].leavesQty);
    KnownClean(s, l, n, t, c);
    if n == l.read {
      KnownSide(s, l, j);
    } else {
      QuietBefore(s, l, n - 1, j);
      ToldStep(s, l, n, t, c);
      assert l.sent[n - 1].kind == Accepted ==> l.sent[n - 1].clientOrderId < c;
    }
  }

  /** A slot still waiting for ACCEPTED tracks no open order of its own id. */
  lemma {:induction false} KnownSide(s: Setup, l: Loop, j: nat)
    requires s.Valid() && WellFormed(s, l) && Accounted(s, l) && Tracked(s, l) && Awaited(s, l) && Rising(s, l)
    requires l.read <= j < |l.sent| && l.sent[j].kind == Accepted && l.sent[j].client == s.client
    requires l.sent[j].ticker < s.cfg.tickers
    ensures Known(s, l, l.sent[j].ticker, l.sent[j].clientOrderId) == Closed
  {
    var r := l.sent[j];
    var t, c := r.ticker, r.clientOrderId;
    KnownClean(s, l, l.read, t, c);
    assert forall i | 0 <= i < l.read && l.sent[..l.read][i].kind == Accepted ::
        l.sent[..l.read][i] == l.sent[i] && l.sent[i].clientOrderId < c;
    if Known(s, l, t, c).Open? {
      AcceptedBefore(t, Owner(s.client, c), l.sent[..l.read]);
    }
  }

  /** An open account was opened by an ACCEPTED. */
  lemma {:induction false} AcceptedBefore(ticker: nat, owner: Owner, rs: seq<Response>)
    requires Replay(ticker, owner, Closed, rs).Open?
    ensures exists i :: 0 <= i < |rs| && rs[i].kind == Accepted && rs[i].clientOrderId == owner.orderId
  {
    if rs != [] {
      var init, r := rs[..|rs| - 1], rs[|rs| - 1];
      if !(Concerns(r, ticker, owner) && r.kind == Accepted) {
        AcceptedBefore(ticker, owner, init);
        var i :| 0 <= i < |init| && init[i].kind == Accepted && init[i].clientOrderId == owner.orderId;
        assert rs[i] == init[i];
      }
    }
  }

  /** An order open at any point of the response stream not yet read is the order its
    * side's slot stands for, and the slot covers what is left of it plus everything
    * executed but unread.
    */
  lemma {:induction false} OpenIsSlotted(s: Setup, l: Loop, n: nat, ticker: nat, orderId: nat)
    requires s.Valid() && WellFormed(s, l) && LoopOk(s, l) && ticker < s.cfg.tickers && l.read <= n <= |l.sent|
    requires Told(s, l, n, ticker, orderId).Open?
    ensures var a := Told(s, l, n, ticker, orderId);
            && a.side != NoSide
            && var slot := l.manager.At(ticker, a.side);
               && (slot.state == Orders.PendingNew || Working(slot.state))
               && slot.orderId == orderId
               && a.qty + Unread(s, l, n, ticker, orderId) == slot.qty
    decreases n
  {
    hide LoopOk;
    if n == l.read {
      KnownIsSlotted(s, l, ticker, orderId);
    } else {
      var r := l.sent[n - 1];
      ToldStep(s, l, n, ticker, orderId);
      if Concerns(r, ticker, Owner(s.client, orderId)) && r.kind == Accepted {
        AcceptedIsSlotted(s, l, n - 1);
      } else {
        OpenIsSlotted(s, l, n - 1, ticker, orderId);
      }
    }
  }

  lemma {:induction false} KnownIsSlotted(s: Setup, l: Loop, ticker: nat, orderId: nat)
    requires s.Valid() && WellFormed(s, l) && LoopOk(s, l) && ticker < s.cfg.tickers
    requires Told(s, l, l.read, ticker, orderId).Open?
    ensures var a := Told(s, l, l.read, ticker, orderId);
            && a.side != NoSide && Unread(s, l, l.read, ticker, orderId) == 0
            && var slot := l.manager.At(ticker, a.side);
               Working(slot.state) && slot.orderId == orderId && slot.qty == a.qty
  {
    hide Accounted, Awaited, Rising, AllWithin, EngineSound, Replay;
    assert Told(s, l, l.read, ticker, orderId) == Known(s, l, ticker, orderId);
  }

  /** An ACCEPTED not yet read opens the order its slot awaits. */
  lemma {:induction false} AcceptedIsSlotted(s: Setup, l: Loop, j: nat)
    requires s.Valid() && WellFormed(s, l) && LoopOk(s, l)
    requires l.read <= j < |l.sent| && l.sent[j].kind == Accepted
    ensures var r := l.sent[j];
            && Awaits(s, l, r.ticker, r.side, r.clientOrderId, r.leavesQty)
            && Told(s, l, j, r.ticker, r.clientOrderId) == Closed && Unread(s, l, j, r.ticker, r.clientOrderId) == 0
  {
    hide Accounted, Tracked, Rising, AllWithin, EngineSound, Told, Unread;
    assert l.sent[j] in l.sent;
    QuietBefore(s, l, j, j);
  }

  /** In every interleaving, each order of this client resting at the exchange is the
    * one its side's slot stands for; the slot is neither unused nor dead, and its
    * quantity is exactly what rests plus the fills still in flight.
    */
  lemma {:induction false} RestingIsSlotted(s: Setup, events: seq<Event>, ticker: nat, o: Order)
    requires s.Valid() && (forall e | e in events :: FairEvent(e)) && ticker < s.cfg.tickers
    requires Reach(s, events).books[ticker].book.Has(o) && o.owner.client == s.client
    ensures var l := Reach(s, events);
            && o.side != NoSide
            && var slot := l.manager.At(ticker, o.side);
               && slot.state != Orders.Unused && slot.state != Orders.Dead
               && slot.orderId == o.owner.orderId
               && slot.qty == o.qty + Unread(s, l, |l.sent|, ticker, o.owner.orderId)
  {
    ReachOk(s, events);
    var l := Reach(s, events);
    hide Reach;
    assert l.sent[..|l.sent|] == l.sent;
    assert Sound(s.cfg, l.books[ticker]);
    LookupIs(l.books[ticker].book, o.owner, Some(o));
    assert o.owner == Owner(s.client, o.owner.orderId);
    assert Told(s, l, |l.sent|, ticker, o.owner.orderId) == AccountOf(l.books[ticker].book, o.owner);
    hide LoopOk;
    OpenIsSlotted(s, l, |l.sent|, ticker, o.owner.orderId);
  }

  /** At most one order per side rests at the exchange, and none while its slot is free. */
  lemma {:induction false} AtMostOnePerSide(s: Setup, events: seq<Event>, ticker: nat, o: Order, p: Order)
    requires s.Valid() && (forall e | e in events :: FairEvent(e)) && ticker < s.cfg.tickers
    requires Reach(s, events).books[ticker].book.Has(o) && Reach(s, events).books[ticker].book.Has(p)
    requires o.owner.client == p.owner.client == s.client && o.side == p.side
    ensures o == p
  {
    RestingIsSlotted(s, events, ticker, o);
    RestingIsSlotted(s, events, ticker, p);
    ReachOk(s, events);
    var x := Reach(s, events).books[ticker];
    assert Sound(s.cfg, x);
    assert o.owner == p.owner;
  }

  /** Every execution or cancellation still in flight is about the order its slot
    * stands for, so matching responses by side alone never touches another order.
    */
  lemma {:induction false} InFlightIsSlotted(s: Setup, events: seq<Event>, j: nat)
    requires s.Valid() && forall e | e in events :: FairEvent(e)
    requires var l := Reach(s, events);
             && l.read <= j < |l.sent| && l.sent[j].ticker < s.cfg.tickers
             && (l.sent[j].kind == Filled || l.sent[j].kind == Canceled)
    ensures var l := Reach(s, events);
            var r := l.sent[j];
            && r.side != NoSide
            && var slot := l.manager.At(r.ticker, r.side);
               slot.state != Orders.Unused && slot.state != Orders.Dead && slot.orderId == r.clientOrderId
  {
    ReachOk(s, events);
    var l := Reach(s, events);
    hide Reach, LoopOk;
    ReportedWasOpen(s, l, j);
    OpenIsSlotted(s, l, j, l.sent[j].ticker, l.sent[j].clientOrderId);
  }

  /** What is executed or canceled was open until then. */
  lemma {:induction false} ReportedWasOpen(s: Setup, l: Loop, j: nat)
    requires s.Valid() && WellFormed(s, l) && LoopOk(s, l)
    requires j < |l.sent| && l.sent[j].ticker < s.cfg.tickers
             && (l.sent[j].kind == Filled || l.sent[j].kind == Canceled)
    ensures var a := Told(s, l, j, l.sent[j].ticker, l.sent[j].clientOrderId);
            a.Open? && a.side == l.sent[j].side
  {
    hide Tracked, Awaited, Rising, AllWithin, EngineSound, AccountOf;
    var r := l.sent[j];
    assert r in l.sent;
    KnownClean(s, l, j + 1, r.ticker, r.clientOrderId);
    assert l.sent[..j + 1][..j] == l.sent[..j];
  }

  // ---------- one order per side, wherever it is ----------

  /** The order rests at the exchange. */
  ghost predicate Rests(s: Setup, l: Loop, ticker: nat, side: Side, orderId: nat)
    requires WellFormed(s, l) && ticker < s.cfg.tickers
  {
    exists o :: l.books[ticker].book.Has(o) && o.owner == Owner(s.client, orderId) && o.side == side
  }

  /** Its NEW is on the way to the exchange. */
  ghost predicate Queued(l: Loop, ticker: nat, side: Side, orderId: nat) {
    exists i :: 0 <= i < |l.requests| && IsNew(l.requests[i], ticker, side, orderId)
  }

  predicate IsNew(r: Request, ticker: nat, side: Side, orderId: nat) {
    r.kind == NewRequest && r.ticker == ticker && r.side == side && r.orderId == orderId
  }

  /** An ACCEPTED, FILLED or CANCELED of it is on the way back. */
  ghost predicate Unheard(l: Loop, ticker: nat, side: Side, orderId: nat) {
    exists j :: l.read <= j < |l.sent| && Reports(l.sent[j], ticker, side, orderId)
  }

  predicate Reports(r: Response, ticker: nat, side: Side, orderId: nat) {
    && (r.kind == Accepted || r.kind == Filled || r.kind == Canceled)
    && r.ticker == ticker && r.side == side && r.clientOrderId == orderId
  }

  lemma {:induction false} UnheardIsSlotted(s: Setup, events: seq<Event>, j: nat)
    requires s.Valid() && forall e | e in events :: FairEvent(e)
    requires var l := Reach(s, events);
             l.read <= j < |l.sent| && l.sent[j].ticker < s.cfg.tickers
    requires var r := Reach(s, events).sent[j]; Reports(r, r.ticker, r.side, r.clientOrderId)
    ensures var l := Reach(s, events);
            var r := l.sent[j];
            && r.side != NoSide
            && var slot := l.manager.At(r.ticker, r.side);
               slot.state != Orders.Unused && slot.state != Orders.Dead && slot.orderId == r.clientOrderId
  {
    var l := Reach(s, events);
    hide Reach;
    if l.sent[j].kind == Accepted {
      ReachOk(s, events);
      assert Awaits(s, l, l.sent[j].ticker, l.sent[j].side, l.sent[j].clientOrderId, l.sent[j].leavesQty);
    } else {
      hide LoopOk;
      InFlightIsSlotted(s, events, j);
    }
  }

  /** In every interleaving, whatever is at the exchange or in flight for one side of an
    * instrument, in either direction, is the one order its slot stands for; while the
    * slot is unused or dead there is nothing.
    */
  lemma {:induction false} OneOrderPerSide(s: Setup, events: seq<Event>, ticker: nat, side: Side, orderId: nat)
    requires s.Valid() && (forall e | e in events :: FairEvent(e)) && ticker < s.cfg.tickers
    requires var l := Reach(s, events);
             Rests(s, l, ticker, side, orderId) || Queued(l, ticker, side, orderId) || Unheard(l, ticker, side, orderId)
    ensures var slot := Reach(s, events).manager.At(ticker, side);
            side != NoSide && slot.state != Orders.Unused && slot.state != Orders.Dead && slot.orderId == orderId
  {
    var l := Reach(s, events);
    hide Reach;
    if Rests(s, l, ticker, side, orderId) {
      var o :| l.books[ticker].book.Has(o) && o.owner == Owner(s.client, orderId) && o.side == side;
      RestingIsSlotted(s, events, ticker, o);
    } else if Unheard(l, ticker, side, orderId) {
      var j :| l.read <= j < |l.sent| && Reports(l.sent[j], ticker, side, orderId);
      UnheardIsSlotted(s, events, j);
    } else {
      var i :| 0 <= i < |l.requests| && IsNew(l.requests[i], ticker, side, orderId);
      ReachOk(s, events);
      assert Awaits(s, l, ticker, side, orderId, l.requests[i].qty);
    }
  }

  /** An order the exchange knows of, or has just reported on, was accepted before. */
  lemma {:induction false} KnownWasAccepted(s: Setup, l: Loop, n: nat, ticker: nat, orderId: nat)
    requires WellFormed(s, l) && Rising(s, l) && n <= |l.sent|
    requires Replay(ticker, Owner(s.client, orderId), Closed, l.sent[..n]).Open?
    ensures forall i | 0 <= i < |l.requests| && l.requests[i].kind == NewRequest :: orderId < l.requests[i].orderId
  {
    AcceptedBefore(ticker, Owner(s.client, orderId), l.sent[..n]);
    var j :| 0 <= j < n && l.sent[..n][j].kind == Accepted && l.sent[..n][j].clientOrderId == orderId;
    assert l.sent[j] == l.sent[..n][j];
  }

  /** While a NEW is queued, no order of that side rests, no report of one is in flight,
    * and no other NEW is queued: the exchange has yet to hear of this one, and there is
    * no other.
    */
  lemma {:induction false} QueuedIsAlone(s: Setup, events: seq<Event>, ticker: nat, side: Side, i: nat, orderId: nat)
    requires s.Valid() && (forall e | e in events :: FairEvent(e)) && ticker < s.cfg.tickers
    requires var l := Reach(s, events);
             i < |l.requests| && IsNew(l.requests[i], ticker, side, l.requests[i].orderId)
    ensures var l := Reach(s, events);
            && !Rests(s, l, ticker, side, orderId)
            && !Unheard(l, ticker, side, orderId)
            && (forall k | 0 <= k < |l.requests| && IsNew(l.requests[k], ticker, side, orderId) :: k == i)
  {
    ReachOk(s, events);
    var l := Reach(s, events);
    hide Reach;
    assert Queued(l, ticker, side, l.requests[i].orderId);
    OneOrderPerSide(s, events, ticker, side, l.requests[i].orderId);
    if Rests(s, l, ticker, side, orderId) {
      OneOrderPerSide(s, events, ticker, side, orderId);
      RestingWasAccepted(s, l, ticker, side, orderId);
    }
    if Unheard(l, ticker, side, orderId) {
      OneOrderPerSide(s, events, ticker, side, orderId);
      UnheardWasAccepted(s, l, ticker, side, orderId);
    }
    if k: nat :| k < |l.requests| && IsNew(l.requests[k], ticker, side, orderId) {
      assert Queued(l, ticker, side, orderId);
      OneOrderPerSide(s, events, ticker, side, orderId);
    }
  }

  lemma {:induction false} RestingWasAccepted(s: Setup, l: Loop, ticker: nat, side: Side, orderId: nat)
    requires s.Valid() && WellFormed(s, l) && LoopOk(s, l) && ticker < s.cfg.tickers
    requires Rests(s, l, ticker, side, orderId)
    ensures forall i | 0 <= i < |l.requests| && l.requests[i].kind == NewRequest :: orderId < l.requests[i].orderId
  {
    hide Rising, Awaited, Tracked, AllWithin, Replay;
    var o :| l.books[ticker].book.Has(o) && o.owner == Owner(s.client, orderId) && o.side == side;
    assert Sound(s.cfg, l.books[ticker]);
    LookupIs(l.books[ticker].book, o.owner, Some(o));
    assert l.sent[..|l.sent|] == l.sent;
    KnownWasAccepted(s, l, |l.sent|, ticker, orderId);
  }

  lemma {:induction false} UnheardWasAccepted(s: Setup, l: Loop, ticker: nat, side: Side, orderId: nat)
    requires s.Valid() && WellFormed(s, l) && LoopOk(s, l) && ticker < s.cfg.tickers
    requires Unheard(l, ticker, side, orderId)
    ensures forall i | 0 <= i < |l.requests| && l.requests[i].kind == NewRequest :: orderId < l.requests[i].orderId
  {
    var j :| l.read <= j < |l.sent| && Reports(l.sent[j], ticker, side, orderId);
    if l.sent[j].kind != Accepted {
      assert l.sent[j] in l.sent;
      KnownClean(s, l, j + 1, ticker, orderId);
      assert l.sent[..j + 1][..j] == l.sent[..j];
      KnownWasAccepted(s, l, j, ticker, orderId);
    }
  }
}
