/** The strategy's order manager: at most one order per side of each instrument,
  * gated by a pre-trade risk check that looks only at the current position.
  */
module Orders {
  import opened Types
  import Position

  datatype OrderState = Unused | PendingNew | Live | PendingCancel | Dead

  /** The manager's view of its order on one side of one instrument. */
  datatype Slot = Slot(state: OrderState, ticker: nat, orderId: nat, side: Side, price: nat, qty: nat)

  const FRESH_SLOT := Slot(Unused, INVALID_32, INVALID_64, NoSide, INVALID_64, INVALID_32)

  datatype RiskResult = OrderTooLarge | PositionTooLarge | LossTooLarge | Allowed

  datatype Limits = Limits(maxOrderSize: nat, maxPosition: nat, maxLoss: real)

  /** A 32-bit unsigned quantity reinterpreted as a signed one. */
  function AsInt32(n: nat): int {
    var m := n % 0x1_0000_0000;
    if m < 0x8000_0000 then m else m - 0x1_0000_0000
  }

  /** The three gates, in order. */
  function CheckPreTradeRisk(limits: Limits, position: int, totalPnl: real, side: Side, qty: nat): RiskResult {
    if qty > limits.maxOrderSize then OrderTooLarge
    else if Position.Abs(position + Position.SideValue(side) * AsInt32(qty)) > limits.maxPosition then PositionTooLarge
    else if totalPnl < limits.maxLoss then LossTooLarge
    else Allowed
  }

  /** What one order's step leaves: its slot, the next id, and the requests sent. */
  datatype Moved = Moved(slot: Slot, nextId: nat, requests: seq<Request>)

  function MoveOrder(client: nat, nextId: nat, slot: Slot, ticker: nat, price: nat, side: Side, qty: nat,
                     risk: RiskResult): Moved
  {
    match slot.state
    case Live =>
      if slot.price != price || slot.qty != qty then
        Moved(slot.(state := PendingCancel), nextId,
              [Request(CancelRequest, client, slot.ticker, slot.orderId, slot.side, slot.price, slot.qty)])
      else Moved(slot, nextId, [])
    case Unused => Place(client, nextId, slot, ticker, price, side, qty, risk)
    case Dead => Place(client, nextId, slot, ticker, price, side, qty, risk)
    case PendingNew => Moved(slot, nextId, [])
    case PendingCancel => Moved(slot, nextId, [])
  }

  function Place(client: nat, nextId: nat, slot: Slot, ticker: nat, price: nat, side: Side, qty: nat,
                 risk: RiskResult): Moved
  {
    if price != INVALID_64 && risk == Allowed then
      Moved(Slot(PendingNew, ticker, nextId, side, price, qty), nextId + 1,
            [Request(NewRequest, client, ticker, nextId, side, price, qty)])
    else Moved(slot, nextId, [])
  }

  /** A response moves the slot of its own (ticker, side); the order id is not looked at. */
  function OnResponse(slot: Slot, r: Response): Slot {
    match r.kind
    case Accepted => slot.(state := Live)
    case Canceled => slot.(state := Dead)
    case Filled => slot.(qty := r.leavesQty, state := if r.leavesQty == 0 then Dead else slot.state)
    case CancelRejected => slot
    case Rejected => slot
  }

  function SideIndex(side: Side): nat {
    match side case Sell => 0 case NoSide => 1 case Buy => 2
  }

  const SIDES: nat := 4

  /** The strategy's state as a value: per ticker a slot for every side index. */
  datatype Book = Book(slots: seq<seq<Slot>>, nextId: nat) {
    predicate Sized(tickers: nat) {
      |slots| == tickers && forall t | 0 <= t < tickers :: |slots[t]| == SIDES
    }

    function At(ticker: nat, side: Side): Slot
      requires ticker < |slots| && |slots[ticker]| == SIDES
    {
      slots[ticker][SideIndex(side)]
    }

    function With(ticker: nat, side: Side, slot: Slot): Book
      requires ticker < |slots| && |slots[ticker]| == SIDES
    {
      this.(slots := slots[ticker := slots[ticker][SideIndex(side) := slot]])
    }
  }

  datatype Sent = Sent(book: Book, requests: seq<Request>)

  function MoveOne(client: nat, b: Book, ticker: nat, price: nat, side: Side, qty: nat, risk: RiskResult): Sent
    requires ticker < |b.slots| && |b.slots[ticker]| == SIDES
  {
    var m := MoveOrder(client, b.nextId, b.At(ticker, side), ticker, price, side, qty, risk);
    Sent(b.With(ticker, side, m.slot).(nextId := m.nextId), m.requests)
  }

  /** Both sides, bid first, against the same position. */
  function MoveOrders(client: nat, b: Book, limits: Limits, h: Position.Holding, ticker: nat, bid: nat, ask: nat,
          clip: nat)
    : Sent
    requires ticker < |b.slots| && |b.slots[ticker]| == SIDES
  {
    var first := MoveOne(client, b, ticker, bid, Buy, clip,
                         CheckPreTradeRisk(limits, h.position, h.totalPnl, Buy, clip));
    var second := MoveOne(client, first.book, ticker, ask, Sell, clip,
                          CheckPreTradeRisk(limits, h.position, h.totalPnl, Sell, clip));
    Sent(second.book, first.requests + second.requests)
  }

  function OnOrderUpdate(b: Book, r: Response): Book
    requires r.ticker < |b.slots| && |b.slots[r.ticker]| == SIDES
  {
    b.With(r.ticker, r.side, OnResponse(b.At(r.ticker, r.side), r))
  }

  // ---------- what the risk check lets through ----------

  /** The position one more order of `qty` would lead to, if all of it traded. */
  function Projected(position: int, side: Side, qty: nat): int {
    if side == Buy then position + qty else position - qty
  }

  /** The three limits, as a risk officer would state them. */
  ghost predicate WithinLimits(limits: Limits, position: int, totalPnl: real, side: Side, qty: nat) {
    && qty <= limits.maxOrderSize
    && -(limits.maxPosition as int) <= Projected(position, side, qty) <= limits.maxPosition
    && limits.maxLoss <= totalPnl
  }

  /** With sizes of at most 31 bits the check is exact, and a refusal names the first limit broken. */
  lemma {:induction false} RiskMeans(limits: Limits, position: int, totalPnl: real, side: Side, qty: nat)
    requires side != NoSide && limits.maxOrderSize < 0x8000_0000
    ensures var risk := CheckPreTradeRisk(limits, position, totalPnl, side, qty);
            var fits := -(limits.maxPosition as int) <= Projected(position, side, qty) <= limits.maxPosition;
            && (risk == Allowed <==> WithinLimits(limits, position, totalPnl, side, qty))
            && (risk == OrderTooLarge <==> qty > limits.maxOrderSize)
            && (risk == PositionTooLarge <==> qty <= limits.maxOrderSize && !fits)
            && (risk == LossTooLarge <==> qty <= limits.maxOrderSize && fits && totalPnl < limits.maxLoss)
  {
    if qty <= limits.maxOrderSize {
      assert AsInt32(qty) == qty;
    }
  }

  // ---------- what moving the orders sends ----------

  /** Every field of a request. */
  ghost predicate Asks(r: Request, kind: RequestKind, client: nat, ticker: nat, orderId: nat, side: Side, price: nat,
                       qty: nat)
  {
    && r.kind == kind && r.client == client && r.ticker == ticker && r.orderId == orderId
    && r.side == side && r.price == price && r.qty == qty
  }

  /** One side's move from slot `was` to `now`. A free slot gets a NEW exactly if there is a price
    * and the check allows the order; a live order that differs in price or quantity is canceled by
    * its own id; a slot that waits for an answer is left alone.
    */
  ghost predicate SideMoves(client: nat, ticker: nat, price: nat, side: Side, clip: nat, may: bool,
                            was: Slot, id: nat, now: Slot, next: nat, rs: seq<Request>)
  {
    if (was.state == Unused || was.state == Dead) && price != INVALID_64 && may then
      && |rs| == 1 && Asks(rs[0], NewRequest, client, ticker, id, side, price, clip) && next == id + 1
      && now.state == PendingNew && now.ticker == ticker && now.orderId == id
      && now.side == side && now.price == price && now.qty == clip
    else if was.state == Live && (was.price != price || was.qty != clip) then
      && |rs| == 1 && next == id
      && Asks(rs[0], CancelRequest, client, was.ticker, was.orderId, was.side, was.price, was.qty)
      && now.state == PendingCancel && now.ticker == was.ticker && now.orderId == was.orderId
      && now.side == was.side && now.price == was.price && now.qty == was.qty
    else rs == [] && now == was && next == id
  }

  /** The bid side moves first, to the bid; then the ask side, to the ask; no other slot changes. */
  ghost predicate BothMove(client: nat, b: Book, limits: Limits, h: Position.Holding, ticker: nat, bid: nat, ask: nat,
                           clip: nat, c: Book, rs: seq<Request>, mid: nat, k: nat)
    requires exists n :: b.Sized(n) && c.Sized(n) && ticker < n
  {
    && k <= |rs|
    && SideMoves(client, ticker, bid, Buy, clip, WithinLimits(limits, h.position, h.totalPnl, Buy, clip),
                 b.At(ticker, Buy), b.nextId, c.At(ticker, Buy), mid, rs[..k])
    && SideMoves(client, ticker, ask, Sell, clip, WithinLimits(limits, h.position, h.totalPnl, Sell, clip),
                 b.At(ticker, Sell), mid, c.At(ticker, Sell), c.nextId, rs[k..])
    && (forall t: nat, s: Side | t < |b.slots| && (t != ticker || s == NoSide) :: c.At(t, s) == b.At(t, s))
  }

  lemma {:induction false} MoveMeans(client: nat, b: Book, ticker: nat, price: nat, side: Side, qty: nat,
                                     risk: RiskResult)
    requires exists n :: b.Sized(n) && ticker < n
    ensures var s := MoveOne(client, b, ticker, price, side, qty, risk);
            && (exists n :: s.book.Sized(n) && n == |b.slots|)
            && SideMoves(client, ticker, price, side, qty, risk == Allowed, b.At(ticker, side), b.nextId,
                         s.book.At(ticker, side), s.book.nextId, s.requests)
            && (forall t: nat, d: Side | t < |b.slots| && (t != ticker || d != side) :: s.book.At(t, d) == b.At(t, d))
  {
    var s := MoveOne(client, b, ticker, price, side, qty, risk);
    assert s.book.Sized(|b.slots|);
  }

  /** A move appended to what was sent before. */
  lemma {:induction false} MoveWithin(client: nat, b: Book, limits: Limits, h: Position.Holding, ticker: nat,
                                      price: nat, side: Side, qty: nat, c: Book, was: seq<Request>, now: seq<Request>)
    requires (exists n :: b.Sized(n) && ticker < n) && side != NoSide && limits.maxOrderSize < 0x8000_0000
    requires var s := MoveOne(client, b, ticker, price, side, qty,
                              CheckPreTradeRisk(limits, h.position, h.totalPnl, side, qty));
             c == s.book && now == was + s.requests
    ensures was <= now && exists n :: c.Sized(n) && ticker < n
    ensures SideMoves(client, ticker, price, side, qty, WithinLimits(limits, h.position, h.totalPnl, side, qty),
                      b.At(ticker, side), b.nextId, c.At(ticker, side), c.nextId, now[|was|..])
  {
    hide CheckPreTradeRisk, MoveOne, WithinLimits, SideMoves;
    MoveMeans(client, b, ticker, price, side, qty,
              CheckPreTradeRisk(limits, h.position, h.totalPnl, side, qty));
    RiskMeans(limits, h.position, h.totalPnl, side, qty);
  }

  lemma {:induction false} MovesBoth(client: nat, b: Book, limits: Limits, h: Position.Holding, ticker: nat, bid: nat,
                                     ask: nat, clip: nat)
      returns (mid: nat, k: nat)
    requires (exists n :: b.Sized(n) && ticker < n) && limits.maxOrderSize < 0x8000_0000
    ensures var s := MoveOrders(client, b, limits, h, ticker, bid, ask, clip);
            && (exists n :: b.Sized(n) && s.book.Sized(n) && ticker < n)
            && BothMove(client, b, limits, h, ticker, bid, ask, clip, s.book, s.requests, mid, k)
  {
    hide CheckPreTradeRisk, MoveOne, WithinLimits, SideMoves;
    RiskMeans(limits, h.position, h.totalPnl, Buy, clip);
    RiskMeans(limits, h.position, h.totalPnl, Sell, clip);
    var first := MoveOne(client, b, ticker, bid, Buy, clip,
                         CheckPreTradeRisk(limits, h.position, h.totalPnl, Buy, clip));
    MoveMeans(client, b, ticker, bid, Buy, clip, CheckPreTradeRisk(limits, h.position, h.totalPnl, Buy, clip));
    MoveMeans(client, first.book, ticker, ask, Sell, clip,
              CheckPreTradeRisk(limits, h.position, h.totalPnl, Sell, clip));
    mid, k := first.book.nextId, |first.requests|;
    var s := MoveOrders(client, b, limits, h, ticker, bid, ask, clip);
    assert s.requests[..k] == first.requests && s.requests[k..] == s.requests[k..];
  }

  lemma {:induction false} SameRows(b: Book, c: Book)
    requires exists n :: b.Sized(n) && c.Sized(n)
    requires forall t, s | 0 <= t < |b.slots| && 0 <= s < SIDES :: b.slots[t][s] == c.slots[t][s]
    ensures b.slots == c.slots
  {
    forall t | 0 <= t < |b.slots| ensures b.slots[t] == c.slots[t] {
    }
  }

  /** The object: a table of slots mutated in place and an outgoing request queue. */
  class OrderManager {
    const client: nat
    const limits: seq<Limits>
    const slots: array2<Slot>
    var nextOrderId: nat
    var outgoing: seq<Request>

    ghost predicate Valid()
      reads this
    {
      slots.Length1 == SIDES && |limits| == slots.Length0
    }

    /** Everything the manager remembers, as a value. */
    ghost function State(): (b: Book)
      requires Valid()
      reads this, slots
      ensures b.Sized(slots.Length0) && b.nextId == nextOrderId
      ensures forall t, s | 0 <= t < slots.Length0 && 0 <= s < SIDES :: b.slots[t][s] == slots[t, s]
    {
      Book(seq(slots.Length0, t requires 0 <= t < slots.Length0 reads this, slots =>
                 seq(SIDES, s requires 0 <= s < SIDES && slots.Length1 == SIDES reads this, slots => slots[t, s])),
           nextOrderId)
    }

    constructor (client: nat, limits: seq<Limits>)
      ensures Valid() && fresh(slots) && slots.Length0 == |limits|
      ensures this.client == client && this.limits == limits && outgoing == []
      ensures nextOrderId == 1
      ensures forall t, s | 0 <= t < |limits| && 0 <= s < SIDES :: slots[t, s] == FRESH_SLOT
    {
      this.client, this.limits, nextOrderId, outgoing := client, limits, 1, [];
      slots := new Slot[|limits|, SIDES]((t, s) => FRESH_SLOT);
    }

    method MoveOrderAt(ticker: nat, price: nat, side: Side, qty: nat, h: Position.Holding)
      requires Valid() && ticker < slots.Length0
      modifies this, slots
      ensures Valid()
      ensures var risk := CheckPreTradeRisk(limits[ticker], h.position, h.totalPnl, side, qty);
              var sent := MoveOne(client, old(State()), ticker, price, side, qty, risk);
              State() == sent.book && outgoing == old(outgoing) + sent.requests
      ensures side != NoSide && limits[ticker].maxOrderSize < 0x8000_0000 ==>
                && old(outgoing) <= outgoing
                && SideMoves(client, ticker, price, side, qty,
                             WithinLimits(limits[ticker], h.position, h.totalPnl, side, qty),
                             old(State()).At(ticker, side), old(nextOrderId),
                             State().At(ticker, side), nextOrderId, outgoing[|old(outgoing)|..])
    {
      hide CheckPreTradeRisk, SideMoves, WithinLimits;
      var i := SideIndex(side);
      ghost var before := State();
      var order := slots[ticker, i];
      match order.state {
        case Live =>
          if order.price != price || order.qty != qty {
            outgoing := outgoing + [Request(CancelRequest, client, order.ticker, order.orderId, order.side,
                                            order.price, order.qty)];
            slots[ticker, i] := order.(state := PendingCancel);
          }
        case Unused | Dead =>
          if price != INVALID_64 {
            var risk := CheckPreTradeRisk(limits[ticker], h.position, h.totalPnl, side, qty);
            if risk == Allowed {
              outgoing := outgoing + [Request(NewRequest, client, ticker, nextOrderId, side, price, qty)];
              slots[ticker, i] := Slot(PendingNew, ticker, nextOrderId, side, price, qty);
              nextOrderId := nextOrderId + 1;
            }
          }
        case PendingNew | PendingCancel =>
      }
      SlotWritten(before, ticker, side);
      if side != NoSide && limits[ticker].maxOrderSize < 0x8000_0000 {
        MoveWithin(client, before, limits[ticker], h, ticker, price, side, qty, State(), old(outgoing), outgoing);
      }
    }

    /** A table with one slot written. */
    lemma {:induction false} SlotWritten(before: Book, ticker: nat, side: Side)
      requires Valid() && ticker < slots.Length0 && before.Sized(slots.Length0)
      requires forall t, s | 0 <= t < slots.Length0 && 0 <= s < SIDES && !(t == ticker && s == SideIndex(side)) ::
                 slots[t, s] == before.slots[t][s]
      ensures State() == before.With(ticker, side, slots[ticker, SideIndex(side)]).(nextId := nextOrderId)
    {
      SameRows(State(), before.With(ticker, side, slots[ticker, SideIndex(side)]));
    }

    method Move(ticker: nat, bid: nat, ask: nat, clip: nat, h: Position.Holding)
      requires Valid() && ticker < slots.Length0
      modifies this, slots
      ensures Valid()
      ensures var sent := MoveOrders(client, old(State()), limits[ticker], h, ticker, bid, ask, clip);
              State() == sent.book && outgoing == old(outgoing) + sent.requests
      ensures limits[ticker].maxOrderSize < 0x8000_0000 ==>
                old(outgoing) <= outgoing
                && exists mid, k :: BothMove(client, old(State()), limits[ticker], h, ticker, bid, ask, clip, State(),
                                             outgoing[|old(outgoing)|..], mid, k)
    {
      hide CheckPreTradeRisk, MoveOne, BothMove;
      MoveOrderAt(ticker, bid, Buy, clip, h);
      MoveOrderAt(ticker, ask, Sell, clip, h);
      if limits[ticker].maxOrderSize < 0x8000_0000 {
        var mid, k := MovesBoth(client, old(State()), limits[ticker], h, ticker, bid, ask, clip);
        assert outgoing[|old(outgoing)|..]
            == MoveOrders(client, old(State()), limits[ticker], h, ticker, bid, ask, clip).requests;
      }
    }

    method OnUpdate(r: Response)
      requires Valid() && r.ticker < slots.Length0
      modifies slots
      ensures Valid() && State() == OnOrderUpdate(old(State()), r)
    {
      var i := SideIndex(r.side);
      ghost var before := State();
      match r.kind {
        case Accepted => slots[r.ticker, i] := slots[r.ticker, i].(state := Live);
        case Canceled => slots[r.ticker, i] := slots[r.ticker, i].(state := Dead);
        case Filled =>
          slots[r.ticker, i] := slots[r.ticker, i].(qty := r.leavesQty);
          if slots[r.ticker, i].qty == 0 {
            slots[r.ticker, i] := slots[r.ticker, i].(state := Dead);
          }
        case CancelRejected | Rejected =>
      }
      SameRows(State(), before.With(r.ticker, r.side, slots[r.ticker, i]));
    }
  }
}
