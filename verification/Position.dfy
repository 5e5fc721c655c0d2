/** Profit and loss over fills, on exact reals: the cost-basis accounting of one
  * instrument, and the proof that it equals net cash plus position at the mark.
  */
module Position {
  import opened Types

  /** Best prices as market data shows them; `INVALID_64` stands for an empty side. */
  datatype Quote = Quote(bid: nat, ask: nat) {
    predicate TwoSided() {
      bid != INVALID_64 && ask != INVALID_64
    }

    function Mid(): real {
      (bid as real + ask as real) * 0.5
    }
  }

  /** `openBuy` and `openSell` are the running sums of price times quantity per side. */
  datatype Holding = Holding(position: int, realPnl: real, unrealPnl: real, totalPnl: real,
                             volume: nat, openBuy: real, openSell: real)

  const FLAT := Holding(0, 0.0, 0.0, 0.0, 0, 0.0, 0.0)

  function SideValue(side: Side): int {
    if side == Buy then 1 else if side == Sell then -1 else 0
  }

  function Abs(n: int): nat {
    if n < 0 then -n else n
  }

  function MinInt(a: int, b: int): int {
    if a < b then a else b
  }

  // The only products and quotients in the accounting.

  function Times(price: real, n: int): real {
    price * n as real
  }

  /** Average entry price of a position of `n` built at total cost `open`. */
  function Vwap(open: real, n: nat): real
    requires 0 < n
  {
    open / n as real
  }

  /** What closing `n` at `price` realises against an average entry of `basis`. */
  function Gain(n: int, basis: real, price: real, side: Side): real {
    n as real * (basis - price) * SideValue(side) as real
  }

  lemma {:induction false} TimesVwap(open: real, n: nat)
    requires 0 < n
    ensures Times(Vwap(open, n), n) == open
  {
  }

  lemma {:induction false} TimesSum(price: real, m: int, n: int)
    ensures Times(price, m) + Times(price, n) == Times(price, m + n)
  {
    assert (m + n) as real == m as real + n as real;
  }

  lemma {:induction false} TimesMinus(price: real, mark: real, n: int)
    ensures Times(price - mark, n) == Times(price, n) - Times(mark, n)
  {
  }

  lemma {:induction false} TimesNegated(price: real, n: int)
    ensures Times(price, -n) == -Times(price, n)
  {
    assert (-n) as real == -(n as real);
  }

  lemma {:induction false} GainIs(n: int, basis: real, price: real, side: Side)
    requires side != NoSide
    ensures Gain(n, basis, price, side) == if side == Buy then Times(basis, n) - Times(price, n)
                                           else Times(price, n) - Times(basis, n)
  {
    assert n as real * (basis - price) == n as real * basis - n as real * price;
  }

  class PositionInfo {
    var position: int
    var realPnl: real
    var unrealPnl: real
    var totalPnl: real
    var volume: nat
    var openBuy: real
    var openSell: real

    function State(): Holding
      reads this
    {
      Holding(position, realPnl, unrealPnl, totalPnl, volume, openBuy, openSell)
    }

    constructor ()
      ensures State() == FLAT
    {
      position, realPnl, unrealPnl, totalPnl, volume, openBuy, openSell := 0, 0.0, 0.0, 0.0, 0, 0.0, 0.0;
    }

    /** A fill: position first, then the cost basis by whether it opens, reduces or flips. */
    method AddFill(side: Side, price: nat, qty: nat)
      requires side != NoSide
      modifies this
      ensures State() == AfterFill(old(State()), side, price, qty)
    {
      hide Times, Vwap, Gain, Marked;
      var s, p, was := SideValue(side), price as real, position;
      position := position + s * qty;
      volume := (volume + qty) % 0x1_0000_0000;
      if was * s >= 0 {
        if side == Buy { openBuy := openBuy + Times(p, qty); } else { openSell := openSell + Times(p, qty); }
      } else {
        var basis := Vwap(if side == Buy then openSell else openBuy, Abs(was));
        if side == Buy { openSell := Times(basis, Abs(position)); } else { openBuy := Times(basis, Abs(position)); }
        realPnl := realPnl + Gain(MinInt(qty, Abs(was)), basis, p, side);
        if position * was < 0 {
          if side == Buy { openBuy, openSell := Times(p, Abs(position)), 0.0; }
          else { openSell, openBuy := Times(p, Abs(position)), 0.0; }
        }
      }
      Mark(p);
    }

    /** The last part of `addFill`: what is open is worth what the fill paid. */
    method Mark(p: real)
      modifies this
      ensures State() == Marked(old(State()), p)
    {
      hide Times, Vwap;
      if position == 0 {
        openBuy, openSell, unrealPnl := 0.0, 0.0, 0.0;
      } else if position > 0 {
        unrealPnl := Times(p - Vwap(openBuy, Abs(position)), Abs(position));
      } else {
        unrealPnl := Times(Vwap(openSell, Abs(position)) - p, Abs(position));
      }
      totalPnl := realPnl + unrealPnl;
    }

    method UpdateBBO(q: Quote)
      modifies this
      ensures State() == AfterQuote(old(State()), q)
    {
      hide Times, Vwap;
      if position != 0 && q.TwoSided() {
        var mid := q.Mid();
        if position > 0 {
          unrealPnl := Times(mid - Vwap(openBuy, Abs(position)), Abs(position));
        } else {
          unrealPnl := Times(Vwap(openSell, Abs(position)) - mid, Abs(position));
        }
        totalPnl := realPnl + unrealPnl;
      }
    }
  }

  // ---------- the same two operations as functions ----------

  /** The cost basis after a fill. */
  function Rebased(h: Holding, side: Side, price: nat, qty: nat): Holding {
    var p, was, now := price as real, h.position, h.position + SideValue(side) * qty;
    if was * SideValue(side) >= 0 then
      if side == Buy then h.(openBuy := h.openBuy + Times(p, qty)) else h.(openSell := h.openSell + Times(p, qty))
    else
      var basis := Vwap(if side == Buy then h.openSell else h.openBuy, Abs(was));
      var g := h.(realPnl := h.realPnl + Gain(MinInt(qty, Abs(was)), basis, p, side));
      if now * was < 0 then
        if side == Buy then g.(openBuy := Times(p, Abs(now)), openSell := 0.0)
        else g.(openBuy := 0.0, openSell := Times(p, Abs(now)))
      else if side == Buy then g.(openSell := Times(basis, Abs(now)))
      else g.(openBuy := Times(basis, Abs(now)))
  }

  function Unrealised(h: Holding, mark: real): real {
    var n := Abs(h.position);
    if h.position == 0 then 0.0
    else if h.position > 0 then Times(mark - Vwap(h.openBuy, n), n)
    else Times(Vwap(h.openSell, n) - mark, n)
  }

  /** A closed position carries no cost; an open one is worth what `mark` says. */
  function Marked(h: Holding, mark: real): Holding {
    var k := if h.position == 0 then h.(openBuy := 0.0, openSell := 0.0) else h;
    var u := Unrealised(k, mark);
    k.(unrealPnl := u, totalPnl := k.realPnl + u)
  }

  function AfterFill(h: Holding, side: Side, price: nat, qty: nat): Holding {
    var now := h.position + SideValue(side) * qty;
    var g := Rebased(h, side, price, qty).(position := now, volume := (h.volume + qty) % 0x1_0000_0000);
    Marked(g, price as real)
  }

  function AfterQuote(h: Holding, q: Quote): Holding {
    if h.position == 0 || !q.TwoSided() then h
    else
      var u := Unrealised(h, q.Mid());
      h.(unrealPnl := u, totalPnl := h.realPnl + u)
  }

  // ---------- what the accounting means ----------

  /** Realised profit is the cash received so far plus what the open position cost;
    * only the side the position is on carries a cost.
    */
  ghost predicate Balanced(h: Holding, cash: real) {
    && h.realPnl == cash + h.openBuy - h.openSell
    && (h.position <= 0 ==> h.openBuy == 0.0)
    && (h.position >= 0 ==> h.openSell == 0.0)
  }

  /** Marking a balanced position to any price gives cash plus position times price. */
  lemma {:induction false} UnrealisedIs(h: Holding, mark: real, cash: real)
    requires Balanced(h, cash)
    ensures h.realPnl + Unrealised(h, mark) == cash + Times(mark, h.position)
  {
    var n := Abs(h.position);
    if h.position > 0 {
      TimesVwap(h.openBuy, n);
      TimesMinus(mark, Vwap(h.openBuy, n), n);
    } else if h.position < 0 {
      TimesVwap(h.openSell, n);
      TimesMinus(Vwap(h.openSell, n), mark, n);
      TimesNegated(mark, n);
    }
  }

  /** The cash a fill moves: paid on a buy, received on a sell. */
  function CashFlow(side: Side, price: nat, qty: nat): real {
    if side == Buy then -(price as real * qty as real) else price as real * qty as real
  }

  lemma {:induction false} CashIs(side: Side, price: nat, qty: nat)
    ensures CashFlow(side, price, qty) == if side == Buy then -Times(price as real, qty) else Times(price as real, qty)
  {
  }

  lemma {:induction false} OpensBalanced(h: Holding, cash: real, side: Side, price: nat, qty: nat)
    requires Balanced(h, cash) && side != NoSide && h.position * SideValue(side) >= 0
    ensures var g := Rebased(h, side, price, qty);
            var cash' := cash + CashFlow(side, price, qty);
            g.realPnl == cash' + g.openBuy - g.openSell
            && (side == Buy ==> g.openSell == 0.0) && (side == Sell ==> g.openBuy == 0.0)
  {
    hide Times, Vwap, Gain, CashFlow;
    CashIs(side, price, qty);
  }

  lemma {:induction false} ReducesBalanced(h: Holding, cash: real, side: Side, price: nat, qty: nat)
    requires Balanced(h, cash) && side != NoSide && h.position * SideValue(side) < 0 && qty <= Abs(h.position)
    ensures var g := Rebased(h, side, price, qty);
            var cash' := cash + CashFlow(side, price, qty);
            g.realPnl == cash' + g.openBuy - g.openSell
            && (side == Buy ==> g.openBuy == 0.0) && (side == Sell ==> g.openSell == 0.0)
  {
    hide Times, Vwap, Gain, CashFlow;
    CashIs(side, price, qty);
    var n := Abs(h.position);
    var cost := if side == Buy then h.openSell else h.openBuy;
    var basis, now := Vwap(cost, n), h.position + SideValue(side) * qty;
    NoFlip(h.position, now);
    TimesVwap(cost, n);
    TimesSum(basis, qty, n - qty);
    GainIs(qty, basis, price as real, side);
  }

  lemma {:induction false} NoFlip(was: int, now: int)
    requires (was <= 0 && now <= 0) || (was >= 0 && now >= 0)
    ensures !(now * was < 0)
  {
  }

  lemma {:induction false} Flip(was: int, now: int)
    requires (was < 0 && now > 0) || (was > 0 && now < 0)
    ensures now * was < 0
  {
  }

  lemma {:induction false} FlipsBalanced(h: Holding, cash: real, side: Side, price: nat, qty: nat)
    requires Balanced(h, cash) && side != NoSide && h.position * SideValue(side) < 0 && Abs(h.position) < qty
    ensures var g := Rebased(h, side, price, qty);
            Balanced(g.(position := h.position + SideValue(side) * qty), cash + CashFlow(side, price, qty))
  {
    hide Times, Vwap, Gain, CashFlow;
    CashIs(side, price, qty);
    var n := Abs(h.position);
    var cost := if side == Buy then h.openSell else h.openBuy;
    var basis, now := Vwap(cost, n), h.position + SideValue(side) * qty;
    Flip(h.position, now);
    TimesVwap(cost, n);
    TimesSum(price as real, n, qty - n);
    GainIs(n, basis, price as real, side);
  }

  /** The cost basis after a fill, with a closed position carrying none. */
  lemma {:induction false} RebasedBalanced(h: Holding, cash: real, side: Side, price: nat, qty: nat)
    requires Balanced(h, cash) && side != NoSide
    ensures var now := h.position + SideValue(side) * qty;
            var g := Rebased(h, side, price, qty).(position := now);
            Balanced(if now == 0 then g.(openBuy := 0.0, openSell := 0.0) else g, cash + CashFlow(side, price, qty))
  {
    if h.position * SideValue(side) >= 0 {
      OpensBalanced(h, cash, side, price, qty);
      if h.position + SideValue(side) * qty == 0 {
        assert h.position == 0 && qty == 0;
        assert Times(price as real, 0) == 0.0;
      }
    } else if qty <= Abs(h.position) {
      ReducesBalanced(h, cash, side, price, qty);
      NoFlip(h.position, h.position + SideValue(side) * qty);
      if qty == Abs(h.position) {
        assert forall x: real :: Times(x, 0) == 0.0;
      }
    } else {
      FlipsBalanced(h, cash, side, price, qty);
    }
  }

  /** Every fill, whether it opens, adds, reduces, closes or flips, keeps the books
    * balanced and leaves total PnL at net cash plus position times the fill price.
    */
  lemma {:induction false} FillBalanced(h: Holding, cash: real, side: Side, price: nat, qty: nat)
    requires Balanced(h, cash) && side != NoSide
    ensures var g := AfterFill(h, side, price, qty);
            var cash' := cash + CashFlow(side, price, qty);
            && Balanced(g, cash')
            && g.totalPnl == cash' + price as real * g.position as real
            && g.totalPnl == g.realPnl + g.unrealPnl
  {
    hide Vwap, Gain, Rebased;
    RebasedBalanced(h, cash, side, price, qty);
    UnrealisedIs(AfterFill(h, side, price, qty), price as real, cash + CashFlow(side, price, qty));
  }

  lemma {:induction false} QuoteBalanced(h: Holding, cash: real, q: Quote)
    requires Balanced(h, cash)
    ensures Balanced(AfterQuote(h, q), cash)
    ensures h.position != 0 && q.bid != INVALID_64 && q.ask != INVALID_64 ==>
              var mid := (q.bid as real + q.ask as real) / 2.0;
              AfterQuote(h, q).totalPnl == cash + mid * h.position as real
  {
    UnrealisedIs(h, q.Mid(), cash);
  }

  // ---------- runs ----------

  datatype Tick = Fill(side: Side, price: nat, qty: nat) | Requote(quote: Quote)

  function After(ticks: seq<Tick>): Holding {
    if ticks == [] then FLAT
    else match ticks[|ticks| - 1]
      case Fill(side, price, qty) => AfterFill(After(ticks[..|ticks| - 1]), side, price, qty)
      case Requote(quote) => AfterQuote(After(ticks[..|ticks| - 1]), quote)
  }

  function Cash(ticks: seq<Tick>): real {
    if ticks == [] then 0.0
    else Cash(ticks[..|ticks| - 1]) + match ticks[|ticks| - 1]
      case Fill(side, price, qty) => CashFlow(side, price, qty)
      case Requote(_) => 0.0
  }

  /** The price total PnL is struck at: the last fill, or the last usable mid since. */
  function Mark(ticks: seq<Tick>): real {
    if ticks == [] then 0.0
    else
      var init := ticks[..|ticks| - 1];
      match ticks[|ticks| - 1]
      case Fill(_, price, _) => price as real
      case Requote(quote) =>
        if After(init).position == 0 || quote.bid == INVALID_64 || quote.ask == INVALID_64 then Mark(init)
        else (quote.bid as real + quote.ask as real) / 2.0
  }

  /** Bought less sold. */
  function Net(ticks: seq<Tick>): int {
    if ticks == [] then 0
    else Net(ticks[..|ticks| - 1]) + match ticks[|ticks| - 1]
      case Fill(side, _, qty) => if side == Buy then qty as int else -(qty as int)
      case Requote(_) => 0
  }

  /** Bought and sold. */
  function Turnover(ticks: seq<Tick>): nat {
    if ticks == [] then 0
    else Turnover(ticks[..|ticks| - 1]) + match ticks[|ticks| - 1] case Fill(_, _, qty) => qty case Requote(_) => 0
  }

  /** What a holding says of the fills and quotes behind it. */
  ghost predicate Exact(h: Holding, net: int, turnover: nat, cash: real, mark: real) {
    && h.position == net && h.volume == turnover % 0x1_0000_0000
    && Balanced(h, cash)
    && h.totalPnl == cash + mark * h.position as real
    && h.totalPnl == h.realPnl + h.unrealPnl
  }

  lemma {:induction false} FillExact(h: Holding, net: int, turnover: nat, cash: real, mark: real,
                                     side: Side, price: nat, qty: nat)
    requires Exact(h, net, turnover, cash, mark) && side != NoSide
    ensures Exact(AfterFill(h, side, price, qty), if side == Buy then net + qty else net - qty, turnover + qty,
                  cash + CashFlow(side, price, qty), price as real)
  {
    FillBalanced(h, cash, side, price, qty);
    hide Balanced, CashFlow, Unrealised;
    FillMoves(h, side, price, qty);
    hide AfterFill;
  }

  lemma {:induction false} FillMoves(h: Holding, side: Side, price: nat, qty: nat)
    requires side != NoSide
    ensures var g := AfterFill(h, side, price, qty);
            && g.position == (if side == Buy then h.position + qty else h.position - qty)
            && g.volume == (h.volume + qty) % 0x1_0000_0000
  {
    hide Rebased, Unrealised;
  }

  lemma {:induction false} QuoteExact(h: Holding, net: int, turnover: nat, cash: real, mark: real, q: Quote)
    requires Exact(h, net, turnover, cash, mark)
    ensures Exact(AfterQuote(h, q), net, turnover, cash,
                  if h.position == 0 || q.bid == INVALID_64 || q.ask == INVALID_64 then mark
                  else (q.bid as real + q.ask as real) / 2.0)
  {
    hide Balanced, Unrealised;
    QuoteBalanced(h, cash, q);
  }

  /** After any sequence of opens, reductions, closes, flips and requotes: the position is what
    * was bought less what was sold, total PnL is net cash plus the position at the mark, and the
    * side opposite the position carries no cost basis.
    */
  lemma {:induction false} PnlExact(ticks: seq<Tick>)
    requires forall t | t in ticks :: t.Fill? ==> t.side != NoSide
    ensures Exact(After(ticks), Net(ticks), Turnover(ticks), Cash(ticks), Mark(ticks))
  {
    hide Exact, CashFlow, AfterFill, AfterQuote;
    if ticks == [] {
      FlatExact();
    } else {
      var init := ticks[..|ticks| - 1];
      PnlExact(init);
      match ticks[|ticks| - 1]
      case Fill(side, price, qty) =>
        FillExact(After(init), Net(init), Turnover(init), Cash(init), Mark(init), side, price, qty);
      case Requote(quote) =>
        QuoteExact(After(init), Net(init), Turnover(init), Cash(init), Mark(init), quote);
    }
  }

  lemma {:induction false} FlatExact()
    ensures Exact(FLAT, 0, 0, 0.0, 0.0)
  {
  }

  // ---------- what a fill does to the average entry price ----------

  /** The average entry price of the open position. */
  ghost function Entry(h: Holding): real
    requires h.position != 0
  {
    if h.position > 0 then h.openBuy / h.position as real else h.openSell / (-h.position) as real
  }

  /** A fill on the side of the position realises nothing and adds what it paid to the cost. */
  lemma {:induction false} OpeningAdds(h: Holding, side: Side, price: nat, qty: nat)
    requires (side == Buy && 0 <= h.position) || (side == Sell && h.position <= 0)
    requires h.position != 0 || qty > 0
    ensures var g := AfterFill(h, side, price, qty);
            && g.realPnl == h.realPnl && g.position == (if side == Buy then h.position + qty else h.position - qty)
            && g.openBuy == h.openBuy + (if side == Buy then price as real * qty as real else 0.0)
            && g.openSell == h.openSell + (if side == Sell then price as real * qty as real else 0.0)
  {
    hide Vwap, Gain;
  }

  /** A fill against the position realises, on what it closes, the difference between its price and
    * the average entry price. What stays open keeps that average; what opens beyond it starts at
    * the price of the fill.
    */
  lemma {:induction false} ClosingRealises(h: Holding, side: Side, price: nat, qty: nat)
    requires (side == Buy && h.position < 0) || (side == Sell && h.position > 0)
    ensures var g := AfterFill(h, side, price, qty);
            var held := if side == Buy then -h.position else h.position;
            var closed := if qty < held then qty else held;
            var gained := if side == Buy then Entry(h) - price as real else price as real - Entry(h);
            && g.position == (if side == Buy then h.position + qty else h.position - qty)
            && g.realPnl == h.realPnl + closed as real * gained
            && (qty < held ==> Entry(g) == Entry(h))
            && (qty == held ==> g.position == 0 && g.openBuy == g.openSell == 0.0)
            && (qty > held ==> Entry(g) == price as real && (if side == Buy then g.openSell else g.openBuy) == 0.0)
  {
    hide Unrealised, Times, Vwap, Gain, Rebased, Marked, Entry;
    var n := Abs(h.position);
    var basis, now := Vwap(if side == Buy then h.openSell else h.openBuy, n), h.position + SideValue(side) * qty;
    ClosingRebases(h, side, price, qty);
    var r := Rebased(h, side, price, qty).(position := now, volume := (h.volume + qty) % 0x1_0000_0000);
    MarkedKeeps(r, price as real);
    GainIsDifference(MinInt(qty, n), basis, price as real, side);
    EntryIs(h);
    if now != 0 {
      EntryIs(Marked(r, price as real));
      VwapTimes(basis, Abs(now));
      VwapTimes(price as real, Abs(now));
    }
  }

  lemma {:induction false} EntryIs(h: Holding)
    requires h.position != 0
    ensures Entry(h) == Vwap(if h.position > 0 then h.openBuy else h.openSell, Abs(h.position))
  {
  }

  lemma {:induction false} MarkedKeeps(h: Holding, mark: real)
    ensures var g := Marked(h, mark);
            && g.position == h.position && g.realPnl == h.realPnl
            && (h.position != 0 ==> g.openBuy == h.openBuy && g.openSell == h.openSell)
            && (h.position == 0 ==> g.openBuy == g.openSell == 0.0)
  {
    hide Unrealised;
  }

  lemma {:induction false} ClosingRebases(h: Holding, side: Side, price: nat, qty: nat)
    requires (side == Buy && h.position < 0) || (side == Sell && h.position > 0)
    ensures var n, now := Abs(h.position), h.position + SideValue(side) * qty;
            var basis := Vwap(if side == Buy then h.openSell else h.openBuy, n);
            var g := Rebased(h, side, price, qty);
            && g.realPnl == h.realPnl + Gain(MinInt(qty, n), basis, price as real, side)
            && (qty <= n ==> (if side == Buy then g.openSell else g.openBuy) == Times(basis, Abs(now)))
            && (qty > n ==> (if side == Buy then g.openBuy else g.openSell) == Times(price as real, Abs(now))
                            && (if side == Buy then g.openSell else g.openBuy) == 0.0)
  {
    hide Times, Vwap, Gain;
    var now := h.position + SideValue(side) * qty;
    if qty <= Abs(h.position) {
      NoFlip(h.position, now);
    } else {
      Flip(h.position, now);
    }
  }

  lemma {:induction false} VwapTimes(price: real, n: nat)
    requires 0 < n
    ensures Vwap(Times(price, n), n) == price
  {
  }

  lemma {:induction false} GainIsDifference(n: int, basis: real, price: real, side: Side)
    requires side != NoSide
    ensures Gain(n, basis, price, side) == n as real * (if side == Buy then basis - price else price - basis)
  {
    assert n as real * (basis - price) * (-1.0) == n as real * (price - basis);
  }
}
