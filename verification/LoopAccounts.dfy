/** What the strategy may rely on in the closed loop: its position is what the exchange executed,
  * its total PnL is net cash plus the position at the mark, and no order leaves outside its limits.
  */
module LoopAccounts {
  import opened Types
  import opened ClosedLoop
  import opened Exchange
  import Orders
  import Position

  // ---------- what leaves the manager ----------

  /** A NEW that may leave while the instrument stands at `h`: at the price wanted for its side,
    * of the size wanted, and within all three limits.
    */
  ghost predicate Quoted(s: Setup, r: Request, h: Position.Holding, bid: nat, ask: nat, clip: nat)
    requires s.Valid() && r.ticker < s.cfg.tickers
  {
    var limits := s.limits[r.ticker];
    && r.client == s.client && r.side != NoSide && r.qty == clip && r.price != INVALID_64
    && r.price == (if r.side == Buy then bid else ask)
    && r.qty <= limits.maxOrderSize
    && Position.Abs(if r.side == Buy then h.position + r.qty else h.position - r.qty) <= limits.maxPosition
    && limits.maxLoss <= h.totalPnl
  }

  lemma {:induction false} SideQuoted(s: Setup, h: Position.Holding, ticker: nat, bid: nat, ask: nat, clip: nat,
                                      side: Side, was: Orders.Slot, id: nat, now: Orders.Slot, next: nat,
                                      rs: seq<Request>)
    requires s.Valid() && ticker < s.cfg.tickers && side != NoSide
    requires Orders.SideMoves(s.client, ticker, if side == Buy then bid else ask, side, clip,
                              Orders.WithinLimits(s.limits[ticker], h.position, h.totalPnl, side, clip),
                              was, id, now, next, rs)
    ensures forall r | r in rs && r.kind == NewRequest :: r.ticker == ticker && Quoted(s, r, h, bid, ask, clip)
  {
  }

  /** In every run, a NEW leaves only when the strategy moves its orders, at that moment's bid or
    * ask and within that moment's limits; in particular none leaves while total PnL is below the
    * limit. The strategy's turn is the move of both sides and nothing else; any other step at most
    * takes the first request off the queue.
    */
  lemma {:induction false} OnlyQuotedLeaves(s: Setup, events: seq<Event>, e: Event) returns (mid: nat, k: nat)
    requires s.Valid()
    ensures var l, m := Reach(s, events), Next(s, Reach(s, events), e);
            e.Strategy? && e.ticker < s.cfg.tickers ==>
              && l.requests <= m.requests && m == l.(manager := m.manager, requests := m.requests)
              && l.manager.Sized(s.cfg.tickers) && m.manager.Sized(s.cfg.tickers)
              && Orders.BothMove(s.client, l.manager, s.limits[e.ticker], l.holdings[e.ticker], e.ticker, e.bid, e.ask,
                                 e.clip, m.manager, m.requests[|l.requests|..], mid, k)
    ensures var l, m := Reach(s, events), Next(s, Reach(s, events), e);
            if e.Strategy? && e.ticker < s.cfg.tickers then
              && l.requests <= m.requests
              && forall r | r in m.requests[|l.requests|..] && r.kind == NewRequest ::
                   r.ticker == e.ticker && Quoted(s, r, l.holdings[e.ticker], e.bid, e.ask, e.clip)
            else m.requests == l.requests || (l.requests != [] && m.requests == l.requests[1..])
  {
    hide Reach, Process, Orders.MoveOrders, Orders.SideMoves, Orders.WithinLimits, Quoted, Position.AfterFill,
         Position.AfterQuote, Orders.OnOrderUpdate;
    var l := Reach(s, events);
    mid, k := 0, 0;
    if e.Strategy? && e.ticker < s.cfg.tickers {
      var h := l.holdings[e.ticker];
      var out := Orders.MoveOrders(s.client, l.manager, s.limits[e.ticker], h, e.ticker, e.bid, e.ask, e.clip);
      mid, k := Orders.MovesBoth(s.client, l.manager, s.limits[e.ticker], h, e.ticker, e.bid, e.ask, e.clip);
      assert Next(s, l, e).requests[|l.requests|..] == out.requests;
      SideQuoted(s, h, e.ticker, e.bid, e.ask, e.clip, Buy, l.manager.At(e.ticker, Buy), l.manager.nextId,
                 out.book.At(e.ticker, Buy), mid, out.requests[..k]);
      SideQuoted(s, h, e.ticker, e.bid, e.ask, e.clip, Sell, l.manager.At(e.ticker, Sell), mid,
                 out.book.At(e.ticker, Sell), out.book.nextId, out.requests[k..]);
      assert out.requests == out.requests[..k] + out.requests[k..];
    }
  }

  // ---------- the position ----------

  lemma {:induction false} InFlightAppend(t: nat, rs: seq<Response>, r: Response)
    ensures InFlight(t, rs + [r]) == InFlight(t, rs) + InFlight(t, [r])
  {
    if rs == [] {
      assert rs + [r] == [r];
      assert InFlight(t, []) == 0;
    } else {
      InFlightAppend(t, rs[1..], r);
      assert (rs + [r])[1..] == rs[1..] + [r];
    }
  }

  /** The net quantity executed in `rs`, told without side values: bought less sold. */
  function Executions(t: nat, rs: seq<Response>): int {
    if rs == [] then 0
    else
      var r := rs[|rs| - 1];
      Executions(t, rs[..|rs| - 1])
      + if r.kind != Filled || r.ticker != t || r.side == NoSide then 0
        else if r.side == Buy then r.execQty as int else -(r.execQty as int)
  }

  lemma {:induction false} ExecutionsAre(t: nat, rs: seq<Response>)
    ensures Executions(t, rs) == InFlight(t, rs)
  {
    if rs != [] {
      var init, r := rs[..|rs| - 1], rs[|rs| - 1];
      ExecutionsAre(t, init);
      InFlightAppend(t, init, r);
      assert init + [r] == rs && [r][1..] == [];
    }
  }

  /** The client's position is, at any moment, exactly what the responses it has read executed. */
  lemma {:induction false} PositionExact(s: Setup, events: seq<Event>, t: nat)
    requires s.Valid() && t < s.cfg.tickers
    ensures var l := Reach(s, events); l.holdings[t].position == Executions(t, l.sent[..l.read])
  {
    if events == [] {
      assert Start(s).sent[..0] == [];
    } else {
      var init, e := events[..|events| - 1], events[|events| - 1];
      PositionExact(s, init, t);
      var l := Reach(s, init);
      StepPosition(s, l, e, t);
    }
  }

  lemma {:induction false} StepPosition(s: Setup, l: Loop, e: Event, t: nat)
    requires s.Valid() && WellFormed(s, l) && t < s.cfg.tickers
    requires l.holdings[t].position == Executions(t, l.sent[..l.read])
    ensures var m := Next(s, l, e); m.holdings[t].position == Executions(t, m.sent[..m.read])
  {
    hide Orders.MoveOrders, Orders.OnOrderUpdate, Position.AfterFill, Process, Mine;
    var m := Next(s, l, e);
    assert l.sent[..l.read] <= m.sent;
    if e.ClientReads? && l.read < |l.sent| {
      PositionAfter(l.holdings[t], l.sent[l.read], e.quote);
      assert l.sent[..l.read + 1][..l.read] == l.sent[..l.read];
    } else {
      assert m.sent[..m.read] == l.sent[..l.read];
    }
  }

  // ---------- profit and loss ----------

  /** What has happened to one instrument's holding. */
  function TicksOf(s: Setup, events: seq<Event>, t: nat): seq<Position.Tick>
    requires s.Valid()
  {
    if events == [] then []
    else
      var init, e := events[..|events| - 1], events[|events| - 1];
      var l, before := Reach(s, init), TicksOf(s, init, t);
      if e.BookMoves? && e.ticker == t then before + [Position.Requote(e.quote)]
      else if e.ClientReads? && l.read < |l.sent| && l.sent[l.read].ticker == t && l.sent[l.read].kind == Filled then
        var r := l.sent[l.read];
        before + [Position.Fill(r.side, r.price, r.execQty), Position.Requote(e.quote)]
      else before
  }

  lemma {:induction false} AfterAppend(ticks: seq<Position.Tick>, t: Position.Tick)
    ensures Position.After(ticks + [t])
         == match t
            case Fill(side, price, qty) => Position.AfterFill(Position.After(ticks), side, price, qty)
            case Requote(quote) => Position.AfterQuote(Position.After(ticks), quote)
  {
    hide Position.AfterFill, Position.AfterQuote;
    assert (ticks + [t])[..|ticks|] == ticks;
  }

  lemma {:induction false} StepHolding(s: Setup, l: Loop, e: Event, t: nat)
    requires s.Valid() && WellFormed(s, l) && t < s.cfg.tickers
    ensures var h, g := l.holdings[t], Next(s, l, e).holdings[t];
            if e.BookMoves? && e.ticker == t then g == Position.AfterQuote(h, e.quote)
            else if e.ClientReads? && l.read < |l.sent| && l.sent[l.read].ticker == t && l.sent[l.read].kind == Filled
            then var r := l.sent[l.read];
                 g == Position.AfterQuote(Position.AfterFill(h, r.side, r.price, r.execQty), e.quote)
            else g == h
  {
    hide Position.AfterFill, Position.AfterQuote, Orders.MoveOrders, Orders.OnOrderUpdate, Process, Mine;
  }

  lemma {:induction false} HoldingIs(s: Setup, events: seq<Event>, t: nat)
    requires s.Valid() && t < s.cfg.tickers
    ensures Reach(s, events).holdings[t] == Position.After(TicksOf(s, events, t))
  {
    hide Position.AfterFill, Position.AfterQuote, Next;
    if events == [] {
      assert Start(s).holdings[t] == Position.FLAT;
    } else {
      var init, e := events[..|events| - 1], events[|events| - 1];
      HoldingIs(s, init, t);
      var l, before := Reach(s, init), TicksOf(s, init, t);
      StepHolding(s, l, e, t);
      if e.BookMoves? && e.ticker == t {
        AfterAppend(before, Position.Requote(e.quote));
      } else if e.ClientReads? && l.read < |l.sent| && l.sent[l.read].ticker == t && l.sent[l.read].kind == Filled {
        var r := l.sent[l.read];
        var fill := Position.Fill(r.side, r.price, r.execQty);
        AfterAppend(before, fill);
        AfterAppend(before + [fill], Position.Requote(e.quote));
        assert before + [fill] + [Position.Requote(e.quote)] == before + [fill, Position.Requote(e.quote)];
      }
    }
  }

  /** Fills are sided. */
  lemma {:induction false} TicksSided(s: Setup, events: seq<Event>, t: nat)
    requires s.Valid() && (forall e | e in events :: FairEvent(e)) && t < s.cfg.tickers
    ensures forall k | k in TicksOf(s, events, t) :: k.Fill? ==> k.side != NoSide
  {
    hide LoopOk, Next;
    if events != [] {
      var init := events[..|events| - 1];
      TicksSided(s, init, t);
      ReachOk(s, init);
      var l := Reach(s, init);
      if l.read < |l.sent| && l.sent[l.read].ticker == t {
        FillSided(s, l);
      }
    }
  }

  lemma {:induction false} FillSided(s: Setup, l: Loop)
    requires s.Valid() && WellFormed(s, l) && LoopOk(s, l) && l.read < |l.sent| && l.sent[l.read].ticker < s.cfg.tickers
    ensures l.sent[l.read].kind == Filled ==> l.sent[l.read].side != NoSide
  {
    hide Accounted, Tracked, Awaited, Rising, AllWithin;
    assert l.sent[l.read] in l.sent;
    LandsOn(s, l);
  }

  /** In every run the total PnL of an instrument is the cash its fills moved plus its position at
    * the last price it was marked to, and its position is what it bought less what it sold.
    */
  lemma {:induction false} PnlExact(s: Setup, events: seq<Event>, t: nat)
    requires s.Valid() && (forall e | e in events :: FairEvent(e)) && t < s.cfg.tickers
    ensures var h, ticks := Reach(s, events).holdings[t], TicksOf(s, events, t);
            && h.totalPnl == Position.Cash(ticks) + Position.Mark(ticks) * h.position as real
            && h.position == Position.Net(ticks)
  {
    hide Reach, TicksOf, LoopOk, Position.Balanced, Position.After, Position.Cash, Position.Mark, Position.Net;
    HoldingIs(s, events, t);
    TicksSided(s, events, t);
    Position.PnlExact(TicksOf(s, events, t));
  }
}
