/** The life of an order slot in the closed loop: what each state stands for, when the slot is
  * free again, and exactly when it never will be.
  */
module SlotLife {
  import opened Types
  import opened PriceTime
  import opened Exchange
  import opened Soundness
  import opened Ledger
  import opened ClosedLoop
  import Orders
  import Position
  import R = Reports

  // ---------- what a slot stands for ----------

  /** A used slot carries its own ticker and side, and an id given out before. */
  ghost predicate Labelled(s: Setup, l: Loop)
    requires WellFormed(s, l)
  {
    forall t: nat, d: Side | t < s.cfg.tickers && d != NoSide && l.manager.At(t, d).state != Orders.Unused ::
      var slot := l.manager.At(t, d);
      slot.ticker == t && slot.side == d && slot.orderId < l.manager.nextId
  }

  /** The two sides of a ticker never share an id. */
  ghost predicate Apart(s: Setup, l: Loop)
    requires WellFormed(s, l)
  {
    forall t: nat | t < s.cfg.tickers ::
      var b, a := l.manager.At(t, Buy), l.manager.At(t, Sell);
      b.state != Orders.Unused && a.state != Orders.Unused ==> b.orderId != a.orderId
  }

  /** A working slot is an order known to be open, with its quantity, unless it was for nothing. */
  ghost predicate Backed(s: Setup, l: Loop)
    requires WellFormed(s, l)
  {
    forall t: nat, d: Side | t < s.cfg.tickers && d != NoSide && Working(l.manager.At(t, d).state) ::
      var slot := l.manager.At(t, d);
      var a := Known(s, l, t, slot.orderId);
      if slot.qty == 0 then a.Closed? else a.Open? && a.side == d && a.qty == slot.qty
  }

  predicate IsAccepted(r: Response, t: nat, d: Side, id: nat) {
    r.kind == Accepted && r.ticker == t && r.side == d && r.clientOrderId == id
  }

  ghost predicate AcceptedUnread(l: Loop, t: nat, d: Side, id: nat) {
    exists j :: l.read <= j < |l.sent| && IsAccepted(l.sent[j], t, d, id)
  }

  predicate IsRefusal(r: Response, t: nat, d: Side, id: nat) {
    r.kind == Rejected && r.ticker == t && r.side == d && r.clientOrderId == id
  }

  ghost predicate WasRefused(l: Loop, t: nat, d: Side, id: nat) {
    exists r :: r in l.sent && IsRefusal(r, t, d, id)
  }

  /** A slot that waits for ACCEPTED waits for a reason, or was refused. */
  ghost predicate Explained(s: Setup, l: Loop)
    requires WellFormed(s, l)
  {
    forall t: nat, d: Side | t < s.cfg.tickers && d != NoSide && l.manager.At(t, d).state == Orders.PendingNew ::
      var id := l.manager.At(t, d).orderId;
      Queued(l, t, d, id) || AcceptedUnread(l, t, d, id) || WasRefused(l, t, d, id)
  }

  predicate IsCancel(r: Request, t: nat, id: nat) {
    r.kind == CancelRequest && r.ticker == t && r.orderId == id
  }

  ghost predicate CancelQueued(l: Loop, t: nat, id: nat) {
    exists i :: 0 <= i < |l.requests| && IsCancel(l.requests[i], t, id)
  }

  /** A slot being withdrawn has its CANCEL on the way, or the engine is done with the order. */
  ghost predicate Withdrawing(s: Setup, l: Loop)
    requires WellFormed(s, l)
  {
    forall t: nat, d: Side | t < s.cfg.tickers && d != NoSide && l.manager.At(t, d).state == Orders.PendingCancel ::
      var id := l.manager.At(t, d).orderId;
      CancelQueued(l, t, id) || AccountOf(l.books[t].book, Owner(s.client, id)).Closed?
  }

  ghost predicate SlotsOk(s: Setup, l: Loop)
    requires WellFormed(s, l)
  {
    Labelled(s, l) && Apart(s, l) && Backed(s, l) && Explained(s, l) && Withdrawing(s, l)
  }

  // ---------- the strategy moves ----------

  /** One slot of `l` has been written and requests may have been added. */
  ghost predicate SlotMoved(s: Setup, l: Loop, t: nat, d: Side, m: Loop)
    requires WellFormed(s, l) && t < s.cfg.tickers
  {
    && WellFormed(s, m) && m.sent == l.sent && m.read == l.read && m.books == l.books && l.requests <= m.requests
    && l.manager.nextId <= m.manager.nextId
    && (forall u: nat, e: Side | u < s.cfg.tickers && (u != t || e != d) :: m.manager.At(u, e) == l.manager.At(u, e))
  }

  lemma {:induction false} MovedKnown(s: Setup, l: Loop, t: nat, d: Side, m: Loop)
    requires WellFormed(s, l) && t < s.cfg.tickers && SlotMoved(s, l, t, d, m)
    ensures forall u: nat, c: nat :: Known(s, m, u, c) == Known(s, l, u, c)
    ensures forall u: nat, e: Side, id: nat :: Queued(l, u, e, id) ==> Queued(m, u, e, id)
    ensures forall u: nat, id: nat :: CancelQueued(l, u, id) ==> CancelQueued(m, u, id)
    ensures forall u: nat, e: Side, id: nat :: AcceptedUnread(l, u, e, id) ==> AcceptedUnread(m, u, e, id)
  {
    hide Replay;
    assert forall i | 0 <= i < |l.requests| :: m.requests[i] == l.requests[i];
  }

  /** The slot at (`t`, `d`) after its move: as it was, taken for a new order, or being withdrawn. */
  ghost predicate Moved(l: Loop, t: nat, d: Side, was: Orders.Slot, now: Orders.Slot, m: Loop) {
    || now == was
    || (&& now.state == Orders.PendingNew && now.ticker == t && now.side == d && now.orderId == l.manager.nextId
        && l.manager.nextId < m.manager.nextId && Queued(m, t, d, now.orderId))
    || (&& was.state == Orders.Live && now == was.(state := Orders.PendingCancel)
        && CancelQueued(m, was.ticker, now.orderId))
  }

  lemma {:induction false} SideMoved(s: Setup, l: Loop, t: nat, d: Side, m: Loop, price: nat, clip: nat, may: bool)
    requires WellFormed(s, l) && t < s.cfg.tickers && SlotMoved(s, l, t, d, m)
    requires Orders.SideMoves(s.client, t, price, d, clip, may, l.manager.At(t, d), l.manager.nextId,
                              m.manager.At(t, d), m.manager.nextId, m.requests[|l.requests|..])
    ensures Moved(l, t, d, l.manager.At(t, d), m.manager.At(t, d), m)
  {
    var was, now, rs := l.manager.At(t, d), m.manager.At(t, d), m.requests[|l.requests|..];
    if rs != [] {
      var i := |l.requests|;
      assert m.requests[i] == rs[0];
      if rs[0].kind == NewRequest {
        assert IsNew(m.requests[i], t, d, now.orderId);
      } else {
        assert IsCancel(m.requests[i], was.ticker, now.orderId);
      }
    }
  }

  lemma {:induction false} MoveKeepsLabels(s: Setup, l: Loop, t: nat, d: Side, m: Loop)
    requires WellFormed(s, l) && t < s.cfg.tickers && d != NoSide && SlotMoved(s, l, t, d, m)
    requires Moved(l, t, d, l.manager.At(t, d), m.manager.At(t, d), m) && Labelled(s, l) && Apart(s, l)
    ensures Labelled(s, m) && Apart(s, m)
  {
    hide Queued, CancelQueued;
    forall u: nat, e: Side | u < s.cfg.tickers && e != NoSide && m.manager.At(u, e).state != Orders.Unused
      ensures var slot := m.manager.At(u, e);
              slot.ticker == u && slot.side == e && slot.orderId < m.manager.nextId
    {
      assert (u != t || e != d) ==> m.manager.At(u, e) == l.manager.At(u, e);
    }
    forall u: nat | u < s.cfg.tickers
      ensures var b, a := m.manager.At(u, Buy), m.manager.At(u, Sell);
              b.state != Orders.Unused && a.state != Orders.Unused ==> b.orderId != a.orderId
    {
      var o := if d == Buy then Sell else Buy;
      assert m.manager.At(u, o) == l.manager.At(u, o);
      assert u != t ==> m.manager.At(u, d) == l.manager.At(u, d);
    }
  }

  lemma {:induction false} MoveKeepsBacked(s: Setup, l: Loop, t: nat, d: Side, m: Loop)
    requires WellFormed(s, l) && t < s.cfg.tickers && d != NoSide && SlotMoved(s, l, t, d, m)
    requires Moved(l, t, d, l.manager.At(t, d), m.manager.At(t, d), m) && Backed(s, l)
    ensures Backed(s, m)
  {
    hide Queued, CancelQueued, Known;
    MovedKnown(s, l, t, d, m);
    forall u: nat, e: Side | u < s.cfg.tickers && e != NoSide && Working(m.manager.At(u, e).state)
      ensures var slot := m.manager.At(u, e);
              var a := Known(s, m, u, slot.orderId);
              if slot.qty == 0 then a.Closed? else a.Open? && a.side == e && a.qty == slot.qty
    {
      assert (u != t || e != d) ==> m.manager.At(u, e) == l.manager.At(u, e);
      assert Working(l.manager.At(u, e).state);
    }
  }

  lemma {:induction false} MoveKeepsReasons(s: Setup, l: Loop, t: nat, d: Side, m: Loop)
    requires WellFormed(s, l) && t < s.cfg.tickers && d != NoSide && SlotMoved(s, l, t, d, m)
    requires Moved(l, t, d, l.manager.At(t, d), m.manager.At(t, d), m)
    requires Labelled(s, l) && Explained(s, l) && Withdrawing(s, l)
    ensures Explained(s, m) && Withdrawing(s, m)
  {
    hide Queued, CancelQueued, AcceptedUnread, AccountOf;
    MovedKnown(s, l, t, d, m);
    forall u: nat, e: Side | u < s.cfg.tickers && e != NoSide && m.manager.At(u, e).state == Orders.PendingNew
      ensures var id := m.manager.At(u, e).orderId;
              Queued(m, u, e, id) || AcceptedUnread(m, u, e, id) || WasRefused(m, u, e, id)
    {
      assert (u != t || e != d) ==> m.manager.At(u, e) == l.manager.At(u, e);
    }
    forall u: nat, e: Side | u < s.cfg.tickers && e != NoSide && m.manager.At(u, e).state == Orders.PendingCancel
      ensures var id := m.manager.At(u, e).orderId;
              CancelQueued(m, u, id) || AccountOf(m.books[u].book, Owner(s.client, id)).Closed?
    {
      assert (u != t || e != d) ==> m.manager.At(u, e) == l.manager.At(u, e);
    }
  }

  lemma {:induction false} MoveKeeps(s: Setup, l: Loop, t: nat, d: Side, m: Loop, price: nat, clip: nat, may: bool)
    requires WellFormed(s, l) && t < s.cfg.tickers && d != NoSide && SlotsOk(s, l) && SlotMoved(s, l, t, d, m)
    requires Orders.SideMoves(s.client, t, price, d, clip, may, l.manager.At(t, d), l.manager.nextId,
                              m.manager.At(t, d), m.manager.nextId, m.requests[|l.requests|..])
    ensures SlotsOk(s, m)
  {
    hide Orders.SideMoves, Moved, Labelled, Apart, Backed, Explained, Withdrawing;
    SideMoved(s, l, t, d, m, price, clip, may);
    MoveKeepsLabels(s, l, t, d, m);
    MoveKeepsBacked(s, l, t, d, m);
    MoveKeepsReasons(s, l, t, d, m);
  }

  /** One side's move, as the strategy makes it. */
  lemma {:induction false} MoveOneKeeps(s: Setup, l: Loop, t: nat, price: nat, d: Side, clip: nat,
                                        risk: Orders.RiskResult)
    requires s.Valid() && WellFormed(s, l) && t < s.cfg.tickers && d != NoSide && SlotsOk(s, l)
    ensures var out := Orders.MoveOne(s.client, l.manager, t, price, d, clip, risk);
            var m := l.(manager := out.book, requests := l.requests + out.requests);
            WellFormed(s, m) && SlotsOk(s, m)
  {
    hide SlotsOk, Orders.SideMoves, Orders.MoveOne;
    var out := Orders.MoveOne(s.client, l.manager, t, price, d, clip, risk);
    var m := l.(manager := out.book, requests := l.requests + out.requests);
    Orders.MoveMeans(s.client, l.manager, t, price, d, clip, risk);
    assert m.requests[|l.requests|..] == out.requests;
    NextIdRises(s.client, l.manager, t, price, d, clip, risk);
    MoveKeeps(s, l, t, d, m, price, clip, risk == Orders.Allowed);
  }

  lemma {:induction false} NextIdRises(client: nat, b: Orders.Book, t: nat, price: nat, d: Side, clip: nat,
                                       risk: Orders.RiskResult)
    requires t < |b.slots| && |b.slots[t]| == Orders.SIDES
    ensures b.nextId <= Orders.MoveOne(client, b, t, price, d, clip, risk).book.nextId
  {
  }

  lemma {:induction false} StrategyKeeps(s: Setup, l: Loop, t: nat, bid: nat, ask: nat, clip: nat)
    requires s.Valid() && WellFormed(s, l) && SlotsOk(s, l) && t < s.cfg.tickers
    ensures SlotsOk(s, Next(s, l, Strategy(t, bid, ask, clip)))
  {
    hide SlotsOk, Orders.CheckPreTradeRisk, Orders.MoveOne;
    var h := l.holdings[t];
    var risk := Orders.CheckPreTradeRisk(s.limits[t], h.position, h.totalPnl, Buy, clip);
    var first := Orders.MoveOne(s.client, l.manager, t, bid, Buy, clip, risk);
    var mid := l.(manager := first.book, requests := l.requests + first.requests);
    MoveOneKeeps(s, l, t, bid, Buy, clip, risk);
    var check := Orders.CheckPreTradeRisk(s.limits[t], h.position, h.totalPnl, Sell, clip);
    var second := Orders.MoveOne(s.client, mid.manager, t, ask, Sell, clip, check);
    MoveOneKeeps(s, mid, t, ask, Sell, clip, check);
    assert l.requests + (first.requests + second.requests) == mid.requests + second.requests;
  }

  // ---------- the engine's turn ----------

  /** From nothing open, responses without an ACCEPTED open nothing. */
  lemma {:induction false} StaysClosed(ticker: nat, owner: Owner, rs: seq<Response>)
    requires forall r | r in rs && Concerns(r, ticker, owner) :: r.kind != Accepted
    ensures !Replay(ticker, owner, Closed, rs).Open?
  {
    if rs != [] {
      StaysClosed(ticker, owner, rs[..|rs| - 1]);
    }
  }

  /** An id that the engine is done with stays done unless its NEW is taken now. */
  lemma {:induction false} DoneStays(s: Setup, l: Loop, r: Request, t: nat, id: nat)
    requires s.Valid() && WellFormed(s, l) && LoopOk(s, l) && Sided(r) && t < s.cfg.tickers
    requires AccountOf(l.books[t].book, Owner(s.client, id)).Closed?
    requires !(r.kind == NewRequest && r.client == s.client && r.ticker == t && r.orderId == id)
    ensures AccountOf(Process(s.cfg, l.books, r).books[t].book, Owner(s.client, id)).Closed?
  {
    hide Process, Replay, Accounted, Tracked, Awaited, Rising, AllWithin;
    var who, out := Owner(s.client, id), Process(s.cfg, l.books, r);
    ProcessLedger(s.cfg, l.books, r, t, who);
    NewAccepted(s, l, r);
    MineHas(s.client, out.effects.responses);
    StaysClosed(t, who, out.effects.responses);
  }

  /** A CANCEL that the engine takes leaves nothing open under its id. */
  lemma {:induction false} CancelEnds(s: Setup, l: Loop, r: Request)
    requires s.Valid() && WellFormed(s, l) && EngineSound(s.cfg, l.books)
    requires r.kind == CancelRequest && r.ticker < s.cfg.tickers
    ensures AccountOf(Process(s.cfg, l.books, r).books[r.ticker].book, Owner(r.client, r.orderId)).Closed?
  {
    hide CancelOrder, Sound, Lookup, R.CancelRefused;
    var x, owner := l.books[r.ticker], Owner(r.client, r.orderId);
    var out := CancelOrder(x, r.ticker, owner);
    R.CancelServed(s.cfg, x, r.ticker, owner);
    if o :| x.book.Has(o) && o.owner == owner {
      OnlyOne(s.cfg, x, o);
      assert R.Withdrawn(x, r.ticker, o, out);
    } else {
      RefusalKeeps(x, r.ticker, owner, out);
    }
    LookupHas(out.x.book, owner);
  }

  lemma {:induction false} OnlyOne(cfg: Config, x: XBook, o: Order)
    requires cfg.Valid() && Sound(cfg, x) && x.book.Has(o)
    ensures forall p | x.book.Has(p) && p.owner == o.owner :: p == o
  {
  }

  lemma {:induction false} RefusalKeeps(x: XBook, ticker: nat, owner: Owner, out: Outcome)
    requires R.CancelRefused(x, ticker, owner, out)
    ensures out.x == x
  {
  }

  /** The engine answers this client's NEW with ACCEPTED or refuses it. */
  lemma {:induction false} NewAnswered(s: Setup, l: Loop, r: Request) returns (p: Response)
    requires s.Valid() && WellFormed(s, l) && EngineSound(s.cfg, l.books)
    requires r.kind == NewRequest && r.side != NoSide && r.ticker < s.cfg.tickers && r.client == s.client
    ensures p in Mine(s.client, Process(s.cfg, l.books, r).effects.responses)
    ensures IsAccepted(p, r.ticker, r.side, r.orderId) || IsRefusal(p, r.ticker, r.side, r.orderId)
  {
    hide Process, EngineSound, R.Refusable, R.Rests, R.Allocates, GreedyReports, TotalQty;
    R.ProcessDispatches(s.cfg, l.books, r);
    var rs := Process(s.cfg, l.books, r).effects.responses;
    MineHas(s.client, rs);
    p := rs[0];
  }

  /** The engine has taken `r`, the client's next request or somebody else's. */
  ghost predicate EngineTook(s: Setup, l: Loop, r: Request, m: Loop)
    requires s.Valid() && WellFormed(s, l)
  {
    && ((l.requests != [] && r == l.requests[0] && m.requests == l.requests[1..])
        || (r.client != s.client && m.requests == l.requests))
    && var out := Process(s.cfg, l.books, r);
       m == l.(requests := m.requests, books := out.books, sent := l.sent + Mine(s.client, out.effects.responses))
  }

  lemma {:induction false} EngineKeepsSlots(s: Setup, l: Loop, r: Request, m: Loop)
    requires s.Valid() && WellFormed(s, l) && WellFormed(s, m) && EngineTook(s, l, r, m)
    requires Labelled(s, l) && Apart(s, l) && Backed(s, l)
    ensures Labelled(s, m) && Apart(s, m) && Backed(s, m)
  {
    hide Process, Mine, Replay;
    assert m.sent[..m.read] == l.sent[..l.read];
    assert forall t: nat, c: nat :: Known(s, m, t, c) == Known(s, l, t, c);
  }

  lemma {:induction false} EngineExplains(s: Setup, l: Loop, r: Request, m: Loop, t: nat, d: Side)
    requires s.Valid() && WellFormed(s, l) && WellFormed(s, m) && LoopOk(s, l) && EngineTook(s, l, r, m)
    requires t < s.cfg.tickers && d != NoSide
    requires var id := l.manager.At(t, d).orderId;
             Queued(l, t, d, id) || AcceptedUnread(l, t, d, id) || WasRefused(l, t, d, id)
    ensures var id := l.manager.At(t, d).orderId;
            Queued(m, t, d, id) || AcceptedUnread(m, t, d, id) || WasRefused(m, t, d, id)
  {
    hide Process, Mine, Accounted, Tracked, Awaited, AllWithin;
    var id := l.manager.At(t, d).orderId;
    if Queued(l, t, d, id) {
      var i :| 0 <= i < |l.requests| && IsNew(l.requests[i], t, d, id);
      if m.requests == l.requests {
        assert IsNew(m.requests[i], t, d, id);
      } else if i > 0 {
        assert IsNew(m.requests[i - 1], t, d, id);
      } else {
        var p := NewAnswered(s, l, r);
        Answered(s, l, m, p, t, d, id);
      }
    } else if AcceptedUnread(l, t, d, id) {
      var j :| l.read <= j < |l.sent| && IsAccepted(l.sent[j], t, d, id);
      assert IsAccepted(m.sent[j], t, d, id);
    }
  }

  lemma {:induction false} Answered(s: Setup, l: Loop, m: Loop, p: Response, t: nat, d: Side, id: nat)
    requires WellFormed(s, l) && m.read == l.read && l.sent <= m.sent && p in m.sent[|l.sent|..]
    requires IsAccepted(p, t, d, id) || IsRefusal(p, t, d, id)
    ensures AcceptedUnread(m, t, d, id) || WasRefused(m, t, d, id)
  {
    var k :| 0 <= k < |m.sent[|l.sent|..]| && m.sent[|l.sent|..][k] == p;
    assert m.sent[|l.sent| + k] == p;
  }

  /** The id of a slot being withdrawn is not that of a NEW still to be taken. */
  lemma {:induction false} NotNewAgain(s: Setup, l: Loop, r: Request, t: nat, d: Side)
    requires s.Valid() && WellFormed(s, l) && Awaited(s, l) && Labelled(s, l) && Apart(s, l)
    requires t < s.cfg.tickers && d != NoSide && l.manager.At(t, d).state == Orders.PendingCancel
    requires r.client == s.client ==> l.requests != [] && r == l.requests[0]
    ensures !(r.kind == NewRequest && r.client == s.client && r.ticker == t && r.orderId == l.manager.At(t, d).orderId)
  {
  }

  lemma {:induction false} EngineWithdraws(s: Setup, l: Loop, r: Request, m: Loop, t: nat, d: Side)
    requires s.Valid() && WellFormed(s, l) && WellFormed(s, m) && LoopOk(s, l) && EngineTook(s, l, r, m) && Sided(r)
    requires Labelled(s, l) && Apart(s, l)
    requires t < s.cfg.tickers && d != NoSide && l.manager.At(t, d).state == Orders.PendingCancel
    requires var id := l.manager.At(t, d).orderId;
             CancelQueued(l, t, id) || AccountOf(l.books[t].book, Owner(s.client, id)).Closed?
    ensures var id := l.manager.At(t, d).orderId;
            CancelQueued(m, t, id) || AccountOf(m.books[t].book, Owner(s.client, id)).Closed?
  {
    hide Process, Mine, AccountOf, Replay, Accounted, Tracked, AllWithin;
    var id := l.manager.At(t, d).orderId;
    if CancelQueued(l, t, id) {
      var i :| 0 <= i < |l.requests| && IsCancel(l.requests[i], t, id);
      if m.requests == l.requests {
        assert IsCancel(m.requests[i], t, id);
      } else if i > 0 {
        assert IsCancel(m.requests[i - 1], t, id);
      } else {
        CancelEnds(s, l, r);
      }
    } else {
      NotNewAgain(s, l, r, t, d);
      DoneStays(s, l, r, t, id);
    }
  }

  lemma {:induction false} EngineKeeps(s: Setup, l: Loop, r: Request, m: Loop)
    requires s.Valid() && WellFormed(s, l) && WellFormed(s, m) && LoopOk(s, l) && SlotsOk(s, l) && Sided(r)
    requires EngineTook(s, l, r, m)
    ensures SlotsOk(s, m)
  {
    EngineKeepsSlots(s, l, r, m);
    hide LoopOk, Labelled, Apart, Backed, Queued, CancelQueued, AcceptedUnread, WasRefused, AccountOf, Process, Mine;
    forall t: nat, d: Side | t < s.cfg.tickers && d != NoSide && m.manager.At(t, d).state == Orders.PendingNew
      ensures var id := m.manager.At(t, d).orderId;
              Queued(m, t, d, id) || AcceptedUnread(m, t, d, id) || WasRefused(m, t, d, id)
    {
      EngineExplains(s, l, r, m, t, d);
    }
    forall t: nat, d: Side | t < s.cfg.tickers && d != NoSide && m.manager.At(t, d).state == Orders.PendingCancel
      ensures var id := m.manager.At(t, d).orderId;
              CancelQueued(m, t, id) || AccountOf(m.books[t].book, Owner(s.client, id)).Closed?
    {
      EngineWithdraws(s, l, r, m, t, d);
    }
  }

  // ---------- the client reads ----------

  /** A response has reached the manager. */
  ghost predicate ResponseRead(s: Setup, l: Loop, m: Loop)
    requires WellFormed(s, l) && l.read < |l.sent|
  {
    && WellFormed(s, m) && m.sent == l.sent && m.read == l.read + 1 && m.books == l.books && m.requests == l.requests
    && var r := l.sent[l.read];
       m.manager == if r.ticker < s.cfg.tickers then Orders.OnOrderUpdate(l.manager, r) else l.manager
  }

  /** What a response makes of the slot it lands on, and of no other. */
  lemma {:induction false} LandsSo(s: Setup, l: Loop, m: Loop)
    requires s.Valid() && WellFormed(s, l) && LoopOk(s, l) && l.read < |l.sent| && ResponseRead(s, l, m)
    ensures var r := l.sent[l.read];
            && m.manager.nextId == l.manager.nextId
            && (forall t: nat, d: Side | t < s.cfg.tickers && (t != r.ticker || d != r.side) ::
                  m.manager.At(t, d) == l.manager.At(t, d))
            && (r.ticker < s.cfg.tickers ==>
                  var was, now := l.manager.At(r.ticker, r.side), m.manager.At(r.ticker, r.side);
                  && now.ticker == was.ticker && now.side == was.side && now.orderId == was.orderId
                  && (r.kind == Rejected || r.kind == CancelRejected ==> now == was)
                  && (r.kind == Accepted ==> was.state == Orders.PendingNew && was.orderId == r.clientOrderId
                                             && was.qty == r.leavesQty
                                             && now.state == Orders.Live && now.qty == was.qty)
                  && (r.kind == Filled ==> Working(was.state) && was.orderId == r.clientOrderId
                                           && now.qty == r.leavesQty
                                           && now.state == if r.leavesQty == 0 then Orders.Dead else was.state)
                  && (r.kind == Canceled ==> Working(was.state) && now.state == Orders.Dead))
  {
    hide Accounted, Tracked, Awaited, Rising, AllWithin;
    var r := l.sent[l.read];
    assert r in l.sent;
    if r.ticker < s.cfg.tickers {
      LandsOn(s, l);
      AtWith(l.manager, s.cfg.tickers, r.ticker, r.side, Orders.OnResponse(l.manager.At(r.ticker, r.side), r));
    }
  }

  lemma {:induction false} ReadKeepsLabels(s: Setup, l: Loop, m: Loop)
    requires s.Valid() && WellFormed(s, l) && LoopOk(s, l) && l.read < |l.sent| && ResponseRead(s, l, m)
    requires Labelled(s, l) && Apart(s, l)
    ensures Labelled(s, m) && Apart(s, m)
  {
    LandsSo(s, l, m);
    hide LoopOk, ResponseRead, Working;
    var r := l.sent[l.read];
    forall t: nat, d: Side | t < s.cfg.tickers && d != NoSide
      ensures var was, now := l.manager.At(t, d), m.manager.At(t, d);
              && now.ticker == was.ticker && now.side == was.side && now.orderId == was.orderId
              && (now.state != Orders.Unused ==> was.state != Orders.Unused)
    {
      LandsUsed(s, l, m, t, d);
    }
  }

  lemma {:induction false} LandsUsed(s: Setup, l: Loop, m: Loop, t: nat, d: Side)
    requires s.Valid() && WellFormed(s, l) && LoopOk(s, l) && l.read < |l.sent| && ResponseRead(s, l, m)
    requires t < s.cfg.tickers
    ensures var was, now := l.manager.At(t, d), m.manager.At(t, d);
            && now.ticker == was.ticker && now.side == was.side && now.orderId == was.orderId
            && (now.state != Orders.Unused ==> was.state != Orders.Unused)
  {
    LandsSo(s, l, m);
    hide LoopOk, ResponseRead;
  }

  lemma {:induction false} ReadKeepsBacked(s: Setup, l: Loop, m: Loop, t: nat, d: Side)
    requires s.Valid() && WellFormed(s, l) && LoopOk(s, l) && l.read < |l.sent| && ResponseRead(s, l, m)
    requires Labelled(s, l) && Apart(s, l) && Backed(s, l)
    requires t < s.cfg.tickers && d != NoSide && Working(m.manager.At(t, d).state)
    ensures var slot := m.manager.At(t, d);
            var a := Known(s, m, t, slot.orderId);
            if slot.qty == 0 then a.Closed? else a.Open? && a.side == d && a.qty == slot.qty
  {
    LandsSo(s, l, m);
    var r, was, now := l.sent[l.read], l.manager.At(t, d), m.manager.At(t, d);
    assert r in l.sent;
    KnownStep(s, l, t, now.orderId);
    assert Known(s, m, t, now.orderId) == Known(s, l.(read := l.read + 1), t, now.orderId);
    if r.ticker == t {
      NextExpected(s, l);
      KnownAfter(s, l, t, was.orderId);
      if r.side != d && (r.kind == Accepted || r.kind == Filled || r.kind == Canceled) {
        OwnSlotOnly(s, l, t, d);
      }
    }
    hide LoopOk, ResponseRead;
  }

  /** The next response never contradicts what is known. */
  lemma {:induction false} KnownAfter(s: Setup, l: Loop, t: nat, id: nat)
    requires s.Valid() && WellFormed(s, l) && LoopOk(s, l) && l.read < |l.sent| && t < s.cfg.tickers
    ensures Known(s, l.(read := l.read + 1), t, id) != Fault
  {
    hide Accounted, Tracked, Awaited, Rising, AllWithin, EngineSound;
    KnownClean(s, l, l.read + 1, t, id);
  }

  /** A response that opens or moves an order is about the slot of its own side, not the other one. */
  lemma {:induction false} OwnSlotOnly(s: Setup, l: Loop, t: nat, d: Side)
    requires s.Valid() && WellFormed(s, l) && LoopOk(s, l) && l.read < |l.sent| && Labelled(s, l) && Apart(s, l)
    requires t < s.cfg.tickers && d != NoSide && l.sent[l.read].ticker == t && d != l.sent[l.read].side
    requires l.sent[l.read].kind == Accepted || l.sent[l.read].kind == Filled || l.sent[l.read].kind == Canceled
    requires l.manager.At(t, d).state != Orders.Unused
    ensures l.manager.At(t, d).orderId != l.sent[l.read].clientOrderId
  {
    hide Accounted, Tracked, Awaited, Rising, AllWithin, EngineSound;
    var r := l.sent[l.read];
    assert r in l.sent;
    LandsIds(s, l);
  }

  lemma {:induction false} LandsIds(s: Setup, l: Loop)
    requires s.Valid() && WellFormed(s, l) && LoopOk(s, l)
    requires l.read < |l.sent| && l.sent[l.read].ticker < s.cfg.tickers
    requires l.sent[l.read].kind == Accepted || l.sent[l.read].kind == Filled || l.sent[l.read].kind == Canceled
    ensures var r := l.sent[l.read];
            && r.side != NoSide && l.manager.At(r.ticker, r.side).state != Orders.Unused
            && l.manager.At(r.ticker, r.side).orderId == r.clientOrderId
  {
    hide Accounted, Tracked, Awaited, Rising, AllWithin, EngineSound;
    assert l.sent[l.read] in l.sent;
    LandsOn(s, l);
  }

  /** An ACCEPTED on its way is the next response, or still on its way after it. */
  lemma {:induction false} UnreadLater(l: Loop, m: Loop, t: nat, d: Side, id: nat)
    requires l.read < |l.sent| && m.sent == l.sent && m.read == l.read + 1
    ensures AcceptedUnread(l, t, d, id) <==> AcceptedUnread(m, t, d, id) || IsAccepted(l.sent[l.read], t, d, id)
  {
    if AcceptedUnread(l, t, d, id) {
      var j :| l.read <= j < |l.sent| && IsAccepted(l.sent[j], t, d, id);
      assert j > l.read ==> IsAccepted(m.sent[j], t, d, id);
    }
    if AcceptedUnread(m, t, d, id) {
      var j :| m.read <= j < |m.sent| && IsAccepted(m.sent[j], t, d, id);
      assert IsAccepted(l.sent[j], t, d, id);
    }
  }

  lemma {:induction false} RefusedStays(l: Loop, m: Loop, t: nat, d: Side, id: nat)
    requires m.sent == l.sent && WasRefused(l, t, d, id)
    ensures WasRefused(m, t, d, id)
  {
  }

  lemma {:induction false} ReadExplains(s: Setup, l: Loop, m: Loop, t: nat, d: Side)
    requires s.Valid() && WellFormed(s, l) && LoopOk(s, l) && l.read < |l.sent| && ResponseRead(s, l, m)
    requires Explained(s, l) && t < s.cfg.tickers && d != NoSide && m.manager.At(t, d).state == Orders.PendingNew
    ensures var id := m.manager.At(t, d).orderId;
            Queued(m, t, d, id) || AcceptedUnread(m, t, d, id) || WasRefused(m, t, d, id)
  {
    LandsSo(s, l, m);
    hide LoopOk, AcceptedUnread, WasRefused;
    var id := m.manager.At(t, d).orderId;
    UnreadLater(l, m, t, d, id);
    if WasRefused(l, t, d, id) { RefusedStays(l, m, t, d, id); }
    assert l.manager.At(t, d).state == Orders.PendingNew && l.manager.At(t, d).orderId == id;
  }

  lemma {:induction false} ReadWithdraws(s: Setup, l: Loop, m: Loop, t: nat, d: Side)
    requires s.Valid() && WellFormed(s, l) && LoopOk(s, l) && l.read < |l.sent| && ResponseRead(s, l, m)
    requires Withdrawing(s, l) && t < s.cfg.tickers && d != NoSide
    requires m.manager.At(t, d).state == Orders.PendingCancel
    ensures var id := m.manager.At(t, d).orderId;
            CancelQueued(m, t, id) || AccountOf(m.books[t].book, Owner(s.client, id)).Closed?
  {
    LandsSo(s, l, m);
    hide LoopOk, AccountOf;
    assert l.manager.At(t, d).state == Orders.PendingCancel;
  }

  lemma {:induction false} ReadKeeps(s: Setup, l: Loop, m: Loop)
    requires s.Valid() && WellFormed(s, l) && LoopOk(s, l) && l.read < |l.sent| && ResponseRead(s, l, m)
    requires SlotsOk(s, l)
    ensures SlotsOk(s, m)
  {
    ReadKeepsLabels(s, l, m);
    hide LoopOk, Labelled, Apart, ResponseRead, Known, Queued, AcceptedUnread, WasRefused, CancelQueued, AccountOf;
    forall t: nat, d: Side | t < s.cfg.tickers && d != NoSide && Working(m.manager.At(t, d).state)
      ensures var slot := m.manager.At(t, d);
              var a := Known(s, m, t, slot.orderId);
              if slot.qty == 0 then a.Closed? else a.Open? && a.side == d && a.qty == slot.qty
    {
      ReadKeepsBacked(s, l, m, t, d);
    }
    forall t: nat, d: Side | t < s.cfg.tickers && d != NoSide && m.manager.At(t, d).state == Orders.PendingNew
      ensures var id := m.manager.At(t, d).orderId;
              Queued(m, t, d, id) || AcceptedUnread(m, t, d, id) || WasRefused(m, t, d, id)
    {
      ReadExplains(s, l, m, t, d);
    }
    forall t: nat, d: Side | t < s.cfg.tickers && d != NoSide && m.manager.At(t, d).state == Orders.PendingCancel
      ensures var id := m.manager.At(t, d).orderId;
              CancelQueued(m, t, id) || AccountOf(m.books[t].book, Owner(s.client, id)).Closed?
    {
      ReadWithdraws(s, l, m, t, d);
    }
  }

  // ---------- every reachable state ----------

  lemma {:induction false} StartSlots(s: Setup)
    requires s.Valid()
    ensures SlotsOk(s, Start(s))
  {
    var l := Start(s);
    assert forall t: nat, d: Side | t < s.cfg.tickers :: l.manager.At(t, d) == Orders.FRESH_SLOT;
  }

  lemma {:induction false} BookMovesKeeps(s: Setup, l: Loop, m: Loop)
    requires s.Valid() && WellFormed(s, l) && WellFormed(s, m) && SlotsOk(s, l) && m == l.(holdings := m.holdings)
    ensures SlotsOk(s, m)
  {
    hide Replay, AccountOf;
    assert forall t: nat, c: nat :: Known(s, m, t, c) == Known(s, l, t, c);
    assert forall t: nat, d: Side | t < s.cfg.tickers :: m.manager.At(t, d) == l.manager.At(t, d);
  }

  lemma {:induction false} StepKeeps(s: Setup, l: Loop, e: Event)
    requires s.Valid() && WellFormed(s, l) && LoopOk(s, l) && SlotsOk(s, l) && FairEvent(e)
    ensures SlotsOk(s, Next(s, l, e))
  {
    hide SlotsOk, Process, Mine, Position.AfterFill, Position.AfterQuote, Orders.OnOrderUpdate, Orders.MoveOrders;
    match e
    case Strategy(ticker, bid, ask, clip) =>
      if ticker < s.cfg.tickers { StrategyKeeps(s, l, ticker, bid, ask, clip); }
    case EngineTakes =>
      if l.requests != [] {
        OwnSided(s, l);
        EngineKeeps(s, l, l.requests[0], Next(s, l, e));
      }
    case OtherClient(request) =>
      if request.client != s.client { EngineKeeps(s, l, request, Next(s, l, e)); }
    case ClientReads(quote) =>
      if l.read < |l.sent| { ReadStepKeeps(s, l, quote); }
    case BookMoves(ticker, quote) =>
      BookMovesKeeps(s, l, Next(s, l, e));
  }

  lemma {:induction false} ReadStepKeeps(s: Setup, l: Loop, quote: Position.Quote)
    requires s.Valid() && WellFormed(s, l) && LoopOk(s, l) && SlotsOk(s, l) && l.read < |l.sent|
    ensures SlotsOk(s, Next(s, l, ClientReads(quote)))
  {
    hide SlotsOk, LoopOk, Position.AfterFill, Position.AfterQuote, Orders.OnOrderUpdate;
    ReadKeeps(s, l, Next(s, l, ClientReads(quote)));
  }

  lemma {:induction false} ReachSlots(s: Setup, events: seq<Event>)
    requires s.Valid() && forall e | e in events :: FairEvent(e)
    ensures SlotsOk(s, Reach(s, events))
  {
    hide SlotsOk, LoopOk, Next, Start;
    if events == [] {
      StartSlots(s);
    } else {
      var init := events[..|events| - 1];
      ReachSlots(s, init);
      ReachOk(s, init);
      StepKeeps(s, Reach(s, init), events[|events| - 1]);
    }
  }

  // ---------- what it guarantees ----------

  /** Nothing is on its way in either direction. */
  predicate Quiet(l: Loop) {
    l.requests == [] && l.read == |l.sent|
  }

  /** Once nothing is on its way, each slot tells what is there: it is live with a quantity exactly
    * if an order of ours rests on that side, which then has the slot's id and quantity. It is
    * still being withdrawn only if it was for a quantity of 0, and still waits for ACCEPTED only
    * if the exchange refused it.
    */
  lemma {:induction false} Settled(s: Setup, events: seq<Event>, t: nat, d: Side)
    requires s.Valid() && (forall e | e in events :: FairEvent(e)) && t < s.cfg.tickers && d != NoSide
    requires Quiet(Reach(s, events))
    ensures var l := Reach(s, events);
            var slot, b := l.manager.At(t, d), l.books[t].book;
            && (slot.state == Orders.Live && slot.qty > 0 <==>
                  exists o :: b.Has(o) && o.owner.client == s.client && o.side == d)
            && (forall o | b.Has(o) && o.owner.client == s.client && o.side == d ::
                  o.owner.orderId == slot.orderId && o.qty == slot.qty)
            && (slot.state == Orders.PendingCancel ==> slot.qty == 0)
            && (slot.state == Orders.PendingNew ==> WasRefused(l, t, d, slot.orderId))
  {
    hide Reach, LoopOk, SlotsOk, WasRefused;
    ReachOk(s, events);
    ReachSlots(s, events);
    var l := Reach(s, events);
    var slot, b := l.manager.At(t, d), l.books[t].book;
    SettledSlot(s, l, t, d);
    if slot.state == Orders.Live && slot.qty > 0 {
      var o := OpenRests(b, Owner(s.client, slot.orderId), slot.qty, d);
    }
    forall o | b.Has(o) && o.owner.client == s.client && o.side == d
      ensures o.owner.orderId == slot.orderId && o.qty == slot.qty && slot.state == Orders.Live && slot.qty > 0
    {
      RestingIsSlotted(s, events, t, o);
      NothingUnread(s, l, t, o.owner.orderId);
      RestingWorks(s, l, t, o);
    }
  }

  lemma {:induction false} SettledSlot(s: Setup, l: Loop, t: nat, d: Side)
    requires s.Valid() && WellFormed(s, l) && LoopOk(s, l) && SlotsOk(s, l) && Quiet(l)
    requires t < s.cfg.tickers && d != NoSide
    ensures var slot := l.manager.At(t, d);
            var a := AccountOf(l.books[t].book, Owner(s.client, slot.orderId));
            && (slot.state == Orders.PendingNew ==> WasRefused(l, t, d, slot.orderId))
            && (slot.state == Orders.PendingCancel ==> slot.qty == 0)
            && (slot.state == Orders.Live && slot.qty > 0 ==> a.Open? && a.side == d && a.qty == slot.qty)
  {
    hide Tracked, Awaited, Rising, AllWithin, EngineSound, AccountOf, Replay, WasRefused;
    var slot := l.manager.At(t, d);
    assert l.sent[..l.read] == l.sent;
    assert Known(s, l, t, slot.orderId) == AccountOf(l.books[t].book, Owner(s.client, slot.orderId));
  }

  lemma {:induction false} OpenRests(b: Book, owner: Owner, qty: nat, d: Side) returns (o: Order)
    requires var a := AccountOf(b, owner); a.Open? && a.side == d && a.qty == qty
    ensures b.Has(o) && o.owner == owner && o.side == d && o.qty == qty
  {
    LookupHas(b, owner);
    o := Lookup(b, owner).value;
  }

  lemma {:induction false} NothingUnread(s: Setup, l: Loop, t: nat, id: nat)
    requires l.read == |l.sent|
    ensures Unread(s, l, |l.sent|, t, id) == 0
  {
    assert l.sent[l.read..|l.sent|] == [];
  }

  /** When all was heard, an order that rests is known to be open, so its slot is working. */
  lemma {:induction false} RestingWorks(s: Setup, l: Loop, t: nat, o: Order)
    requires s.Valid() && WellFormed(s, l) && LoopOk(s, l) && Quiet(l) && t < s.cfg.tickers
    requires l.books[t].book.Has(o) && o.owner.client == s.client
    ensures 0 < o.qty && o.side != NoSide && Working(l.manager.At(t, o.side).state)
  {
    hide Awaited, Rising, AllWithin, Replay;
    assert Sound(s.cfg, l.books[t]);
    var id := o.owner.orderId;
    assert l.sent[..l.read] == l.sent && o.owner == Owner(s.client, id);
    LookupIs(l.books[t].book, o.owner, Some(o));
    assert Known(s, l, t, id) == AccountOf(l.books[t].book, Owner(s.client, id));
    assert o.side == if o in l.books[t].book.bids then Buy else Sell;
  }

  // ---------- the slots that never come free ----------

  /** A working slot without quantity, or one whose NEW is gone and was not accepted. */
  ghost predicate Stuck(s: Setup, l: Loop, t: nat, d: Side)
    requires WellFormed(s, l) && t < s.cfg.tickers
  {
    var slot := l.manager.At(t, d);
    || (Working(slot.state) && slot.qty == 0)
    || (slot.state == Orders.PendingNew && !Queued(l, t, d, slot.orderId) && !AcceptedUnread(l, t, d, slot.orderId))
  }

  /** The slot is still stuck, over the same id. */
  ghost predicate StillStuck(s: Setup, l: Loop, t: nat, d: Side, m: Loop)
    requires WellFormed(s, l) && WellFormed(s, m) && t < s.cfg.tickers
  {
    Stuck(s, m, t, d) && m.manager.At(t, d).orderId == l.manager.At(t, d).orderId
  }

  /** A move queues no NEW of an id given out before. */
  lemma {:induction false} QueuedBeforeMove(s: Setup, l: Loop, m: Loop, t: nat, d: Side, u: nat, e: Side, price: nat,
                                            clip: nat, may: bool)
    requires s.Valid() && WellFormed(s, l) && t < s.cfg.tickers && u < s.cfg.tickers && SlotMoved(s, l, u, e, m)
    requires Orders.SideMoves(s.client, u, price, e, clip, may, l.manager.At(u, e), l.manager.nextId,
                              m.manager.At(u, e), m.manager.nextId, m.requests[|l.requests|..])
    requires l.manager.At(t, d).orderId < l.manager.nextId && Queued(m, t, d, l.manager.At(t, d).orderId)
    ensures Queued(l, t, d, l.manager.At(t, d).orderId)
  {
    var id, rs := l.manager.At(t, d).orderId, m.requests[|l.requests|..];
    var i :| 0 <= i < |m.requests| && IsNew(m.requests[i], t, d, id);
    if i < |l.requests| {
      assert IsNew(l.requests[i], t, d, id);
    } else {
      assert m.requests[i] == rs[i - |l.requests|];
    }
  }

  lemma {:induction false} MoveStaysStuck(s: Setup, l: Loop, m: Loop, t: nat, d: Side, u: nat, e: Side, price: nat,
                                          clip: nat, may: bool)
    requires s.Valid() && WellFormed(s, l) && t < s.cfg.tickers && d != NoSide && u < s.cfg.tickers && e != NoSide
    requires Labelled(s, l) && Stuck(s, l, t, d) && SlotMoved(s, l, u, e, m)
    requires Orders.SideMoves(s.client, u, price, e, clip, may, l.manager.At(u, e), l.manager.nextId,
                              m.manager.At(u, e), m.manager.nextId, m.requests[|l.requests|..])
    ensures StillStuck(s, l, t, d, m)
  {
    var was, now, rs := l.manager.At(t, d), m.manager.At(t, d), m.requests[|l.requests|..];
    assert (t != u || d != e) ==> now == was;
    assert was.state != Orders.Unused && was.orderId < l.manager.nextId;
    if Queued(m, t, d, was.orderId) {
      QueuedBeforeMove(s, l, m, t, d, u, e, price, clip, may);
    }
  }

  lemma {:induction false} MoveOneStaysStuck(s: Setup, l: Loop, t: nat, d: Side, u: nat, price: nat, e: Side, clip: nat,
                                             risk: Orders.RiskResult)
    requires s.Valid() && WellFormed(s, l) && t < s.cfg.tickers && d != NoSide && u < s.cfg.tickers && e != NoSide
    requires SlotsOk(s, l) && Stuck(s, l, t, d)
    ensures var out := Orders.MoveOne(s.client, l.manager, u, price, e, clip, risk);
            var m := l.(manager := out.book, requests := l.requests + out.requests);
            WellFormed(s, m) && SlotsOk(s, m) && StillStuck(s, l, t, d, m)
  {
    MoveOneKeeps(s, l, u, price, e, clip, risk);
    hide Apart, Backed, Explained, Withdrawing, Stuck, StillStuck, Orders.SideMoves, Orders.MoveOne;
    var out := Orders.MoveOne(s.client, l.manager, u, price, e, clip, risk);
    var m := l.(manager := out.book, requests := l.requests + out.requests);
    Orders.MoveMeans(s.client, l.manager, u, price, e, clip, risk);
    assert m.requests[|l.requests|..] == out.requests;
    NextIdRises(s.client, l.manager, u, price, e, clip, risk);
    MoveStaysStuck(s, l, m, t, d, u, e, price, clip, risk == Orders.Allowed);
  }

  lemma {:induction false} StrategyStaysStuck(s: Setup, l: Loop, t: nat, d: Side, u: nat, bid: nat, ask: nat, clip: nat)
    requires s.Valid() && WellFormed(s, l) && t < s.cfg.tickers && d != NoSide && u < s.cfg.tickers
    requires SlotsOk(s, l) && Stuck(s, l, t, d)
    ensures StillStuck(s, l, t, d, Next(s, l, Strategy(u, bid, ask, clip)))
  {
    hide SlotsOk, Orders.CheckPreTradeRisk, Orders.MoveOne, Stuck;
    var h := l.holdings[u];
    var risk := Orders.CheckPreTradeRisk(s.limits[u], h.position, h.totalPnl, Buy, clip);
    var first := Orders.MoveOne(s.client, l.manager, u, bid, Buy, clip, risk);
    var mid := l.(manager := first.book, requests := l.requests + first.requests);
    MoveOneStaysStuck(s, l, t, d, u, bid, Buy, clip, risk);
    var check := Orders.CheckPreTradeRisk(s.limits[u], h.position, h.totalPnl, Sell, clip);
    var second := Orders.MoveOne(s.client, mid.manager, u, ask, Sell, clip, check);
    MoveOneStaysStuck(s, mid, t, d, u, ask, Sell, clip, check);
    assert l.requests + (first.requests + second.requests) == mid.requests + second.requests;
  }

  lemma {:induction false} EngineStaysStuck(s: Setup, l: Loop, r: Request, m: Loop, t: nat, d: Side)
    requires s.Valid() && WellFormed(s, l) && WellFormed(s, m) && LoopOk(s, l) && EngineTook(s, l, r, m)
    requires t < s.cfg.tickers && d != NoSide && Stuck(s, l, t, d)
    ensures StillStuck(s, l, t, d, m)
  {
    hide Process, Mine, LoopOk, Queued, AcceptedUnread;
    var id := l.manager.At(t, d).orderId;
    if Queued(m, t, d, id) {
      QueuedBefore(s, l, r, m, t, d, id);
    }
    if AcceptedUnread(m, t, d, id) {
      UnreadBefore(s, l, r, m, t, d, id);
    }
  }

  /** The engine queues nothing. */
  lemma {:induction false} QueuedBefore(s: Setup, l: Loop, r: Request, m: Loop, t: nat, d: Side, id: nat)
    requires s.Valid() && WellFormed(s, l) && EngineTook(s, l, r, m) && Queued(m, t, d, id)
    ensures Queued(l, t, d, id)
  {
    hide Process, Mine;
    var i :| 0 <= i < |m.requests| && IsNew(m.requests[i], t, d, id);
    assert IsNew(l.requests[if m.requests == l.requests then i else i + 1], t, d, id);
  }

  /** An ACCEPTED on its way was so before, or answers a NEW that was queued. */
  lemma {:induction false} UnreadBefore(s: Setup, l: Loop, r: Request, m: Loop, t: nat, d: Side, id: nat)
    requires s.Valid() && WellFormed(s, l) && WellFormed(s, m) && EngineTook(s, l, r, m)
    requires AcceptedUnread(m, t, d, id)
    ensures Queued(l, t, d, id) || AcceptedUnread(l, t, d, id)
  {
    hide Process, Mine;
    var j :| m.read <= j < |m.sent| && IsAccepted(m.sent[j], t, d, id);
    if j < |l.sent| {
      assert IsAccepted(l.sent[j], t, d, id);
    } else {
      var mine := Mine(s.client, Process(s.cfg, l.books, r).effects.responses);
      NewAccepted(s, l, r);
      assert m.sent[j] == mine[j - |l.sent|] && mine[j - |l.sent|] in mine;
      assert IsNew(l.requests[0], t, d, id);
    }
  }

  lemma {:induction false} ReadStaysStuck(s: Setup, l: Loop, m: Loop, t: nat, d: Side)
    requires s.Valid() && WellFormed(s, l) && LoopOk(s, l) && l.read < |l.sent| && ResponseRead(s, l, m)
    requires Backed(s, l) && t < s.cfg.tickers && d != NoSide && Stuck(s, l, t, d)
    ensures StillStuck(s, l, t, d, m)
  {
    hide AcceptedUnread;
    LandsSo(s, l, m);
    var r, was := l.sent[l.read], l.manager.At(t, d);
    assert r in l.sent;
    UnreadLater(l, m, t, d, was.orderId);
    if r.ticker == t && r.side == d {
      NextExpected(s, l);
      if r.kind == Accepted || r.kind == Filled || r.kind == Canceled {
        LandsIds(s, l);
      }
    }
    hide LoopOk;
  }

  lemma {:induction false} StuckStays(s: Setup, l: Loop, e: Event, t: nat, d: Side)
    requires s.Valid() && WellFormed(s, l) && LoopOk(s, l) && SlotsOk(s, l) && FairEvent(e)
    requires t < s.cfg.tickers && d != NoSide && Stuck(s, l, t, d)
    ensures StillStuck(s, l, t, d, Next(s, l, e))
  {
    hide LoopOk, Process, Mine, Position.AfterFill, Position.AfterQuote, Orders.OnOrderUpdate, Orders.MoveOrders,
         Labelled, Apart, Backed, Explained, Withdrawing;
    match e
    case Strategy(ticker, bid, ask, clip) =>
      if ticker < s.cfg.tickers { StrategyStaysStuck(s, l, t, d, ticker, bid, ask, clip); }
    case EngineTakes =>
      if l.requests != [] { EngineStaysStuck(s, l, l.requests[0], Next(s, l, e), t, d); }
    case OtherClient(request) =>
      if request.client != s.client { EngineStaysStuck(s, l, request, Next(s, l, e), t, d); }
    case ClientReads(quote) =>
      if l.read < |l.sent| { ReadStaysStuck(s, l, Next(s, l, e), t, d); }
    case BookMoves(ticker, quote) =>
  }

  /** A slot once stuck is stuck for ever: whatever happens, no order of that side is sent again. */
  lemma {:induction false} StuckForEver(s: Setup, events: seq<Event>, more: seq<Event>, t: nat, d: Side)
    requires s.Valid() && (forall e | e in events + more :: FairEvent(e)) && t < s.cfg.tickers && d != NoSide
    requires Stuck(s, Reach(s, events), t, d)
    ensures StillStuck(s, Reach(s, events), t, d, Reach(s, events + more))
  {
    hide LoopOk, SlotsOk, Next, Stuck;
    if more == [] {
      assert events + more == events;
    } else {
      var init, all := more[..|more| - 1], events + more;
      assert all[..|all| - 1] == events + init && all[|all| - 1] == more[|more| - 1];
      assert forall e | e in events + init :: e in all;
      StuckForEver(s, events, init, t, d);
      ReachOk(s, events + init);
      ReachSlots(s, events + init);
      StuckStays(s, Reach(s, events + init), more[|more| - 1], t, d);
    }
  }

  /** The engine now takes this slot's NEW and refuses it. */
  ghost predicate Refuses(s: Setup, l: Loop, e: Event, t: nat, d: Side)
    requires s.Valid() && WellFormed(s, l) && t < s.cfg.tickers
  {
    var id := l.manager.At(t, d).orderId;
    && e.EngineTakes? && l.requests != [] && IsNew(l.requests[0], t, d, id)
    && R.Refusable(s.cfg, l.books[t].book, Owner(s.client, id), l.requests[0].price)
  }

  /** The client now reads the ACCEPTED of an order of this slot for nothing. */
  ghost predicate OpensNothing(s: Setup, l: Loop, e: Event, t: nat, d: Side)
    requires s.Valid() && WellFormed(s, l) && t < s.cfg.tickers
  {
    && e.ClientReads? && l.read < |l.sent| && l.sent[l.read].leavesQty == 0
    && IsAccepted(l.sent[l.read], t, d, l.sent[l.read].clientOrderId)
  }

  lemma {:induction false} MoveFreesNot(s: Setup, l: Loop, t: nat, d: Side, m: Loop, u: nat, e: Side, price: nat,
                                        clip: nat, may: bool)
    requires s.Valid() && WellFormed(s, l) && t < s.cfg.tickers && d != NoSide && u < s.cfg.tickers && e != NoSide
    requires Labelled(s, l) && !Stuck(s, l, t, d) && SlotMoved(s, l, u, e, m)
    requires Orders.SideMoves(s.client, u, price, e, clip, may, l.manager.At(u, e), l.manager.nextId,
                              m.manager.At(u, e), m.manager.nextId, m.requests[|l.requests|..])
    ensures !Stuck(s, m, t, d)
  {
    hide Orders.SideMoves, Queued, AcceptedUnread, CancelQueued;
    SideMoved(s, l, u, e, m, price, clip, may);
    MovedKnown(s, l, u, e, m);
    assert (t != u || d != e) ==> m.manager.At(t, d) == l.manager.At(t, d);
  }

  lemma {:induction false} MoveOneFreesNot(s: Setup, l: Loop, t: nat, d: Side, u: nat, price: nat, e: Side, clip: nat,
                                           risk: Orders.RiskResult)
    requires s.Valid() && WellFormed(s, l) && t < s.cfg.tickers && d != NoSide && u < s.cfg.tickers && e != NoSide
    requires SlotsOk(s, l) && !Stuck(s, l, t, d)
    ensures var out := Orders.MoveOne(s.client, l.manager, u, price, e, clip, risk);
            var m := l.(manager := out.book, requests := l.requests + out.requests);
            WellFormed(s, m) && SlotsOk(s, m) && !Stuck(s, m, t, d)
  {
    MoveOneKeeps(s, l, u, price, e, clip, risk);
    hide Apart, Backed, Explained, Withdrawing, Stuck, Orders.SideMoves, Orders.MoveOne;
    var out := Orders.MoveOne(s.client, l.manager, u, price, e, clip, risk);
    var m := l.(manager := out.book, requests := l.requests + out.requests);
    Orders.MoveMeans(s.client, l.manager, u, price, e, clip, risk);
    assert m.requests[|l.requests|..] == out.requests;
    NextIdRises(s.client, l.manager, u, price, e, clip, risk);
    MoveFreesNot(s, l, t, d, m, u, e, price, clip, risk == Orders.Allowed);
  }

  lemma {:induction false} StrategyFreesNot(s: Setup, l: Loop, t: nat, d: Side, u: nat, bid: nat, ask: nat, clip: nat)
    requires s.Valid() && WellFormed(s, l) && t < s.cfg.tickers && d != NoSide && u < s.cfg.tickers
    requires SlotsOk(s, l) && !Stuck(s, l, t, d)
    ensures !Stuck(s, Next(s, l, Strategy(u, bid, ask, clip)), t, d)
  {
    hide SlotsOk, Orders.CheckPreTradeRisk, Orders.MoveOne, Stuck;
    var h := l.holdings[u];
    var risk := Orders.CheckPreTradeRisk(s.limits[u], h.position, h.totalPnl, Buy, clip);
    var first := Orders.MoveOne(s.client, l.manager, u, bid, Buy, clip, risk);
    var mid := l.(manager := first.book, requests := l.requests + first.requests);
    MoveOneFreesNot(s, l, t, d, u, bid, Buy, clip, risk);
    var check := Orders.CheckPreTradeRisk(s.limits[u], h.position, h.totalPnl, Sell, clip);
    var second := Orders.MoveOne(s.client, mid.manager, u, ask, Sell, clip, check);
    MoveOneFreesNot(s, mid, t, d, u, ask, Sell, clip, check);
    assert l.requests + (first.requests + second.requests) == mid.requests + second.requests;
  }

  /** The one answer to a NEW of this client: a refusal exactly if it is refusable. */
  lemma {:induction false} NewAnswer(s: Setup, l: Loop, r: Request) returns (p: Response)
    requires s.Valid() && WellFormed(s, l) && EngineSound(s.cfg, l.books)
    requires r.kind == NewRequest && r.side != NoSide && r.ticker < s.cfg.tickers && r.client == s.client
    ensures var mine := Mine(s.client, Process(s.cfg, l.books, r).effects.responses);
            var refusable := R.Refusable(s.cfg, l.books[r.ticker].book, Owner(r.client, r.orderId), r.price);
            && p in mine && (refusable ==> forall q | q in mine :: q.kind != Accepted)
            && (!refusable ==> IsAccepted(p, r.ticker, r.side, r.orderId))
  {
    hide Process, EngineSound, R.Refusable, R.Rests, R.Allocates, GreedyReports, TotalQty;
    R.ProcessDispatches(s.cfg, l.books, r);
    var rs := Process(s.cfg, l.books, r).effects.responses;
    MineHas(s.client, rs);
    p := rs[0];
  }

  /** When the engine takes the slot's own NEW, the slot is stuck exactly if it refuses it. */
  lemma {:induction false} TakenOrStuck(s: Setup, l: Loop, m: Loop, t: nat, d: Side)
    requires s.Valid() && WellFormed(s, l) && WellFormed(s, m) && LoopOk(s, l) && t < s.cfg.tickers && d != NoSide
    requires l.requests != [] && EngineTook(s, l, l.requests[0], m)
    requires IsNew(l.requests[0], t, d, l.manager.At(t, d).orderId)
    ensures Stuck(s, m, t, d) <==> Refuses(s, l, EngineTakes, t, d)
  {
    hide Process, Mine, Accounted, Tracked, AllWithin, R.Refusable;
    var id, r := l.manager.At(t, d).orderId, l.requests[0];
    assert Awaits(s, l, t, d, id, r.qty);
    var p := NewAnswer(s, l, r);
    NotQueuedTwice(s, l, m, t, d);
    if Refuses(s, l, EngineTakes, t, d) {
      NotAcceptedNow(s, l, m, t, d);
    } else {
      Answered(s, l, m, p, t, d, id);
      AcceptedIs(s, l, m, p, t, d, id);
    }
  }

  lemma {:induction false} AcceptedIs(s: Setup, l: Loop, m: Loop, p: Response, t: nat, d: Side, id: nat)
    requires WellFormed(s, l) && m.read == l.read && l.sent <= m.sent && p in m.sent[|l.sent|..]
    requires IsAccepted(p, t, d, id)
    ensures AcceptedUnread(m, t, d, id)
  {
    var k :| 0 <= k < |m.sent[|l.sent|..]| && m.sent[|l.sent|..][k] == p;
    assert m.sent[|l.sent| + k] == p;
  }

  lemma {:induction false} NotQueuedTwice(s: Setup, l: Loop, m: Loop, t: nat, d: Side)
    requires s.Valid() && WellFormed(s, l) && Rising(s, l) && t < s.cfg.tickers
    requires l.requests != [] && m.requests == l.requests[1..]
    requires IsNew(l.requests[0], t, d, l.manager.At(t, d).orderId)
    ensures !Queued(m, t, d, l.manager.At(t, d).orderId)
  {
    forall i | 0 <= i < |m.requests| ensures !IsNew(m.requests[i], t, d, l.manager.At(t, d).orderId) {
      assert m.requests[i] == l.requests[i + 1];
    }
  }

  lemma {:induction false} NotAcceptedNow(s: Setup, l: Loop, m: Loop, t: nat, d: Side)
    requires s.Valid() && WellFormed(s, l) && WellFormed(s, m) && Rising(s, l) && t < s.cfg.tickers
    requires l.requests != [] && EngineTook(s, l, l.requests[0], m)
    requires IsNew(l.requests[0], t, d, l.manager.At(t, d).orderId)
    requires forall q | q in Mine(s.client, Process(s.cfg, l.books, l.requests[0]).effects.responses) ::
               q.kind != Accepted
    ensures !AcceptedUnread(m, t, d, l.manager.At(t, d).orderId)
  {
    hide Process, Mine;
    var mine := Mine(s.client, Process(s.cfg, l.books, l.requests[0]).effects.responses);
    forall j | m.read <= j < |m.sent| ensures !IsAccepted(m.sent[j], t, d, l.manager.At(t, d).orderId) {
      if j >= |l.sent| {
        assert m.sent[j] == mine[j - |l.sent|] && mine[j - |l.sent|] in mine;
      } else {
        assert m.sent[j] == l.sent[j];
      }
    }
  }

  lemma {:induction false} EngineFreesNot(s: Setup, l: Loop, r: Request, m: Loop, t: nat, d: Side)
    requires s.Valid() && WellFormed(s, l) && WellFormed(s, m) && LoopOk(s, l) && EngineTook(s, l, r, m)
    requires t < s.cfg.tickers && d != NoSide && !Stuck(s, l, t, d)
    requires m.requests == l.requests || !IsNew(l.requests[0], t, d, l.manager.At(t, d).orderId)
    ensures !Stuck(s, m, t, d)
  {
    hide Process, Mine, LoopOk;
    var id := l.manager.At(t, d).orderId;
    if Queued(l, t, d, id) {
      var i :| 0 <= i < |l.requests| && IsNew(l.requests[i], t, d, id);
      assert IsNew(m.requests[if m.requests == l.requests then i else i - 1], t, d, id);
    } else if AcceptedUnread(l, t, d, id) {
      var j :| l.read <= j < |l.sent| && IsAccepted(l.sent[j], t, d, id);
      assert IsAccepted(m.sent[j], t, d, id);
    }
  }

  lemma {:induction false} ReadFreesNot(s: Setup, l: Loop, m: Loop, e: Event, t: nat, d: Side)
    requires s.Valid() && WellFormed(s, l) && LoopOk(s, l) && l.read < |l.sent| && ResponseRead(s, l, m)
    requires e.ClientReads? && t < s.cfg.tickers && d != NoSide && !Stuck(s, l, t, d)
    ensures Stuck(s, m, t, d) <==> OpensNothing(s, l, e, t, d)
  {
    LandsSo(s, l, m);
    hide LoopOk, AcceptedUnread;
    UnreadLater(l, m, t, d, l.manager.At(t, d).orderId);
  }

  /** A slot becomes stuck exactly when the engine refuses its NEW, or accepts one of quantity 0:
    * never, as long as the strategy quotes with a clip and the exchange refuses nothing.
    */
  lemma {:induction false} StuckExactly(s: Setup, events: seq<Event>, e: Event, t: nat, d: Side)
    requires s.Valid() && (forall x | x in events :: FairEvent(x)) && FairEvent(e) && t < s.cfg.tickers && d != NoSide
    requires !Stuck(s, Reach(s, events), t, d)
    ensures var l := Reach(s, events);
            Stuck(s, Next(s, l, e), t, d) <==> Refuses(s, l, e, t, d) || OpensNothing(s, l, e, t, d)
  {
    ReachOk(s, events);
    ReachSlots(s, events);
    StepStuckExactly(s, Reach(s, events), e, t, d);
  }

  lemma {:induction false} StepStuckExactly(s: Setup, l: Loop, e: Event, t: nat, d: Side)
    requires s.Valid() && WellFormed(s, l) && LoopOk(s, l) && SlotsOk(s, l) && FairEvent(e)
    requires t < s.cfg.tickers && d != NoSide && !Stuck(s, l, t, d)
    ensures Stuck(s, Next(s, l, e), t, d) <==> Refuses(s, l, e, t, d) || OpensNothing(s, l, e, t, d)
  {
    hide LoopOk, SlotsOk, Process, Mine, Position.AfterFill, Position.AfterQuote, Orders.OnOrderUpdate,
         Orders.MoveOrders, R.Refusable;
    match e
    case Strategy(ticker, bid, ask, clip) =>
      if ticker < s.cfg.tickers { StrategyFreesNot(s, l, t, d, ticker, bid, ask, clip); }
    case EngineTakes =>
      if l.requests != [] && IsNew(l.requests[0], t, d, l.manager.At(t, d).orderId) {
        TakenOrStuck(s, l, Next(s, l, e), t, d);
      } else if l.requests != [] {
        EngineFreesNot(s, l, l.requests[0], Next(s, l, e), t, d);
      }
    case OtherClient(request) =>
      if request.client != s.client { EngineFreesNot(s, l, request, Next(s, l, e), t, d); }
    case ClientReads(quote) =>
      if l.read < |l.sent| { ReadFreesNot(s, l, Next(s, l, e), e, t, d); }
    case BookMoves(ticker, quote) =>
  }

  /** So once nothing is on its way a slot is free, or stands for a resting order, or is stuck. */
  lemma {:induction false} FreeRestingOrStuck(s: Setup, events: seq<Event>, t: nat, d: Side)
    requires s.Valid() && (forall e | e in events :: FairEvent(e)) && t < s.cfg.tickers && d != NoSide
    requires Quiet(Reach(s, events))
    ensures var l := Reach(s, events);
            var slot := l.manager.At(t, d);
            var rests := exists o :: l.books[t].book.Has(o) && o.owner.client == s.client && o.side == d;
            && (rests || slot.state == Orders.Unused || slot.state == Orders.Dead || Stuck(s, l, t, d))
            && (rests ==> slot.state == Orders.Live && !Stuck(s, l, t, d))
  {
    hide Reach;
    Settled(s, events, t, d);
  }

  // ---------- nothing stays on its way ----------

  function Repeated(e: Event, k: nat): seq<Event> {
    seq(k, _ => e)
  }

  lemma {:induction false} ReachAppend(s: Setup, before: seq<Event>, e: Event)
    requires s.Valid()
    ensures Reach(s, before + [e]) == Next(s, Reach(s, before), e)
  {
    assert (before + [e])[..|before|] == before;
  }

  /** The engine works its queue off. */
  lemma {:induction false} TakesAll(s: Setup, events: seq<Event>, k: nat)
    requires s.Valid() && k <= |Reach(s, events).requests|
    ensures var l, m := Reach(s, events), Reach(s, events + Repeated(EngineTakes, k));
            m.requests == l.requests[k..] && l.sent <= m.sent && m.read == l.read
  {
    hide Reach, Process, Mine;
    if k == 0 {
      assert events + Repeated(EngineTakes, 0) == events;
    } else {
      TakesAll(s, events, k - 1);
      var most := events + Repeated(EngineTakes, k - 1);
      assert events + Repeated(EngineTakes, k) == most + [EngineTakes];
      ReachAppend(s, most, EngineTakes);
      var l := Reach(s, events);
      assert l.requests[k - 1..][1..] == l.requests[k..];
    }
  }

  /** The client reads what there is. */
  lemma {:induction false} ReadsAll(s: Setup, events: seq<Event>, quote: Position.Quote, k: nat)
    requires s.Valid()
    requires var l := Reach(s, events); l.read + k <= |l.sent|
    ensures var l, m := Reach(s, events), Reach(s, events + Repeated(ClientReads(quote), k));
            m.requests == l.requests && m.sent == l.sent && m.read == l.read + k
  {
    hide Reach, Position.AfterFill, Position.AfterQuote, Orders.OnOrderUpdate;
    if k == 0 {
      assert events + Repeated(ClientReads(quote), 0) == events;
    } else {
      ReadsAll(s, events, quote, k - 1);
      var most := events + Repeated(ClientReads(quote), k - 1);
      assert events + Repeated(ClientReads(quote), k) == most + [ClientReads(quote)];
      ReachAppend(s, most, ClientReads(quote));
    }
  }

  /** From every reachable state the engine and then the client, each working off what waits for it,
    * bring the loop to rest.
    */
  lemma {:induction false} ComesToRest(s: Setup, events: seq<Event>, quote: Position.Quote)
    requires s.Valid()
    ensures var l := Reach(s, events);
            var taken := Reach(s, events + Repeated(EngineTakes, |l.requests|));
            taken.read <= |taken.sent|
            && Quiet(Reach(s, events + Repeated(EngineTakes, |l.requests|)
                              + Repeated(ClientReads(quote), |taken.sent| - taken.read)))
  {
    hide Reach;
    var l := Reach(s, events);
    var most := events + Repeated(EngineTakes, |l.requests|);
    TakesAll(s, events, |l.requests|);
    ReadsAll(s, most, quote, |Reach(s, most).sent| - Reach(s, most).read);
  }
}
