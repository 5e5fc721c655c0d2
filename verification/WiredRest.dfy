/** The wired loop comes to rest: from every reachable state, the pieces moved, the requests taken,
  * the responses answered and read, nothing is on its way any more, and what the strategy
  * believes of its orders is what rests at the exchange.
  */
module WiredRest {
  import opened Types
  import opened PriceTime
  import opened Exchange
  import opened Sequencers
  import opened OrderEntry
  import opened Downlink
  import opened WiredLoop
  import C = ClosedLoop
  import L = SlotLife
  import Orders
  import Position
  import R = ResponseWire
  import S = Session
  import W = Wire

  function Repeated(e: Event, k: nat): seq<Event> {
    seq(k, _ => e)
  }

  lemma {:induction false} ReachAppend(x: Wiring, before: seq<Event>, e: Event)
    requires x.Valid()
    ensures Reach(x, before + [e]) == Next(x, Reach(x, before), e)
  {
    hide Next;
    assert (before + [e])[..|before|] == before;
  }

  // ---------- up to the engine ----------

  /** The gateway's bytes are flushed and read in one poll. */
  function Up(x: Wiring, w: World): seq<Event>
    requires x.me < |w.session.gateways|
  {
    var g := w.session.gateways[x.me];
    [Network(S.Flush(x.me, |g.sendBuf|)), Network(S.Poll([S.Read(x.me, |g.pipe| + |g.sendBuf|, 0)]))]
  }

  /** The requests are with the engine's queue, everything else is as it was. */
  ghost predicate Carried(x: Wiring, w: World, v: World)
    requires WellFormed(x, w) && WellFormed(x, v)
  {
    && v.session.gateways[x.me].sendBuf == [] && v.session.gateways[x.me].pipe == []
    && v.session.gateways[x.me].sent == w.session.gateways[x.me].sent
  }

  lemma {:induction false} FlushesAll(w: S.World, i: nat)
    requires OrderEntry.Sized(w.server) && i < |w.gateways|
    ensures var g, v := w.gateways[i], S.Next(w, S.Flush(i, |w.gateways[i].sendBuf|));
            && |v.gateways| == |w.gateways| && v.gateways[i].sendBuf == [] && v.gateways[i].sent == g.sent
            && |v.gateways[i].pipe| == |g.pipe| + |g.sendBuf|
  {
  }

  lemma {:induction false} CarriesUp(x: Wiring, events: seq<Event>)
    requires x.Valid()
    ensures var w := Reach(x, events); Carried(x, w, Reach(x, events + Up(x, w)))
  {
    hide Reach, S.Next, S.OwnIds;
    var w := Reach(x, events);
    var flush, poll := Up(x, w)[0], Up(x, w)[1];
    assert events + [flush] + [poll] == events + Up(x, w);
    ReachAppend(x, events, flush);
    ReachAppend(x, events + [flush], poll);
    FlushesAll(w.session, x.me);
    S.PollReads(Reach(x, events + [flush]).session, x.me, 0);
  }

  /** The engine takes all that was published. */
  lemma {:induction false} TakesAll(x: Wiring, events: seq<Event>, k: nat)
    requires x.Valid()
    requires var w := Reach(x, events); w.taken + k <= |w.session.published|
    ensures var w, v := Reach(x, events), Reach(x, events + Repeated(EngineTakes, k));
            v.session == w.session && v.taken == w.taken + k
  {
    hide Reach, Process, C.Mine, S.OwnIds;
    if k == 0 {
      assert events + Repeated(EngineTakes, 0) == events;
    } else {
      TakesAll(x, events, k - 1);
      var most := events + Repeated(EngineTakes, k - 1);
      assert events + Repeated(EngineTakes, k) == most + [EngineTakes];
      ReachAppend(x, most, EngineTakes);
    }
  }

  /** Once the gateway's bytes were read and the engine took everything, no request is on its way. */
  lemma {:induction false} NothingInFlight(x: Wiring, w: World)
    requires x.Valid() && WellFormed(x, w) && WiredOk(x, w) && w.taken == |w.session.published|
    requires var g := w.session.gateways[x.me]; g.sendBuf == [] && g.pipe == []
    ensures InFlight(x, w) == []
  {
    hide W.Frames, S.Numbered, S.OwnIds, OfClient, W.EncodeAll, W.Fits, W.Leftover, LinkOk;
    TakenWithin(x, w);
    var g, p := w.session.gateways[x.me], w.session.published;
    assert S.PipeOk(g) && S.TakenOk(w.session, x.me) && g.client == x.ids[x.me];
    assert g.arrived + g.pipe + g.sendBuf == g.arrived;
    W.FramesOfPrefix(S.Numbered(g.sent), g.arrived);
    assert p[..w.taken] == p && p + Requests([]) == p;
    assert g.past + g.sent[..|g.sent|] == g.sent;
  }

  // ---------- down to the strategy ----------

  /** The server numbers and sends what the engine said, provided it fits its frames. */
  lemma {:induction false} AnswersAll(x: Wiring, events: seq<Event>, k: nat)
    requires x.Valid() && (forall e | e in events :: FairEvent(e))
    requires var w := Reach(x, events);
             && w.answered + k <= |w.sent|
             && forall j | w.answered <= j < w.answered + k :: R.Fits(R.Frame(j + 1, w.sent[j]))
    ensures var w, v := Reach(x, events), Reach(x, events + Repeated(ServerAnswers, k));
            && v.sent == w.sent && v.answered == w.answered + k && v.taken == w.taken && v.read == w.read
            && v.session.published == w.session.published && v.session.gateways == w.session.gateways
  {
    hide Reach, R.Fits, S.OwnIds, WiredOk, Next;
    if k == 0 {
      assert events + Repeated(ServerAnswers, 0) == events;
    } else {
      AnswersAll(x, events, k - 1);
      var most := events + Repeated(ServerAnswers, k - 1);
      assert events + Repeated(ServerAnswers, k) == most + [ServerAnswers];
      AnswersNext(x, most);
    }
  }

  lemma {:induction false} AnswersNext(x: Wiring, events: seq<Event>)
    requires x.Valid() && (forall e | e in events :: FairEvent(e))
    requires var w := Reach(x, events);
             w.answered < |w.sent| && R.Fits(R.Frame(w.answered + 1, w.sent[w.answered]))
    ensures var w, v := Reach(x, events), Reach(x, events + [ServerAnswers]);
            && v.sent == w.sent && v.answered == w.answered + 1 && v.taken == w.taken && v.read == w.read
            && v.session.published == w.session.published && v.session.gateways == w.session.gateways
  {
    hide Reach, R.Fits, S.OwnIds, WiredOk, Next, FairEvent;
    ReachAppend(x, events, ServerAnswers);
    var run := Simulates(x, events);
    AnswersOne(x, Reach(x, events));
  }

  lemma {:induction false} AnswersOne(x: Wiring, w: World)
    requires x.Valid() && WellFormed(x, w) && WiredOk(x, w) && w.answered < |w.sent|
    requires R.Fits(R.Frame(w.answered + 1, w.sent[w.answered]))
    ensures var v := Next(x, w, ServerAnswers);
            && v.sent == w.sent && v.answered == w.answered + 1 && v.taken == w.taken && v.read == w.read
            && v.session.published == w.session.published && v.session.gateways == w.session.gateways
  {
    hide SessionOk, LinkOk, Silent, OfClient, R.Fits, S.OwnIds, Sent;
    AnswerRouted(x, w, w.sent[w.answered]);
  }

  /** The connection's bytes are flushed and read. */
  lemma {:induction false} CarriesDown(x: Wiring, events: seq<Event>)
    requires x.Valid()
    ensures var w := Reach(x, events);
            var k := |w.link.sendBuf|;
            var v := Reach(x, events + [FlushDown(k), ReadDown(|w.link.pipe| + k)]);
            && v.sent == w.sent && v.answered == w.answered && v.taken == w.taken && v.read == w.read
            && v.session == w.session && v.link.sendBuf == [] && v.link.pipe == []
  {
    hide Reach, HearAll, R.Frames, R.Leftover, S.OwnIds;
    var w := Reach(x, events);
    var flush, read := FlushDown(|w.link.sendBuf|), ReadDown(|w.link.pipe| + |w.link.sendBuf|);
    assert events + [flush] + [read] == events + [flush, read];
    ReachAppend(x, events, flush);
    ReachAppend(x, events + [flush], read);
  }

  /** The strategy handles what its gateway passed on. */
  lemma {:induction false} ReadsAll(x: Wiring, events: seq<Event>, quote: Position.Quote, k: nat)
    requires x.Valid()
    requires var w := Reach(x, events); w.read + k <= |w.link.ear.heard|
    ensures var w, v := Reach(x, events), Reach(x, events + Repeated(ClientReads(quote), k));
            && v.sent == w.sent && v.session == w.session && v.taken == w.taken && v.read == w.read + k
            && v.link == w.link
  {
    hide Reach, S.OwnIds, Next;
    if k == 0 {
      assert events + Repeated(ClientReads(quote), 0) == events;
    } else {
      ReadsAll(x, events, quote, k - 1);
      var most := events + Repeated(ClientReads(quote), k - 1);
      assert events + Repeated(ClientReads(quote), k) == most + [ClientReads(quote)];
      ReachAppend(x, most, ClientReads(quote));
      ReadsOne(x, Reach(x, most), quote);
    }
  }

  lemma {:induction false} ReadsOne(x: Wiring, w: World, quote: Position.Quote)
    requires x.Valid() && WellFormed(x, w) && w.read < |w.link.ear.heard|
    ensures var v := Next(x, w, ClientReads(quote));
            && v.sent == w.sent && v.session == w.session && v.taken == w.taken && v.read == w.read + 1
            && v.link == w.link
  {
    hide C.HandleResponse, S.OwnIds;
  }

  // ---------- at rest ----------

  lemma {:induction false} Bounds(x: Wiring, events: seq<Event>)
    requires x.Valid() && forall e | e in events :: FairEvent(e)
    ensures var w := Reach(x, events);
            && WiredOk(x, w)
            && w.taken <= |w.session.published| && w.answered <= |w.sent| && w.read <= |w.link.ear.heard| <= |w.sent|
  {
    hide Reach, Next, SessionOk, LinkOk, Silent, S.OwnIds;
    var run := Simulates(x, events);
    HeardIsSent(x, Reach(x, events));
  }

  /** The requests carried up, the engine has taken all of them. */
  function TakenUp(x: Wiring, events: seq<Event>): seq<Event>
    requires x.Valid()
  {
    var up := events + Up(x, Reach(x, events));
    var w := Reach(x, up);
    up + Repeated(EngineTakes, if w.taken <= |w.session.published| then |w.session.published| - w.taken else 0)
  }

  /** Everything the engine has said to the client fits its frames. */
  ghost predicate AnswersFit(x: Wiring, w: World) {
    forall j | w.answered <= j < |w.sent| :: R.Fits(R.Frame(j + 1, w.sent[j]))
  }

  lemma {:induction false} TakenIsFair(x: Wiring, events: seq<Event>)
    requires x.Valid() && forall e | e in events :: FairEvent(e)
    ensures events <= TakenUp(x, events) && forall e | e in TakenUp(x, events) :: FairEvent(e)
  {
    hide Reach, S.OwnIds;
    var up := Up(x, Reach(x, events));
    assert forall e | e in up :: FairEvent(e);
  }

  lemma {:induction false} EngineRests(x: Wiring, events: seq<Event>)
    requires x.Valid() && forall e | e in events :: FairEvent(e)
    ensures var w := Reach(x, TakenUp(x, events));
            && w.taken == |w.session.published|
            && w.session.gateways[x.me].sendBuf == [] && w.session.gateways[x.me].pipe == []
  {
    hide Reach, WiredOk, S.OwnIds, Up;
    var up := events + Up(x, Reach(x, events));
    UpIsFair(x, events);
    Bounds(x, up);
    CarriesUp(x, events);
    TakesAll(x, up, |Reach(x, up).session.published| - Reach(x, up).taken);
  }

  lemma {:induction false} UpIsFair(x: Wiring, events: seq<Event>)
    requires x.Valid() && forall e | e in events :: FairEvent(e)
    ensures forall e | e in events + Up(x, Reach(x, events)) :: FairEvent(e)
  {
    hide Reach, S.OwnIds;
  }

  /** From every reachable state: the bytes carried, the requests taken, the responses answered,
    * carried and handled, nothing of this client is on its way. Only a response that does not
    * fit its frame would stop it.
    */
  lemma {:induction false} ComesToRest(x: Wiring, events: seq<Event>, quote: Position.Quote) returns (more: seq<Event>)
    requires x.Valid() && (forall e | e in events :: FairEvent(e)) && AnswersFit(x, Reach(x, TakenUp(x, events)))
    ensures events <= more && forall e | e in more :: FairEvent(e)
    ensures var w := Reach(x, more); WellFormed(x, w) && w.read <= |w.sent| && L.Quiet(LoopOf(x, w))
  {
    hide Reach, WiredOk, S.OwnIds, TakenUp, R.Fits, InFlight;
    var one := TakenUp(x, events);
    TakenIsFair(x, events);
    EngineRests(x, events);
    Bounds(x, one);
    var w := Reach(x, one);
    var two := one + Repeated(ServerAnswers, |w.sent| - w.answered);
    AnswersAll(x, one, |w.sent| - w.answered);
    var v := Reach(x, two);
    var k := |v.link.sendBuf|;
    var three := two + [FlushDown(k), ReadDown(|v.link.pipe| + k)];
    CarriesDown(x, two);
    Bounds(x, three);
    HeardInOrder(x, three);
    var u := Reach(x, three);
    more := three + Repeated(ClientReads(quote), |u.link.ear.heard| - u.read);
    ReadsAll(x, three, quote, |u.link.ear.heard| - u.read);
    Bounds(x, more);
    NothingInFlight(x, Reach(x, more));
  }

  /** At rest, what the strategy believes is what is there, over the wire as over plain queues. */
  lemma {:induction false} Settled(x: Wiring, events: seq<Event>, t: nat, d: Side)
    requires x.Valid() && (forall e | e in events :: FairEvent(e)) && t < x.setup.cfg.tickers && d != NoSide
    requires L.Quiet(LoopOf(x, Reach(x, events)))
    ensures var w := Reach(x, events);
            var slot, b := w.manager.At(t, d), w.books[t].book;
            && (slot.state == Orders.Live && slot.qty > 0 <==>
                  exists o :: b.Has(o) && o.owner.client == x.setup.client && o.side == d)
            && (forall o | b.Has(o) && o.owner.client == x.setup.client && o.side == d ::
                  o.owner.orderId == slot.orderId && o.qty == slot.qty)
            && (slot.state == Orders.PendingCancel ==> slot.qty == 0)
            && (slot.state == Orders.PendingNew ==> exists r :: r in w.sent && L.IsRefusal(r, t, d, slot.orderId))
  {
    hide WiredOk, Reach, C.Reach, S.OwnIds, FairEvent, C.FairEvent, InFlight;
    var run := Simulates(x, events);
    L.Settled(x.setup, run, t, d);
  }

  // ---------- the strategy's own turns ----------

  /** The requests the strategy wants to send. */
  function Wanted(x: Wiring, w: World, ticker: nat, bid: nat, ask: nat, clip: nat): seq<Request>
    requires x.setup.Valid() && WellFormed(x, w) && ticker < x.setup.cfg.tickers
  {
    var s := x.setup;
    Orders.MoveOrders(s.client, w.manager, s.limits[ticker], w.holdings[ticker], ticker, bid, ask, clip).requests
  }

  /** Over the wire, the strategy's turns are the loop's: moving its orders, as long as the requests
    * fit their frames, handling the next response its gateway passed on, and marking a position.
    */
  lemma {:induction false} StrategyActs(x: Wiring, w: World, ticker: nat, bid: nat, ask: nat, clip: nat)
    requires x.Valid() && WellFormed(x, w) && WiredOk(x, w) && ticker < x.setup.cfg.tickers
    requires AllFit(w.session.gateways[x.me].nextSeq, Wanted(x, w, ticker, bid, ask, clip))
    ensures w.read <= |w.sent|
    ensures LoopOf(x, Next(x, w, Strategy(ticker, bid, ask, clip)))
         == C.Next(x.setup, LoopOf(x, w), C.Strategy(ticker, bid, ask, clip))
  {
    hide SessionOk, LinkOk, Silent, AllFit, SendAll, OfClient, Orders.MoveOrders, S.OwnIds;
    HeardIsSent(x, w);
    var s := x.setup;
    var v := Next(x, w, Strategy(ticker, bid, ask, clip));
    var qs := Wanted(x, w, ticker, bid, ask, clip);
    MovesAreOwn(s.client, w.manager, s.limits[ticker], w.holdings[ticker], ticker, bid, ask, clip);
    SendAllOk(x, w.session, qs);
    TakenWithin(x, w);
    var given, t := w.session.gateways[x.me].sent, WiredLoop.Taken(x, w);
    assert WiredLoop.Taken(x, v) == t && (given + qs)[t..] == given[t..] + qs;
  }

  lemma {:induction false} ClientActs(x: Wiring, w: World, quote: Position.Quote)
    requires x.Valid() && WellFormed(x, w) && WiredOk(x, w) && w.read < |w.link.ear.heard|
    ensures w.read <= |w.sent|
    ensures LoopOf(x, Next(x, w, ClientReads(quote))) == C.Next(x.setup, LoopOf(x, w), C.ClientReads(quote))
  {
    hide SessionOk, LinkOk, Silent, OfClient, S.OwnIds, Position.AfterFill, Position.AfterQuote, Orders.OnOrderUpdate;
    HeardIsSent(x, w);
    assert w.link.ear.heard[w.read] == w.sent[w.read];
  }

  lemma {:induction false} BooksAct(x: Wiring, w: World, ticker: nat, quote: Position.Quote)
    requires x.Valid() && WellFormed(x, w) && WiredOk(x, w)
    ensures w.read <= |w.sent|
    ensures LoopOf(x, Next(x, w, BookMoves(ticker, quote))) == C.Next(x.setup, LoopOf(x, w), C.BookMoves(ticker, quote))
  {
    hide SessionOk, LinkOk, Silent, OfClient, S.OwnIds, Position.AfterQuote;
    HeardIsSent(x, w);
  }
}
