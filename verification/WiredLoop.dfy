/** The closed trading loop over the real order-entry path: between the order manager and
  * the matching engine lie the gateway, byte pipes in both directions, the order server
  * and its sequencer, shared with other clients. Every run of it is a run of the loop with
  * plain queues, so what is proved there holds here.
  */
module WiredLoop {
  import opened Types
  import opened PriceTime
  import opened Exchange
  import opened Soundness
  import opened Sequencers
  import opened OrderEntry
  import opened Downlink
  import C = ClosedLoop
  import Position
  import Orders
  import R = ResponseWire
  import S = Session
  import W = Wire

  /** This client's loop, the gateways that share the server, and which of them is its own. */
  datatype Wiring = Wiring(setup: C.Setup, clients: nat, ids: seq<nat>, me: nat) {
    ghost predicate Valid() {
      && setup.Valid() && S.OwnIds(clients, ids)
      && me < |ids| && ids[me] == setup.client
    }
  }

  /** The engine has taken `taken` of the requests the server published; `sent` is every
    * response it has addressed to this client, of which the server has taken `answered`
    * and the trade engine has handled `read`.
    */
  datatype World = World(manager: Orders.Book, holdings: seq<Position.Holding>, books: seq<XBook>,
                         session: S.World, taken: nat, sent: seq<Response>, answered: nat, link: Link, read: nat)

  datatype Event =
    | Strategy(ticker: nat, bid: nat, ask: nat, clip: nat)
    | Network(event: S.Event)
    | EngineTakes
    | ServerAnswers
    | FlushDown(size: nat)
    | ReadDown(size: nat)
    | ClientReads(quote: Position.Quote)
    | BookMoves(ticker: nat, quote: Position.Quote)

  predicate WellFormed(x: Wiring, w: World) {
    && w.manager.Sized(x.setup.cfg.tickers) && |w.holdings| == |w.books| == x.setup.cfg.tickers
    && OrderEntry.Sized(w.session.server) && |w.session.gateways| == |x.ids| && x.me < |x.ids|
  }

  function Start(x: Wiring): World {
    var l := C.Start(x.setup);
    World(l.manager, l.holdings, l.books, S.Start(x.clients, x.ids), 0, [], 0, Link([], [], [], [], Ear(1, [])), 0)
  }

  /** The gateway is given the strategy's requests, one after the other. */
  function SendAll(w: S.World, i: nat, qs: seq<Request>): (r: S.World)
    requires OrderEntry.Sized(w.server)
    ensures OrderEntry.Sized(r.server) && |r.gateways| == |w.gateways|
    decreases |qs|
  {
    if qs == [] then w else SendAll(S.Next(w, S.Send(i, qs[0])), i, qs[1..])
  }

  /** Numbers and fields fit the frames they will travel in. */
  predicate AllFit(n: nat, qs: seq<Request>) {
    forall j | 0 <= j < |qs| :: W.Fits(W.Frame(n + j, qs[j]))
  }

  /** The rest of the network may do anything but act for this client or cut its connection. */
  predicate Foreign(x: Wiring, e: S.Event) {
    match e
    case Send(i, _) => i != x.me
    case Renew(i) => i != x.me
    case Flush(_, _) => true
    case Poll(_) => true
  }

  /** The loop this world stands for: everything of this client's requests that the engine has
    * not taken, wherever it is, is in one queue.
    */
  function LoopOf(x: Wiring, w: World): C.Loop
    requires x.me < |w.session.gateways|
  {
    C.Loop(w.manager, w.holdings, InFlight(x, w), w.books, w.sent, w.read)
  }

  function InFlight(x: Wiring, w: World): seq<Request>
    requires x.me < |w.session.gateways|
  {
    var given, n := w.session.gateways[x.me].sent, Taken(x, w);
    if n <= |given| then given[n..] else []
  }

  /** How many of this client's requests the engine has taken. */
  function Taken(x: Wiring, w: World): nat {
    if w.taken <= |w.session.published| then |OfClient(w.session.published[..w.taken], x.setup.client)| else 0
  }

  function Next(x: Wiring, w: World, e: Event): (r: World)
    requires x.setup.Valid() && WellFormed(x, w)
    ensures WellFormed(x, r)
  {
    var s := x.setup;
    match e
    case Strategy(ticker, bid, ask, clip) =>
      if ticker >= s.cfg.tickers then w
      else
        var out := Orders.MoveOrders(s.client, w.manager, s.limits[ticker], w.holdings[ticker], ticker, bid, ask, clip);
        if !AllFit(w.session.gateways[x.me].nextSeq, out.requests) then w
        else w.(manager := out.book, session := SendAll(w.session, x.me, out.requests))
    case Network(event) =>
      if !Foreign(x, event) then w else w.(session := S.Next(w.session, event))
    case EngineTakes =>
      if w.taken >= |w.session.published| then w
      else
        var out := Process(s.cfg, w.books, w.session.published[w.taken]);
        w.(taken := w.taken + 1, books := out.books, sent := w.sent + C.Mine(s.client, out.effects.responses))
    case ServerAnswers =>
      if w.answered >= |w.sent| then w
      else Answer(x, w, w.sent[w.answered])
    case FlushDown(size) =>
      if size > |w.link.sendBuf| then w else w.(link := Flushed(w.link, size))
    case ReadDown(size) =>
      if size > |w.link.pipe| then w else w.(link := Read(s.client, w.link, size))
    case ClientReads(quote) =>
      if w.read >= |w.link.ear.heard| then w
      else
        var r := w.link.ear.heard[w.read];
        if r.ticker >= s.cfg.tickers then w.(read := w.read + 1)
        else
          var l := C.HandleResponse(LoopOf(x, w), r, quote);
          w.(manager := l.manager, holdings := l.holdings, read := w.read + 1)
    case BookMoves(ticker, quote) =>
      if ticker >= s.cfg.tickers then w
      else w.(holdings := w.holdings[ticker := Position.AfterQuote(w.holdings[ticker], quote)])
  }

  /** The server's turn for one response: routed to its client's socket under the next number,
    * or dropped if the client has none.
    */
  function Answer(x: Wiring, w: World, r: Response): (v: World)
    requires WellFormed(x, w)
    ensures WellFormed(x, v)
  {
    var server := w.session.server;
    if !Routed(server, r) then w.(answered := w.answered + 1)
    else if !R.Fits(R.Frame(server.nextOut[r.client], r)) then w
    else w.(answered := w.answered + 1, session := w.session.(server := Answered(server, r)),
            link := Sent(w.link, server.nextOut[r.client], r))
  }

  function Reach(x: Wiring, events: seq<Event>): (w: World)
    requires x.Valid()
    ensures WellFormed(x, w)
  {
    if events == [] then Start(x)
    else Next(x, Reach(x, events[..|events| - 1]), events[|events| - 1])
  }

  /** Requests of other gateways are sided, too. */
  predicate FairEvent(e: Event) {
    e.Network? && e.event.Send? ==> Sided(e.event.request)
  }

  // ---------- the invariant ----------

  /** Nothing is published or pending that no gateway sent. */
  ghost predicate FromGateways(w: S.World, ids: seq<nat>) {
    && (forall q | q in w.published :: q.client in ids)
    && (forall e | e in w.server.pending :: e.request.client in ids)
  }

  ghost predicate AllSided(w: S.World) {
    forall j, q | 0 <= j < |w.gateways| && (q in w.gateways[j].sent || q in w.gateways[j].past) :: Sided(q)
  }

  /** Until the engine takes a request of the client, it has nothing to tell it. */
  ghost predicate Silent(client: nat, sent: seq<Response>, books: seq<XBook>) {
    sent == [] && forall i, o | 0 <= i < |books| && books[i].book.Has(o) :: o.owner.client != client
  }

  ghost predicate SessionOk(x: Wiring, w: S.World) {
    && S.Ok(w, x.clients, x.ids) && w.server.pending == []
    && FromGateways(w, x.ids) && AllSided(w)
    && x.me < |w.gateways| && w.gateways[x.me].past == []
  }

  ghost predicate WiredOk(x: Wiring, w: World)
    requires x.Valid() && WellFormed(x, w)
  {
    && SessionOk(x, w.session) && EngineSound(x.setup.cfg, w.books)
    && w.taken <= |w.session.published| && w.answered <= |w.sent| && w.read <= |w.link.ear.heard|
    && (forall r | r in w.sent :: r.client == x.setup.client)
    && LinkOk(x.setup.client, w.link, w.sent[..w.answered])
    && x.setup.client < |w.session.server.nextOut|
    && w.session.server.nextOut[x.setup.client] == w.answered + 1
    && (Taken(x, w) == 0 ==> Silent(x.setup.client, w.sent, w.books))
  }

  // ---------- the network ----------

  lemma {:induction false} OfClientHas(rs: seq<Request>, c: nat, q: Request)
    ensures q in OfClient(rs, c) <==> q in rs && q.client == c
  {
    if rs != [] {
      var init, last := rs[..|rs| - 1], rs[|rs| - 1];
      OfClientHas(init, c, q);
      assert rs == init + [last];
    }
  }

  /** What the engine is handed is sided. */
  lemma {:induction false} PublishedSided(x: Wiring, w: S.World, q: Request)
    requires x.Valid() && SessionOk(x, w) && q in w.published
    ensures Sided(q)
  {
    hide OfClient, W.Frames, S.Numbered, S.PipeOk;
    var j :| 0 <= j < |x.ids| && x.ids[j] == q.client;
    assert S.TakenOk(w, j);
    assert w.published + Requests([]) == w.published;
    OfClientHas(w.published, q.client, q);
    var g := w.gateways[j];
    assert q in g.past || q in g.sent;
  }

  /** A read moves bytes and fills the buffer, no more. */
  ghost predicate SameGiven(w: S.World, v: S.World) {
    && |v.gateways| == |w.gateways| && v.server.nextOut == w.server.nextOut
    && (forall j | 0 <= j < |w.gateways| ::
          v.gateways[j].sent == w.gateways[j].sent && v.gateways[j].past == w.gateways[j].past)
  }

  lemma {:induction false} ReadOneFrom(u: S.World, clients: nat, ids: seq<nat>, d: S.Read)
    requires OrderEntry.Sized(u.server) && S.Ok(u, clients, ids) && FromGateways(u, ids)
    ensures FromGateways(S.ReadOne(u, d), ids) && SameGiven(u, S.ReadOne(u, d))
  {
    hide S.TakenOk, S.PipeOk, AdmitAll, W.Frames, W.Leftover;
    var v := S.ReadOne(u, d);
    if d.socket < |u.gateways| && d.size <= |u.gateways[d.socket].pipe| {
      S.ReadDoes(u, clients, ids, d);
      var g := u.gateways[d.socket];
      var fs, n := W.Frames(g.rcvBuf + g.pipe[..d.size]), |u.server.pending|;
      assert g.client == ids[d.socket];
      forall k | 0 <= k < |v.server.pending| ensures v.server.pending[k].request.client in ids {
        if k < n {
          assert v.server.pending[k] == v.server.pending[..n][k] && u.server.pending[k] in u.server.pending;
        } else {
          assert v.server.pending[n + (k - n)] == Entry(d.time, fs[k - n].request, n + (k - n));
        }
      }
    }
  }

  lemma {:induction false} ReadAllFrom(w: S.World, clients: nat, ids: seq<nat>, batch: seq<S.Read>)
    requires OrderEntry.Sized(w.server) && S.Ok(w, clients, ids) && S.OwnIds(clients, ids) && w.server.pending == []
    requires S.OnceEach(batch) && FromGateways(w, ids)
    ensures FromGateways(S.ReadAll(w, batch), ids) && SameGiven(w, S.ReadAll(w, batch))
  {
    hide S.Ok, S.OwnIds, S.ReadOne, FromGateways;
    if batch != [] {
      var init, d := batch[..|batch| - 1], batch[|batch| - 1];
      S.ReadAllOk(w, clients, ids, init);
      ReadAllFrom(w, clients, ids, init);
      ReadOneFrom(S.ReadAll(w, init), clients, ids, d);
    }
  }

  lemma {:induction false} PublishFrom(u: S.World, ids: seq<nat>)
    requires FromGateways(u, ids) && Stamped(u.server.pending)
    ensures FromGateways(S.Publish(u), ids)
  {
    hide Sequenced;
    var p := u.server.pending;
    SequencedIsSort(p);
    forall q | q in S.Publish(u).published ensures q.client in ids {
      if q !in u.published {
        var k :| 0 <= k < |Sequenced(p)| && Requests(Sequenced(p))[k] == q;
        assert Sequenced(p)[k] in multiset(Sequenced(p));
        assert Sequenced(p)[k] in p;
      }
    }
  }

  /** What any event outside this client's reach leaves as it was. */
  ghost predicate Undisturbed(x: Wiring, w: S.World, v: S.World) {
    && x.me < |w.gateways| == |v.gateways|
    && v.gateways[x.me].sent == w.gateways[x.me].sent && w.published <= v.published
    && x.setup.client < |w.server.nextOut| == |v.server.nextOut|
    && v.server.nextOut[x.setup.client] == w.server.nextOut[x.setup.client]
  }

  lemma {:induction false} PollOk(x: Wiring, w: S.World, batch: seq<S.Read>)
    requires x.Valid() && OrderEntry.Sized(w.server) && SessionOk(x, w)
    ensures var v := S.Next(w, S.Poll(batch)); SessionOk(x, v) && Undisturbed(x, w, v)
  {
    hide S.TakenOk, S.PipeOk, S.OwnIds, S.ReadAll, Sequenced;
    assert S.TakenOk(w, x.me) && w.gateways[x.me].client == x.ids[x.me];
    ClientKnown(x, w);
    S.PollOk(w, x.clients, x.ids, batch);
    if S.OnceEach(batch) {
      S.ReadAllOk(w, x.clients, x.ids, batch);
      ReadAllFrom(w, x.clients, x.ids, batch);
      PublishFrom(S.ReadAll(w, batch), x.ids);
    }
  }

  lemma {:induction false} ClientKnown(x: Wiring, w: S.World)
    requires x.Valid() && SessionOk(x, w)
    ensures x.setup.client < |w.server.nextOut| == |w.server.socketOf| == |w.server.nextSeq|
  {
  }

  lemma {:induction false} ForeignSendOk(x: Wiring, w: S.World, i: nat, q: Request)
    requires x.Valid() && OrderEntry.Sized(w.server) && SessionOk(x, w) && i != x.me && Sided(q)
    ensures var v := S.Next(w, S.Send(i, q)); SessionOk(x, v) && Undisturbed(x, w, v)
  {
    hide S.TakenOk, S.PipeOk, S.OwnIds, W.Fits, W.Encode;
    ClientKnown(x, w);
    S.SendOk(w, x.clients, x.ids, i, q);
    var v := S.Next(w, S.Send(i, q));
    forall j, p | 0 <= j < |v.gateways| && (p in v.gateways[j].sent || p in v.gateways[j].past) ensures Sided(p) {
      assert p in w.gateways[j].sent || p in w.gateways[j].past || p == q;
    }
  }

  lemma {:induction false} RenewOk(x: Wiring, w: S.World, i: nat)
    requires x.Valid() && OrderEntry.Sized(w.server) && SessionOk(x, w) && i != x.me
    ensures var v := S.Next(w, S.Renew(i)); SessionOk(x, v) && Undisturbed(x, w, v)
  {
    hide S.PipeOk, S.OwnIds, W.Frames, OfClient, S.Numbered;
    ClientKnown(x, w);
    S.RenewOk(w, x.clients, x.ids, i);
    var v := S.Next(w, S.Renew(i));
    assert S.TakenOk(w, x.me) && w.gateways[x.me].client == x.setup.client;
    if i < |w.gateways| {
      forall j, p | 0 <= j < |v.gateways| && (p in v.gateways[j].sent || p in v.gateways[j].past) ensures Sided(p) {
        if j == i {
          OfClientHas(w.published, w.gateways[i].client, p);
          PublishedSided(x, w, p);
        }
      }
    }
  }

  lemma {:induction false} NetworkOk(x: Wiring, w: S.World, e: S.Event)
    requires x.Valid() && OrderEntry.Sized(w.server) && SessionOk(x, w) && Foreign(x, e)
    requires e.Send? ==> Sided(e.request)
    ensures SessionOk(x, S.Next(w, e)) && Undisturbed(x, w, S.Next(w, e))
  {
    match e
    case Send(i, q) =>
      hide *;
      ForeignSendOk(x, w, i, q);
    case Flush(i, k) =>
      FlushUpOk(x, w, i, k);
    case Poll(batch) =>
      PollOk(x, w, batch);
    case Renew(i) =>
      RenewOk(x, w, i);
  }

  lemma {:induction false} FlushUpOk(x: Wiring, w: S.World, i: nat, k: nat)
    requires x.Valid() && OrderEntry.Sized(w.server) && SessionOk(x, w)
    ensures var v := S.Next(w, S.Flush(i, k)); SessionOk(x, v) && Undisturbed(x, w, v)
  {
    hide S.TakenOk, S.PipeOk, S.OwnIds;
    ClientKnown(x, w);
    S.FlushOk(w, x.clients, x.ids, i, k);
    var v := S.Next(w, S.Flush(i, k));
    assert forall j | 0 <= j < |w.gateways| ::
        v.gateways[j].sent == w.gateways[j].sent && v.gateways[j].past == w.gateways[j].past;
  }

  // ---------- the strategy's requests ----------

  /** Requests of this client as the strategy makes them. */
  predicate Own(client: nat, qs: seq<Request>) {
    forall q | q in qs :: q.client == client && q.kind != OtherRequest && Sided(q)
  }

  lemma {:induction false} MovesAreOwn(client: nat, b: Orders.Book, limits: Orders.Limits, h: Position.Holding,
          ticker: nat, bid: nat, ask: nat, clip: nat)
    requires ticker < |b.slots| && |b.slots[ticker]| == Orders.SIDES
    ensures Own(client, Orders.MoveOrders(client, b, limits, h, ticker, bid, ask, clip).requests)
  {
    hide Orders.CheckPreTradeRisk;
  }

  /** The gateway takes all of them, and nothing else changes. */
  lemma {:induction false} SendAllOk(x: Wiring, w: S.World, qs: seq<Request>)
    requires x.Valid() && OrderEntry.Sized(w.server) && SessionOk(x, w)
    requires x.me < |w.gateways| && Own(x.setup.client, qs) && AllFit(w.gateways[x.me].nextSeq, qs)
    ensures var v := SendAll(w, x.me, qs);
            && SessionOk(x, v) && v.server == w.server && v.published == w.published
            && v.gateways[x.me].sent == w.gateways[x.me].sent + qs
    decreases |qs|
  {
    hide SessionOk, W.Fits, S.Next;
    if qs == [] {
      assert w.gateways[x.me].sent + qs == w.gateways[x.me].sent;
    } else {
      assert qs[0] in qs && W.Fits(W.Frame(w.gateways[x.me].nextSeq + 0, qs[0]));
      var u := S.Next(w, S.Send(x.me, qs[0]));
      OwnSendOk(x, w, qs[0]);
      forall j | 0 <= j < |qs[1..]| ensures W.Fits(W.Frame(u.gateways[x.me].nextSeq + j, qs[1..][j])) {
        assert W.Fits(W.Frame(w.gateways[x.me].nextSeq + (j + 1), qs[j + 1]));
      }
      SendAllOk(x, u, qs[1..]);
      assert w.gateways[x.me].sent + [qs[0]] + qs[1..] == w.gateways[x.me].sent + qs;
    }
  }

  lemma {:induction false} OwnSendOk(x: Wiring, w: S.World, q: Request)
    requires x.Valid() && OrderEntry.Sized(w.server) && SessionOk(x, w)
    requires q.client == x.setup.client && q.kind != OtherRequest && Sided(q)
    requires x.me < |w.gateways| && W.Fits(W.Frame(w.gateways[x.me].nextSeq, q))
    ensures var v := S.Next(w, S.Send(x.me, q));
            && SessionOk(x, v) && v.server == w.server && v.published == w.published
            && v.gateways[x.me].sent == w.gateways[x.me].sent + [q]
            && v.gateways[x.me].nextSeq == w.gateways[x.me].nextSeq + 1
  {
    hide S.TakenOk, S.PipeOk, S.OwnIds, W.Fits, W.Encode;
    S.SendOk(w, x.clients, x.ids, x.me, q);
    var v := S.Next(w, S.Send(x.me, q));
    assert w.gateways[x.me].client == x.ids[x.me];
    forall j, p | 0 <= j < |v.gateways| && (p in v.gateways[j].sent || p in v.gateways[j].past) ensures Sided(p) {
      assert p in w.gateways[j].sent || p in w.gateways[j].past || p == q;
    }
  }

  // ---------- the engine's turn ----------

  /** A sweep reports to the taker and to makers. */
  lemma {:induction false} SweepTells(t: Taker, opp: seq<Order>, leaves: nat, client: nat)
    requires t.owner.client != client && forall o | o in opp :: o.owner.client != client
    ensures var s := Sweep(t, opp, leaves);
            && (forall r | r in s.effects.responses :: r.client != client)
            && (forall o | o in s.rest :: o.owner.client != client)
    decreases leaves + |opp|
  {
    if !(leaves == 0 || opp == [] || !Crosses(t.side, t.price, opp[0].price)) {
      assert opp[0] in opp && forall o | o in opp[1..] :: o in opp;
      SweepTells(t, AfterMatch(opp, leaves), leaves - Min(leaves, opp[0].qty), client);
    }
  }

  lemma {:induction false} MineNone(client: nat, rs: seq<Response>)
    requires forall r | r in rs :: r.client != client
    ensures C.Mine(client, rs) == []
  {
    if rs != [] {
      MineNone(client, rs[..|rs| - 1]);
    }
  }

  /** Nobody else's NEW brings up a client that has no order resting. */
  lemma {:induction false} AddStaysQuiet(cfg: Config, x: XBook, ticker: nat, owner: Owner, side: Side, price: nat,
          qty: nat, client: nat)
    requires cfg.Valid() && owner.client != client && side != NoSide
    requires forall o | x.book.Has(o) :: o.owner.client != client
    ensures var out := AddOrder(cfg, x, ticker, owner, side, price, qty);
            && (forall r | r in out.effects.responses :: r.client != client)
            && (forall o | out.x.book.Has(o) :: o.owner.client != client)
  {
    hide Admits, Sweep, Insert, NextPriority;
    var t := Taker(ticker, owner, x.nextId, side, price);
    var opp := x.book.On(Opposite(side));
    assert forall o | o in opp :: x.book.Has(o);
    SweepTells(t, opp, qty, client);
    var s := Sweep(t, opp, qty);
    var swept := x.book.With(Opposite(side), s.rest);
    forall o | o in Insert(swept.On(side), Remainder(t, swept, s.leaves)) ensures o.owner.client != client {
      InsertHas(swept.On(side), Remainder(t, swept, s.leaves), o);
    }
  }

  lemma {:induction false} CancelStaysQuiet(x: XBook, ticker: nat, owner: Owner, client: nat)
    requires owner.client != client && forall o | x.book.Has(o) :: o.owner.client != client
    ensures var out := CancelOrder(x, ticker, owner);
            && (forall r | r in out.effects.responses :: r.client != client)
            && (forall o | out.x.book.Has(o) :: o.owner.client != client)
  {
    hide Lookup, Remove;
    if Lookup(x.book, owner).Some? {
      var o := Lookup(x.book, owner).value;
      forall p | p in Remove(x.book.On(o.side), o.id) ensures x.book.Has(p) {
        RemoveHas(x.book.On(o.side), o.id, p);
      }
    }
  }

  lemma {:induction false} OthersStayQuiet(cfg: Config, books: seq<XBook>, q: Request, client: nat)
    requires cfg.Valid() && |books| == cfg.tickers && q.client != client && Sided(q) && Silent(client, [], books)
    ensures var out := Process(cfg, books, q);
            C.Mine(client, out.effects.responses) == [] && Silent(client, [], out.books)
  {
    hide AddOrder, CancelOrder;
    var out := Process(cfg, books, q);
    if q.ticker < cfg.tickers && q.kind != OtherRequest {
      var x, owner := books[q.ticker], Owner(q.client, q.orderId);
      if q.kind == NewRequest {
        AddStaysQuiet(cfg, x, q.ticker, owner, q.side, q.price, q.qty, client);
      } else {
        CancelStaysQuiet(x, q.ticker, owner, client);
      }
    }
    MineNone(client, out.effects.responses);
  }

  /** What the engine took of this client is the first part of what its gateway was given. */
  lemma {:induction false} TakenWithin(x: Wiring, w: World)
    requires x.Valid() && SessionOk(x, w.session) && w.taken <= |w.session.published|
    ensures var g := w.session.gateways[x.me];
            && Taken(x, w) <= |g.sent|
            && OfClient(w.session.published[..w.taken], x.setup.client) == g.sent[..Taken(x, w)]
            && (0 < Taken(x, w) ==> W.Frames(g.arrived) != [])
  {
    hide W.Frames, S.Numbered, S.PipeOk, S.OwnIds, OfClient;
    var p, c, g := w.session.published, x.setup.client, w.session.gateways[x.me];
    assert S.TakenOk(w.session, x.me) && g.client == x.ids[x.me];
    assert p + Requests([]) == p && p[..w.taken] + p[w.taken..] == p;
    OfClientConcat(p[..w.taken], p[w.taken..], c);
    assert g.past + g.sent[..|W.Frames(g.arrived)|] == g.sent[..|W.Frames(g.arrived)|];
  }

  /** The next request the engine takes, if it is this client's, is the next it was given. */
  lemma {:induction false} TakesNext(x: Wiring, w: World, v: World)
    requires x.Valid() && SessionOk(x, w.session) && w.taken < |w.session.published|
    requires v.session == w.session && v.taken == w.taken + 1
    ensures var q, t, given := w.session.published[w.taken], Taken(x, w), w.session.gateways[x.me].sent;
            if q.client == x.setup.client then t < |given| && q == given[t] && Taken(x, v) == t + 1
            else Taken(x, v) == t
  {
    hide SessionOk, OfClient;
    var p, c := w.session.published, x.setup.client;
    TakenWithin(x, w);
    TakenWithin(x, v);
    assert p[..w.taken + 1] == p[..w.taken] + [p[w.taken]];
    OfClientConcat(p[..w.taken], [p[w.taken]], c);
    OneOfClient(p[w.taken], c);
  }

  lemma {:induction false} OneOfClient(q: Request, c: nat)
    ensures OfClient([q], c) == if q.client == c then [q] else []
  {
    assert [q][..0] == [];
  }

  // ---------- every event is an event of the loop, or none ----------

  /** `e` of the loop does what happened, or nothing the loop sees happened. */
  ghost predicate Mirrored(x: Wiring, w: World, v: World, e: Option<C.Event>)
    requires x.Valid() && WellFormed(x, w) && WellFormed(x, v) && w.read <= |w.sent| && v.read <= |v.sent|
  {
    match e
    case None => LoopOf(x, v) == LoopOf(x, w)
    case Some(l) => C.FairEvent(l) && LoopOf(x, v) == C.Next(x.setup, LoopOf(x, w), l)
  }

  lemma {:induction false} HeardIsSent(x: Wiring, w: World)
    requires x.Valid() && WellFormed(x, w) && WiredOk(x, w)
    ensures |w.link.ear.heard| <= w.answered && w.link.ear.heard == w.sent[..|w.link.ear.heard|]
    ensures w.read <= |w.sent|
  {
    hide SessionOk, EngineSound, R.Frames, R.EncodeAll, R.Leftover, R.Fits, Silent, Taken;
    var n := |R.Frames(w.link.arrived)|;
    assert w.sent[..w.answered][..n] == w.sent[..n];
  }

  lemma {:induction false} StrategyOk(x: Wiring, w: World, ticker: nat, bid: nat, ask: nat, clip: nat)
    returns (e: Option<C.Event>)
    requires x.Valid() && WellFormed(x, w) && WiredOk(x, w)
    ensures var v := Next(x, w, Strategy(ticker, bid, ask, clip));
            WiredOk(x, v) && w.read <= |w.sent| && v.read <= |v.sent| && Mirrored(x, w, v, e)
  {
    hide SessionOk, EngineSound, LinkOk, Silent, AllFit, SendAll, OfClient, Orders.MoveOrders, S.OwnIds;
    HeardIsSent(x, w);
    var v := Next(x, w, Strategy(ticker, bid, ask, clip));
    e := None;
    if v != w {
      var s := x.setup;
      var limits, h := s.limits[ticker], w.holdings[ticker];
      var qs := Orders.MoveOrders(s.client, w.manager, limits, h, ticker, bid, ask, clip).requests;
      MovesAreOwn(s.client, w.manager, s.limits[ticker], w.holdings[ticker], ticker, bid, ask, clip);
      SendAllOk(x, w.session, qs);
      TakenWithin(x, w);
      var given, t := w.session.gateways[x.me].sent, Taken(x, w);
      assert Taken(x, v) == t && (given + qs)[t..] == given[t..] + qs;
      e := Some(C.Strategy(ticker, bid, ask, clip));
    }
  }

  lemma {:induction false} NetworkMirrored(x: Wiring, w: World, event: S.Event) returns (e: Option<C.Event>)
    requires x.Valid() && WellFormed(x, w) && WiredOk(x, w) && FairEvent(Network(event))
    ensures var v := Next(x, w, Network(event));
            WiredOk(x, v) && w.read <= |w.sent| && v.read <= |v.sent| && Mirrored(x, w, v, e)
  {
    hide SessionOk, EngineSound, LinkOk, Silent, OfClient, S.Next, S.OwnIds;
    HeardIsSent(x, w);
    e := None;
    if Foreign(x, event) {
      NetworkOk(x, w.session, event);
      var v := Next(x, w, Network(event));
      assert v.session.published[..w.taken] == w.session.published[..w.taken];
    }
  }

  lemma {:induction false} EngineKeeps(x: Wiring, w: World)
    requires x.Valid() && WellFormed(x, w) && WiredOk(x, w) && w.taken < |w.session.published|
    ensures WiredOk(x, Next(x, w, EngineTakes))
  {
    hide SessionOk, EngineSound, LinkOk, Silent, OfClient, Process, C.Mine, Taken, S.OwnIds;
    var v, q, c := Next(x, w, EngineTakes), w.session.published[w.taken], x.setup.client;
    PublishedSided(x, w.session, q);
    ProcessKeepsSound(x.setup.cfg, w.books, q);
    C.MineHas(c, Process(x.setup.cfg, w.books, q).effects.responses);
    TakesNext(x, w, v);
    assert v.sent[..w.answered] == w.sent[..w.answered];
    if q.client != c {
      QuietGoesOn(x, w, v, q);
    }
  }

  /** What the engine takes of this client is the head of the loop's queue. */
  lemma {:induction false} HeadTaken(x: Wiring, w: World)
    requires x.Valid() && WellFormed(x, w) && WiredOk(x, w) && w.taken < |w.session.published|
    ensures var q, v := w.session.published[w.taken], Next(x, w, EngineTakes);
            Sided(q) && InFlight(x, w) == if q.client == x.setup.client then [q] + InFlight(x, v) else InFlight(x, v)
  {
    hide SessionOk, EngineSound, LinkOk, Silent, OfClient, Process, C.Mine, Taken, S.OwnIds;
    PublishedSided(x, w.session, w.session.published[w.taken]);
    TakesNext(x, w, Next(x, w, EngineTakes));
    TakenWithin(x, w);
  }

  lemma {:induction false} EngineMirrored(x: Wiring, w: World) returns (e: Option<C.Event>)
    requires x.Valid() && WellFormed(x, w) && WiredOk(x, w)
    ensures var v := Next(x, w, EngineTakes);
            WiredOk(x, v) && w.read <= |w.sent| && v.read <= |v.sent| && Mirrored(x, w, v, e)
  {
    hide WiredOk, Process, C.Mine, InFlight, S.OwnIds;
    HeardIsSent(x, w);
    e := None;
    if w.taken < |w.session.published| {
      EngineKeeps(x, w);
      HeadTaken(x, w);
      var q, later := w.session.published[w.taken], InFlight(x, Next(x, w, EngineTakes));
      assert ([q] + later)[1..] == later;
      e := Some(if q.client == x.setup.client then C.EngineTakes else C.OtherClient(q));
    }
  }

  lemma {:induction false} QuietGoesOn(x: Wiring, w: World, v: World, q: Request)
    requires x.setup.cfg.Valid() && |w.books| == x.setup.cfg.tickers && Sided(q) && q.client != x.setup.client
    requires var out := Process(x.setup.cfg, w.books, q);
             v.books == out.books && v.sent == w.sent + C.Mine(x.setup.client, out.effects.responses)
    ensures Silent(x.setup.client, w.sent, w.books) ==> Silent(x.setup.client, v.sent, v.books)
  {
    hide Process, C.Mine;
    if Silent(x.setup.client, w.sent, w.books) {
      OthersStayQuiet(x.setup.cfg, w.books, q, x.setup.client);
    }
  }

  /** Once anything was said to the client, the server has its socket. */
  lemma {:induction false} AnswerRouted(x: Wiring, w: World, r: Response)
    requires x.Valid() && WellFormed(x, w) && WiredOk(x, w) && w.sent != [] && r.client == x.setup.client
    ensures Routed(w.session.server, r)
  {
    hide EngineSound, LinkOk, OfClient, W.Frames, S.Numbered, S.PipeOk, S.OwnIds;
    TakenWithin(x, w);
    assert S.TakenOk(w.session, x.me) && w.session.gateways[x.me].client == x.ids[x.me];
  }

  /** Numbering a response changes no session. */
  lemma {:induction false} AnsweredSession(x: Wiring, w: S.World, r: Response)
    requires x.Valid() && OrderEntry.Sized(w.server) && SessionOk(x, w)
    requires r.client == x.setup.client && Routed(w.server, r)
    ensures SessionOk(x, w.(server := Answered(w.server, r)))
  {
    hide S.PipeOk, S.OwnIds, OfClient, W.Frames, S.Numbered;
    var v := w.(server := Answered(w.server, r));
    forall j | 0 <= j < |x.ids| ensures S.TakenOk(v, j) {
      assert S.TakenOk(w, j);
    }
  }

  lemma {:induction false} AnswerMirrored(x: Wiring, w: World) returns (e: Option<C.Event>)
    requires x.Valid() && WellFormed(x, w) && WiredOk(x, w)
    ensures var v := Next(x, w, ServerAnswers);
            WiredOk(x, v) && w.read <= |w.sent| && v.read <= |v.sent| && Mirrored(x, w, v, e)
  {
    hide SessionOk, EngineSound, LinkOk, Silent, OfClient, R.Fits, R.Encode, S.OwnIds, Sent;
    HeardIsSent(x, w);
    e := None;
    if w.answered < |w.sent| {
      var r, n := w.sent[w.answered], w.session.server.nextOut[x.setup.client];
      AnswerRouted(x, w, r);
      if R.Fits(R.Frame(n, r)) {
        AnsweredSession(x, w.session, r);
        SentOk(x.setup.client, w.link, w.sent[..w.answered], r);
        assert w.sent[..w.answered] + [r] == w.sent[..w.answered + 1];
        SentEar(w.link, n, r);
      }
    }
  }

  lemma {:induction false} SentEar(k: Link, n: nat, r: Response)
    ensures Sent(k, n, r).ear == k.ear
  {
  }

  lemma {:induction false} LinkMirrored(x: Wiring, w: World, ev: Event) returns (e: Option<C.Event>)
    requires x.Valid() && WellFormed(x, w) && WiredOk(x, w) && (ev.FlushDown? || ev.ReadDown?)
    ensures var v := Next(x, w, ev);
            WiredOk(x, v) && w.read <= |w.sent| && v.read <= |v.sent| && Mirrored(x, w, v, e)
  {
    hide SessionOk, EngineSound, LinkOk, Silent, OfClient, S.OwnIds, Flushed, Read;
    HeardIsSent(x, w);
    e := None;
    var c, rs := x.setup.client, w.sent[..w.answered];
    match ev
    case FlushDown(size) =>
      if size <= |w.link.sendBuf| {
        FlushedOk(c, w.link, rs, size);
        HeardGrows(c, w.link, Flushed(w.link, size), rs);
        FlushedEar(w.link, size);
      }
    case ReadDown(size) =>
      if size <= |w.link.pipe| {
        ReadOk(c, w.link, rs, size);
        HeardGrows(c, w.link, Read(c, w.link, size), rs);
        ReadEar(c, w.link, rs, size);
      }
  }

  lemma {:induction false} FlushedEar(k: Link, size: nat)
    requires size <= |k.sendBuf|
    ensures Flushed(k, size).ear == k.ear
  {
  }

  /** The gateway forgets nothing it has passed on. */
  lemma {:induction false} ReadEar(client: nat, k: Link, rs: seq<Response>, size: nat)
    requires LinkOk(client, k, rs) && size <= |k.pipe|
    ensures |k.ear.heard| <= |Read(client, k, size).ear.heard|
  {
    hide R.Frames, R.Leftover, R.EncodeAll, R.Fits, HearAll;
    NextResponses(client, k, rs, size);
    ReadOk(client, k, rs, size);
  }

  lemma {:induction false} HeardGrows(client: nat, k: Link, l: Link, rs: seq<Response>)
    requires LinkOk(client, k, rs) && LinkOk(client, l, rs)
    ensures |k.ear.heard| <= |rs| && |l.ear.heard| <= |rs|
  {
    hide R.Frames, R.Leftover, R.EncodeAll, R.Fits;
  }

  lemma {:induction false} ClientMirrored(x: Wiring, w: World, ev: Event) returns (e: Option<C.Event>)
    requires x.Valid() && WellFormed(x, w) && WiredOk(x, w) && (ev.ClientReads? || ev.BookMoves?)
    ensures var v := Next(x, w, ev);
            WiredOk(x, v) && w.read <= |w.sent| && v.read <= |v.sent| && Mirrored(x, w, v, e)
  {
    hide SessionOk, EngineSound, LinkOk, Silent, OfClient, S.OwnIds, Position.AfterFill, Position.AfterQuote,
         Orders.OnOrderUpdate;
    HeardIsSent(x, w);
    e := None;
    match ev
    case ClientReads(quote) =>
      if w.read < |w.link.ear.heard| {
        assert w.link.ear.heard[w.read] == w.sent[w.read];
        e := Some(C.ClientReads(quote));
      }
    case BookMoves(ticker, quote) =>
      e := Some(C.BookMoves(ticker, quote));
  }

  lemma {:induction false} StepMirrored(x: Wiring, w: World, ev: Event) returns (e: Option<C.Event>)
    requires x.Valid() && WellFormed(x, w) && WiredOk(x, w) && FairEvent(ev)
    ensures var v := Next(x, w, ev);
            WiredOk(x, v) && w.read <= |w.sent| && v.read <= |v.sent| && Mirrored(x, w, v, e)
  {
    hide WiredOk, Mirrored, Next, FairEvent;
    match ev
    case Strategy(ticker, bid, ask, clip) => e := StrategyOk(x, w, ticker, bid, ask, clip);
    case Network(event) => e := NetworkMirrored(x, w, event);
    case EngineTakes => e := EngineMirrored(x, w);
    case ServerAnswers => e := AnswerMirrored(x, w);
    case FlushDown(_) => e := LinkMirrored(x, w, ev);
    case ReadDown(_) => e := LinkMirrored(x, w, ev);
    case ClientReads(_) => e := ClientMirrored(x, w, ev);
    case BookMoves(_, _) => e := ClientMirrored(x, w, ev);
  }

  lemma {:induction false} StartOk(x: Wiring)
    requires x.Valid()
    ensures WiredOk(x, Start(x)) && LoopOf(x, Start(x)) == C.Start(x.setup)
  {
    hide S.Ok, S.OwnIds, LinkOk, EngineSound, S.Start, R.EncodeAll;
    var w := Start(x);
    S.StartOk(x.clients, x.ids);
    SessionStarts(x);
    FreshLinkOk(x.setup.client, w.link);
    FreshSound(x.setup.cfg);
    assert w.sent[..0] == [] && w.session.published[..0] == [];
  }

  lemma {:induction false} SessionStarts(x: Wiring)
    requires x.Valid()
    ensures var w := S.Start(x.clients, x.ids);
            && FromGateways(w, x.ids) && AllSided(w) && w.published == [] && w.gateways[x.me].past == []
            && w.gateways[x.me].sent == [] && x.setup.client < |w.server.nextOut| == x.clients
            && w.server.nextOut[x.setup.client] == 1
  {
  }

  /** Whatever strategy, network, server, engine and other clients do, in any interleaving:
    * the wired system is in a state the loop with plain queues can be in.
    */
  lemma {:induction false} Simulates(x: Wiring, events: seq<Event>) returns (run: seq<C.Event>)
    requires x.Valid() && forall e | e in events :: FairEvent(e)
    ensures WiredOk(x, Reach(x, events)) && (forall e | e in run :: C.FairEvent(e))
    ensures LoopOf(x, Reach(x, events)) == C.Reach(x.setup, run)
  {
    hide WiredOk, Next, C.Next, FairEvent, C.FairEvent, LoopOf;
    if events == [] {
      StartOk(x);
      run := [];
    } else {
      var init, ev := events[..|events| - 1], events[|events| - 1];
      var before := Simulates(x, init);
      var e := StepMirrored(x, Reach(x, init), ev);
      match e
      case None => run := before;
      case Some(l) =>
        run := before + [l];
        assert run[..|run| - 1] == before;
    }
  }

  // ---------- what the loop guarantees, over the wire ----------

  /** The position stays within its limit, with every fill the client has not heard of counted
    * or not, although the check sees neither open orders nor what is on its way.
    */
  lemma {:induction false} PositionBounded(x: Wiring, events: seq<Event>, ticker: nat)
    requires x.Valid() && (forall e | e in events :: FairEvent(e)) && ticker < x.setup.cfg.tickers
    ensures var w, limit := Reach(x, events), x.setup.limits[ticker].maxPosition;
            && Position.Abs(w.holdings[ticker].position) <= limit
            && w.read <= |w.sent| && Position.Abs(C.TruePosition(LoopOf(x, w), ticker)) <= limit
  {
    hide WiredOk, Next, C.Next, FairEvent, C.FairEvent, C.TruePosition, S.OwnIds;
    var run := Simulates(x, events);
    C.PositionBounded(x.setup, run, ticker);
    C.TruePositionBounded(x.setup, run, ticker);
  }

  /** A resting order, a NEW anywhere between the strategy and the engine, and an ACCEPTED,
    * FILLED or CANCELED anywhere between the engine and the strategy, all of one ticker and
    * side, name one order: the one its slot stands for.
    */
  lemma {:induction false} OneOrderPerSide(x: Wiring, events: seq<Event>, ticker: nat, side: Side, orderId: nat)
    requires x.Valid() && (forall e | e in events :: FairEvent(e)) && ticker < x.setup.cfg.tickers
    requires var w := Reach(x, events);
             || (exists o :: w.books[ticker].book.Has(o) && o.owner == Owner(x.setup.client, orderId) && o.side == side)
             || (exists i :: 0 <= i < |InFlight(x, w)| && C.IsNew(InFlight(x, w)[i], ticker, side, orderId))
             || (exists j :: w.read <= j < |w.sent| && C.Reports(w.sent[j], ticker, side, orderId))
    ensures var slot := Reach(x, events).manager.At(ticker, side);
            side != NoSide && slot.state != Orders.Unused && slot.state != Orders.Dead && slot.orderId == orderId
  {
    hide WiredOk, Next, C.Next, FairEvent, C.FairEvent, S.OwnIds, C.Reach, Reach, InFlight;
    var run := Simulates(x, events);
    var l := C.Reach(x.setup, run);
    assert C.Rests(x.setup, l, ticker, side, orderId) || C.Queued(l, ticker, side, orderId)
        || C.Unheard(l, ticker, side, orderId);
    C.OneOrderPerSide(x.setup, run, ticker, side, orderId);
  }

  /** The strategy hears what the engine said to the client, in order, none lost or repeated,
    * and all of it once nothing is on its way.
    */
  lemma {:induction false} HeardInOrder(x: Wiring, events: seq<Event>)
    requires x.Valid() && forall e | e in events :: FairEvent(e)
    ensures var w := Reach(x, events);
            && w.read <= |w.link.ear.heard| && w.link.ear.heard <= w.sent
            && (w.answered == |w.sent| && w.link.sendBuf == [] && w.link.pipe == [] ==> w.link.ear.heard == w.sent)
  {
    hide Next, FairEvent, S.OwnIds, Reach, R.Frames, R.EncodeAll, R.Leftover, R.Fits, SessionOk, Silent, Taken;
    var run := Simulates(x, events);
    var w := Reach(x, events);
    HeardIsSent(x, w);
    if w.answered == |w.sent| && w.link.sendBuf == [] && w.link.pipe == [] {
      assert w.sent[..|w.sent|] == w.sent;
      assert w.link.arrived + w.link.pipe + w.link.sendBuf == w.link.arrived;
      R.FramesOfPrefix(Numbered(w.sent), w.link.arrived);
    }
  }
}
