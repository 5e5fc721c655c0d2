/** The client end to end: what the consumer forwards runs through the trade engine's
  * dispatcher into the linked order books, whose best prices follow the exchange's.
  */
module ClientPath {
  import opened Types
  import opened Replica
  import opened ClientSafety
  import opened MarketBooks
  import opened TradeEngines
  import R = Replication

  /** The market-data half of the trade engine's run loop: `us` was queued since the
    * updates `seen` were handled.
    */
  method DrainMarketUpdates(engine: TradeEngine, ghost seen: seq<MarketUpdate>, us: seq<MarketUpdate>)
    requires engine.Valid() && engine.Flats() == Fold(engine.cfg, seen) && Lands(engine.cfg, seen + us)
    modifies engine.BookRepr(), engine.PositionRepr()
    ensures engine.Valid() && engine.Flats() == Fold(engine.cfg, seen + us)
    ensures forall i | 0 <= i < |engine.books| :: engine.books[i].bbo == BboOf(Fold(engine.cfg, seen + us)[i])
    ensures forall i | 0 <= i < |engine.books| :: BestOffers(Fold(engine.cfg, seen + us)[i], engine.books[i].bbo)
  {
    hide MarketOrderBook.Valid, MarketOrderBook.Flat, BboOf, BestOffers, Landable, Dispatch, Lands, Fold;
    assert seen + us[..0] == seen;
    for n := 0 to |us|
      invariant engine.Valid() && engine.Flats() == Fold(engine.cfg, seen + us[..n])
    {
      NextLands(engine.cfg, seen, us, n);
      engine.HandleMarketUpdate(us[n]);
    }
    assert us[..|us|] == us;
    forall i | 0 <= i < |engine.books|
      ensures engine.books[i].bbo == BboOf(engine.Flats()[i]) && BestOffers(engine.Flats()[i], engine.books[i].bbo)
    {
      engine.books[i].BboIs();
    }
  }

  /** The next update lands, and carries the fold on. */
  lemma {:induction false} NextLands(cfg: Config, seen: seq<MarketUpdate>, us: seq<MarketUpdate>, n: nat)
    requires cfg.Valid() && Lands(cfg, seen + us) && n < |us|
    ensures var u, books := us[n], Fold(cfg, seen + us[..n]);
            && Fold(cfg, seen + us[..n + 1]) == Dispatch(cfg, books, u)
            && (u.kind == Add && u.ticker < cfg.tickers && u.orderId < cfg.orderIds ==>
                  Landable(cfg, books[u.ticker], u))
  {
    hide Dispatch;
    var all := seen + us;
    var k := |seen| + n;
    assert all[..k] == seen + us[..n] && all[k] == us[n];
    assert Lawful(cfg, Fold(cfg, all[..k]), all[k]);
    var more := seen + us[..n + 1];
    assert more[..|more| - 1] == seen + us[..n] && more[|more| - 1] == us[n];
  }

  /** Whatever the two networks do: outside recovery, an engine that has handled everything
    * its consumer forwarded holds the fold of incrementals 1..next-1 in its books and
    * their best prices in each cached bbo. Once every emitted update was consumed, these
    * are the exchange's own books and best prices as market data shows them.
    */
  method FollowExchange(engine: TradeEngine, us: seq<MarketUpdate>, ghost events: seq<R.Event>)
    requires engine.Valid() && engine.Flats() == EmptyBooks(engine.cfg)
    requires forall e | e in events :: R.FairEvent(e)
    requires var w := R.Reach(engine.cfg, events); us == w.feed.out && !w.feed.inRecovery
    modifies engine.BookRepr(), engine.PositionRepr()
    ensures var w := R.Reach(engine.cfg, events);
            && engine.Valid() && 1 <= w.feed.next <= w.published + 1
            && engine.Flats() == Fold(engine.cfg, w.emitted[..w.feed.next - 1])
            && (w.feed.next == |w.emitted| + 1 ==> engine.Flats() == Views(engine.cfg, w.books))
    ensures forall i | 0 <= i < |engine.books| :: engine.books[i].bbo == BboOf(engine.Flats()[i])
    ensures forall i | 0 <= i < |engine.books| :: BestOffers(engine.Flats()[i], engine.books[i].bbo)
  {
    hide MarketOrderBook.Valid, MarketOrderBook.Flat, BboOf, BestOffers, Lands, Fold, Views, R.Reach, CleanOpenings;
    R.ClientExact(engine.cfg, events);
    ReachSafe(engine.cfg, events);
    NothingSeen(engine.cfg);
    assert [] + us == us;
    DrainMarketUpdates(engine, [], us);
  }

  lemma {:induction false} NothingSeen(cfg: Config)
    requires cfg.Valid()
    ensures Fold(cfg, []) == EmptyBooks(cfg)
  {
  }
}
