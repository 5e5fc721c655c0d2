/** The client's single dispatcher: market updates to books and positions, responses
  * to positions and the order manager.
  */
module TradeEngines {
  import opened Types
  import opened PriceTime
  import opened Replica
  import opened MarketBooks
  import Position
  import Orders

  /** The quote a position is marked with. */
  function QuoteOf(b: Book): Position.Quote {
    Position.Quote(TopPrice(b.bids), TopPrice(b.asks))
  }

  class TradeEngine {
    const cfg: Config
    const books: seq<MarketOrderBook>
    const positions: seq<Position.PositionInfo>
    const manager: Orders.OrderManager

    constructor (cfg: Config, books: seq<MarketOrderBook>, positions: seq<Position.PositionInfo>,
            manager: Orders.OrderManager)
      ensures this.cfg == cfg && this.books == books && this.positions == positions && this.manager == manager
    {
      this.cfg, this.books, this.positions, this.manager := cfg, books, positions, manager;
    }

    /** Every object of every book. */
    ghost function BookRepr(): set<object> {
      set i, o | 0 <= i < |books| && o in books[i].Repr() :: o
    }

    ghost function PositionRepr(): set<object> {
      set i | 0 <= i < |positions| :: positions[i]
    }

    /** Nothing is shared. */
    ghost predicate Separate() {
      && cfg.Valid() && |books| == |positions| == cfg.tickers
      && (forall i | 0 <= i < |books| :: books[i].cfg == cfg)
      && (forall i, j | 0 <= i < j < |books| :: books[i].Repr() !! books[j].Repr())
      && (forall i, j | 0 <= i < j < |positions| :: positions[i] != positions[j])
      && (forall i, j | 0 <= i < |books| && 0 <= j < |positions| :: positions[j] !in books[i].Repr())
      && (forall i | 0 <= i < |books| :: manager !in books[i].Repr() && manager.slots !in books[i].Repr())
      && manager.slots.Length0 == cfg.tickers
    }

    ghost predicate Valid()
      reads BookRepr(), manager
    {
      Separate() && (forall i | 0 <= i < |books| :: books[i].Valid()) && manager.Valid()
    }

    /** The books as the market data describes them. */
    ghost function Flats(): (s: seq<Book>)
      requires Valid()
      reads BookRepr(), manager
      ensures |s| == cfg.tickers && forall i | 0 <= i < |s| :: s[i] == books[i].Flat()
    {
      seq(|books|, i requires 0 <= i < |books| && Valid() reads BookRepr(), manager => books[i].Flat())
    }

    /** The quote a position is marked with is the pair of best prices of its book. */
    lemma {:induction false} QuoteIs(t: nat)
      requires Valid() && t < cfg.tickers
      ensures QuoteOf(Flats()[t]) == Position.Quote(books[t].bbo.bidPrice, books[t].bbo.askPrice)
      ensures BestOffers(Flats()[t], books[t].bbo)
    {
      hide MarketOrderBook.Valid, MarketOrderBook.Flat, TopPrice, TopQty, BestOffers;
      books[t].BboIs();
    }

    /** `handleMarketUpdate`: an update reaches the book of its ticker, a CLEAR for no
      * ticker reaches them all, and the position is marked to the new best prices.
      */
    method HandleMarketUpdate(u: MarketUpdate)
      requires Valid()
      requires u.kind == Add && u.ticker < cfg.tickers && u.orderId < cfg.orderIds ==>
               Landable(cfg, Flats()[u.ticker], u)
      modifies BookRepr(), PositionRepr()
      ensures Valid() && Flats() == Dispatch(cfg, old(Flats()), u)
      ensures forall i | 0 <= i < |positions| ::
                positions[i].State() == if i == u.ticker && u.kind != Trade
                                        then Position.AfterQuote(old(positions[i].State()), QuoteOf(Flats()[i]))
                                        else old(positions[i].State())
    {
      hide MarketOrderBook.Valid, MarketOrderBook.Flat, Apply, Landable, TopPrice, TopQty, Position.AfterQuote;
      if u.ticker >= |books| {
        if u.kind == Clear {
          ClearAll(u);
        }
        return;
      }
      UpdateBook(u.ticker, u);
      if u.kind != Trade {
        Mark(u.ticker);
      }
    }

    /** One book takes an update; nothing else changes. */
    method UpdateBook(t: nat, u: MarketUpdate)
      requires Valid() && t < cfg.tickers
      requires u.kind == Add && u.orderId < cfg.orderIds ==> Landable(cfg, Flats()[t], u)
      modifies books[t].Repr()
      ensures Valid() && Flats() == old(Flats())[t := Apply(cfg, old(Flats())[t], u)]
      ensures forall i | 0 <= i < |positions| :: positions[i].State() == old(positions[i].State())
    {
      hide MarketOrderBook.Valid, MarketOrderBook.Flat, Apply, Landable;
      var book := books[t];
      book.OnMarketUpdate(u);
      forall j | 0 <= j < |books| && j != t
        ensures books[j].Valid() && books[j].Flat() == old(books[j].Flat()) {
        assert books[j].Repr() !! book.Repr();
      }
    }

    /** The position of a ticker is marked to its book's best prices. */
    method Mark(t: nat)
      requires Valid() && t < cfg.tickers
      modifies positions[t]
      ensures Valid() && Flats() == old(Flats()) && manager.State() == old(manager.State())
      ensures positions[t].State() == Position.AfterQuote(old(positions[t].State()), QuoteOf(Flats()[t]))
      ensures forall i | 0 <= i < |positions| && i != t :: positions[i].State() == old(positions[i].State())
    {
      hide MarketOrderBook.Valid, MarketOrderBook.Flat, TopPrice, TopQty, Position.AfterQuote;
      var book := books[t];
      book.BboIs();
      positions[t].UpdateBBO(Position.Quote(book.bbo.bidPrice, book.bbo.askPrice));
      forall j | 0 <= j < |books| ensures books[j].Valid() && books[j].Flat() == old(books[j].Flat()) {
        assert positions[t] !in books[j].Repr();
      }
    }

    /** The broadcast of a CLEAR. */
    method ClearAll(u: MarketUpdate)
      requires Valid() && u.kind == Clear
      modifies BookRepr()
      ensures Valid() && Flats() == EmptyBooks(cfg)
      ensures forall i | 0 <= i < |positions| :: positions[i].State() == old(positions[i].State())
    {
      hide MarketOrderBook.Valid, MarketOrderBook.Flat, Landable;
      for i := 0 to |books|
        invariant Valid() && forall j | 0 <= j < i :: Flats()[j] == EMPTY_BOOK
        invariant forall j | 0 <= j < |positions| :: positions[j].State() == old(positions[j].State())
      {
        UpdateBook(i, u);
      }
    }

    /** `handleResponse`: a fill moves the position first and is marked to the book's best
      * prices, then every response reaches the order manager; an unknown ticker is dropped.
      */
    method HandleResponse(r: Response)
      requires Valid() && (r.kind == Filled ==> r.side != NoSide)
      modifies PositionRepr(), manager.slots
      ensures Valid() && Flats() == old(Flats())
      ensures forall i | 0 <= i < |positions| ::
                positions[i].State() == if i == r.ticker && r.kind == Filled
                                        then Position.AfterQuote(Position.AfterFill(old(positions[i].State()),
                                             r.side, r.price, r.execQty),
                                                                 QuoteOf(Flats()[i]))
                                        else old(positions[i].State())
      ensures manager.State() == if r.ticker < cfg.tickers then Orders.OnOrderUpdate(old(manager.State()), r)
                                 else old(manager.State())
    {
      hide MarketOrderBook.Valid, MarketOrderBook.Flat, TopPrice, TopQty, Position.AfterQuote, Position.AfterFill,
           Orders.OnOrderUpdate;
      if r.ticker >= |books| {
        return;
      }
      if r.kind == Filled {
        Fill(r.ticker, r);
        Mark(r.ticker);
      }
      manager.OnUpdate(r);
      forall j | 0 <= j < |books| ensures books[j].Valid() && books[j].Flat() == old(books[j].Flat()) {
        assert manager.slots !in books[j].Repr();
      }
    }

    /** A fill reaches the position of its ticker. */
    method Fill(t: nat, r: Response)
      requires Valid() && t < cfg.tickers && r.side != NoSide
      modifies positions[t]
      ensures Valid() && Flats() == old(Flats()) && manager.State() == old(manager.State())
      ensures positions[t].State() == Position.AfterFill(old(positions[t].State()), r.side, r.price, r.execQty)
      ensures forall i | 0 <= i < |positions| && i != t :: positions[i].State() == old(positions[i].State())
    {
      hide MarketOrderBook.Valid, MarketOrderBook.Flat, Position.AfterFill;
      positions[t].AddFill(r.side, r.price, r.execQty);
      forall j | 0 <= j < |books| ensures books[j].Valid() && books[j].Flat() == old(books[j].Flat()) {
        assert positions[t] !in books[j].Repr();
      }
    }
  }
}
