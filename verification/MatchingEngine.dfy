/** The engine: one order book per ticker, made when the ticker is first referenced,
  * and the two outgoing queues.
  */
module MatchingEngines {
  import opened Types
  import opened PriceTime
  import opened Exchange
  import opened Soundness
  import opened Matching
  import opened OrderBooks
  import opened Ledger

  class MatchingEngine {
    const cfg: Config
    const capacity: nat
    const books: array<MEOrderBook?>
    var responses: seq<Response>
    var updates: seq<MarketUpdate>

    ghost function BookRepr(): set<object>
      reads books
    {
      set i, o | 0 <= i < books.Length && books[i] != null && o in books[i].Repr() :: o
    }

    /** The books share nothing, neither among themselves nor with the engine. */
    ghost predicate Separate()
      reads books
    {
      && cfg.Valid() && books.Length == cfg.tickers
      && (forall i | 0 <= i < books.Length && books[i] != null :: books[i].cfg == cfg && books[i].capacity == capacity)
      && (forall i, j | 0 <= i < j < books.Length && books[i] != null && books[j] != null ::
            books[i].Repr() !! books[j].Repr())
      && (forall i | 0 <= i < books.Length && books[i] != null :: this !in books[i].Repr() && books !in books[i].Repr())
    }

    ghost predicate Valid()
      reads books, BookRepr()
      ensures Valid() ==> cfg.Valid() && books.Length == cfg.tickers
    {
      Separate() && (forall i | 0 <= i < books.Length && books[i] != null :: books[i].Valid())
    }

    /** The books as values; one not made yet is as good as a fresh one. */
    ghost function Books(): (s: seq<XBook>)
      requires Valid()
      reads books, BookRepr()
      ensures |s| == cfg.tickers
      ensures forall i | 0 <= i < |s| :: s[i] == if books[i] == null then FRESH_XBOOK else books[i].Abs()
    {
      seq(books.Length, i requires 0 <= i < books.Length && Valid() reads books, BookRepr() =>
        if books[i] == null then FRESH_XBOOK else books[i].Abs())
    }

    ghost function Log(): Effects
      reads this
    {
      Effects(responses, updates)
    }

    constructor (cfg: Config, capacity: nat)
      requires cfg.Valid()
      ensures Valid() && this.cfg == cfg && this.capacity == capacity && Books() == FreshEngine(cfg)
              && Log() == QUIET && fresh(books) && BookRepr() == {}
    {
      hide MEOrderBook.Stored, MEOrderBook.Valid, Sound, MEOrderBook.Abs;
      this.cfg, this.capacity := cfg, capacity;
      books := new MEOrderBook?[cfg.tickers](_ => null);
      responses, updates := [], [];
    }

    /** A book is made when its ticker is first referenced. */
    method BookOf(t: nat) returns (book: MEOrderBook)
      requires Valid() && t < cfg.tickers
      modifies books
      ensures Valid() && Books() == old(Books()) && books[t] == book && book in book.Repr()
      ensures forall i | 0 <= i < books.Length && i != t :: books[i] == old(books[i])
      ensures if old(books[t]) == null then fresh(book.Repr()) else book == old(books[t])
      ensures fresh(BookRepr() - old(BookRepr()))
      ensures forall o | o in book.Repr() :: o in old(BookRepr()) || fresh(o)
    {
      hide MEOrderBook.Valid, MEOrderBook.Stored, Sound, MEOrderBook.Abs, Overflows, Full;
      if books[t] == null {
        var created := new MEOrderBook(cfg, capacity);
        books[t] := created;
      }
      book := books[t];
    }

    /** `r` is a NEW request whose remainder finds no room in the book `x`. */
    ghost predicate Full(x: XBook, r: Request)
      requires cfg.Valid()
    {
      r.kind == NewRequest && Overflows(cfg, capacity, x, Owner(r.client, r.orderId), r.side, r.price, r.qty)
    }

    /** `rejectClientRequest`. */
    method Reject(r: Request)
      requires Valid()
      modifies this`responses
      ensures Valid() && Books() == old(Books()) && BookRepr() == old(BookRepr())
      ensures Log() == old(Log()).Then(Effects([Rejection(r.client, r.ticker, r.orderId, r.side, r.price)], []))
    {
      hide MEOrderBook.Valid, MEOrderBook.Abs;
      responses := responses + [Rejection(r.client, r.ticker, r.orderId, r.side, r.price)];
    }

    /** `processClientRequest`: an unknown ticker or kind is rejected, everything else
      * reaches the ticker's book, and what the book sends goes out. It fails exactly when
      * the remainder of a NEW request finds as many orders resting in its book as the
      * pool has blocks, which is fatal in the original.
      */
    method ProcessClientRequest(r: Request) returns (ok: bool)
      requires Valid() && Sided(r)
      modifies this`responses, this`updates, books, BookRepr()
      ensures fresh(BookRepr() - old(BookRepr()))
      ensures ok <==> !(r.ticker < cfg.tickers && Full(old(Books())[r.ticker], r))
      ensures ok ==> Valid() && var out := Process(cfg, old(Books()), r);
                     Books() == out.books && Log() == old(Log()).Then(out.effects)
    {
      hide BookRepr, Separate, Valid, MEOrderBook.Repr, MEOrderBook.Valid, MEOrderBook.Abs, AddOrder, CancelOrder,
           Overflows;
      ok := true;
      if r.ticker >= books.Length {
        Reject(r);
        return;
      }
      var book := BookOf(r.ticker);
      if r.kind == OtherRequest {
        Reject(r);
        return;
      }
      ok := Serve(r.ticker, book, r);
    }

    /** What a NEW or CANCEL request does to its book. */
    ghost function ServedBy(x: XBook, r: Request): Outcome
      requires cfg.Valid()
    {
      var owner := Owner(r.client, r.orderId);
      if r.kind == NewRequest then AddOrder(cfg, x, r.ticker, owner, r.side, r.price, r.qty)
      else CancelOrder(x, r.ticker, owner)
    }

    /** The book serves the request, and its messages are passed on. */
    method Forward(book: MEOrderBook, r: Request) returns (ok: bool)
      requires book.Valid() && book.cfg == cfg && book.capacity == capacity && this !in book.Repr()
      requires r.kind != OtherRequest && Sided(r)
      modifies this`responses, this`updates, book.Repr()
      ensures ok <==> !Full(old(book.Abs()), r)
      ensures ok ==> book.Valid() && var out := ServedBy(old(book.Abs()), r);
                     book.Abs() == out.x && Log() == old(Log()).Then(out.effects)
    {
      hide MEOrderBook.Stored, Sound, MEOrderBook.Abs, AddOrder, CancelOrder, Overflows;
      var responded, updated := |book.responses|, |book.updates|;
      ok := true;
      if r.kind == NewRequest {
        ok := book.Add(r.client, r.orderId, r.ticker, r.side, r.price, r.qty);
        if !ok {
          return;
        }
      } else {
        book.Cancel(r.client, r.orderId, r.ticker);
      }
      responses := responses + book.responses[responded..];
      updates := updates + book.updates[updated..];
    }

    /** The other books are out of reach of the one that serves. */
    method Serve(t: nat, book: MEOrderBook, r: Request) returns (ok: bool)
      requires Valid() && t < cfg.tickers && books[t] == book && r.kind != OtherRequest && Sided(r)
      modifies this`responses, this`updates, book.Repr()
      ensures books[..] == old(books[..]) && BookRepr() == old(BookRepr())
      ensures ok <==> !Full(old(Books())[t], r)
      ensures ok ==> Valid() && var out := ServedBy(old(Books())[t], r);
                     Books() == old(Books())[t := out.x] && Log() == old(Log()).Then(out.effects)
    {
      hide MEOrderBook.Stored, Sound, MEOrderBook.Abs, ServedBy, Full;
      ok := Forward(book, r);
      if ok {
        forall j | 0 <= j < books.Length && j != t && books[j] != null
          ensures books[j].Valid() && books[j].Abs() == old(books[j].Abs()) {
          assert books[j].Repr() !! book.Repr();
        }
      }
    }

    /** Each of `rs` in turn, after `seen`, finds room in its book. */
    ghost predicate Roomy(seen: seq<Request>, rs: seq<Request>)
      requires cfg.Valid()
    {
      forall i | 0 <= i < |rs| && rs[i].ticker < cfg.tickers ::
        !Full(Run(cfg, seen + rs[..i]).books[rs[i].ticker], rs[i])
    }

    /** The run loop over queued requests: from start-up, books and queues are those of the
      * run as a function. It goes through exactly if every request finds room.
      */
    method ServeAll(ghost seen: seq<Request>, rs: seq<Request>) returns (ok: bool)
      requires Valid() && forall r | r in rs :: Sided(r)
      requires Books() == Run(cfg, seen).books && Log() == Run(cfg, seen).effects
      modifies this`responses, this`updates, books, BookRepr()
      ensures fresh(BookRepr() - old(BookRepr()))
      ensures ok <==> Roomy(seen, rs)
      ensures ok ==> Valid() && Books() == Run(cfg, seen + rs).books && Log() == Run(cfg, seen + rs).effects
    {
      hide BookRepr, Separate, Valid, MEOrderBook.Valid, MEOrderBook.Stored, Sound, MEOrderBook.Abs, Process, Full, Run;
      ghost var start := BookRepr();
      ok := true;
      assert seen + rs[..0] == seen;
      for i := 0 to |rs|
        invariant Valid() && forall o | o in BookRepr() :: o in start || fresh(o)
        invariant Books() == Run(cfg, seen + rs[..i]).books && Log() == Run(cfg, seen + rs[..i]).effects
        invariant forall j | 0 <= j < i && rs[j].ticker < cfg.tickers ::
                    !Full(Run(cfg, seen + rs[..j]).books[rs[j].ticker], rs[j])
      {
        RunNext(cfg, seen, rs, i);
        ghost var was := BookRepr();
        label Before:
        ok := ProcessClientRequest(rs[i]);
        forall o | o in BookRepr() ensures o in start || fresh(o) {
          assert o in was || fresh@Before(o);
        }
        if !ok {
          return;
        }
      }
      assert rs[..|rs|] == rs;
    }
  }

  lemma {:induction false} RunNext(cfg: Config, seen: seq<Request>, rs: seq<Request>, i: nat)
    requires cfg.Valid() && i < |rs|
    ensures var before, out := Run(cfg, seen + rs[..i]), Process(cfg, Run(cfg, seen + rs[..i]).books, rs[i]);
            Run(cfg, seen + rs[..i + 1]) == EngineOutcome(out.books, before.effects.Then(out.effects))
  {
    hide Process;
    var all := seen + rs[..i + 1];
    assert all[..|all| - 1] == seen + rs[..i] && all[|all| - 1] == rs[i];
  }

  /** An engine from start-up through any requests: its books are sound, and what it sent
    * tells, for every order of every client, exactly what its books hold.
    */
  method StartAndServe(cfg: Config, capacity: nat, rs: seq<Request>) returns (engine: MatchingEngine, ok: bool)
    requires cfg.Valid() && forall r | r in rs :: Sided(r)
    ensures engine.cfg == cfg && engine.capacity == capacity && (ok <==> engine.Roomy([], rs))
    ensures ok ==> engine.Valid() && engine.Books() == Run(cfg, rs).books && engine.Log() == Run(cfg, rs).effects
    ensures ok ==> EngineSound(cfg, engine.Books())
    ensures ok ==> forall t: nat, who | t < cfg.tickers ::
              Replay(t, who, Closed, engine.responses) == AccountOf(engine.Books()[t].book, who)
  {
    hide MatchingEngine.Separate, MatchingEngine.Valid, MatchingEngine.Full, Process, EngineSound;
    engine := new MatchingEngine(cfg, capacity);
    FromStart(cfg, rs);
    ok := engine.ServeAll([], rs);
    RunSound(cfg, rs);
    forall t: nat, who | t < cfg.tickers
      ensures Replay(t, who, Closed, Run(cfg, rs).effects.responses) == AccountOf(Run(cfg, rs).books[t].book, who) {
      RunLedger(cfg, rs, t, who);
    }
  }

  lemma {:induction false} FromStart(cfg: Config, rs: seq<Request>)
    requires cfg.Valid()
    ensures Run(cfg, []) == EngineOutcome(FreshEngine(cfg), QUIET) && [] + rs == rs
  {
  }
}
