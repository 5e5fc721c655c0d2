/** What every request leaves intact: the book stays sorted, uncrossed, alias-free
  * and uniquely keyed, whatever is sent to it.
  */
module Soundness {
  import opened Types
  import opened PriceTime
  import opened Exchange

  lemma {:induction false} SortedUnique(side: Side, s: seq<Order>, o: Order, p: Order)
    requires Sorted(side, s) && o in s && p in s
    requires o.price == p.price && o.id == p.id
    ensures o == p
  {
    var i :| 0 <= i < |s| && s[i] == o;
    var j :| 0 <= j < |s| && s[j] == p;
    assert !(i < j) && !(j < i);
  }

  /** `o` is `p` with some of its quantity traded away. */
  predicate Shrunk(o: Order, p: Order) {
    o == p.(qty := o.qty) && 0 < o.qty <= p.qty
  }

  /** What a greedy allocation leaves of a sorted side: shrunk survivors, in order;
    * if the taker still has quantity left, none of them crosses it.
    */
  lemma {:induction false} GreedyRest(side: Side, t: Taker, opp: seq<Order>, qty: nat, n: nat, part: nat, s: Swept)
    requires Sorted(side, opp) && (forall o | o in opp :: 0 < o.qty)
    requires Greedy(t, opp, qty, n, part, s)
    ensures s.leaves <= qty && |s.rest| + n == |opp|
    ensures forall i | 0 <= i < |s.rest| :: Shrunk(s.rest[i], opp[n + i])
  {
    forall i | 0 <= i < |s.rest| ensures Shrunk(s.rest[i], opp[n + i]) {
      assert opp[n + i] in opp;
      if part > 0 && i > 0 {
        assert s.rest[i] == opp[n + 1..][i - 1];
      }
    }
  }

  lemma {:induction false} ShrunkSorted(side: Side, s: seq<Order>, t: seq<Order>, n: nat)
    requires Sorted(side, t) && n + |s| <= |t|
    requires forall i | 0 <= i < |s| :: Shrunk(s[i], t[n + i])
    ensures Sorted(side, s)
    ensures forall o | o in s :: exists p :: p in t && Shrunk(o, p)
  {
    forall i, j | 0 <= i < j < |s| ensures Before(side, s[i], s[j]) {
      assert Before(side, t[n + i], t[n + j]);
      assert Shrunk(s[i], t[n + i]) && Shrunk(s[j], t[n + j]);
    }
    forall o | o in s ensures exists p :: p in t && Shrunk(o, p) {
      var i :| 0 <= i < |s| && s[i] == o;
      assert t[n + i] in t;
    }
  }

  /** What a sweep may leave: a sorted side made of shrunk survivors and, if the
    * taker still has quantity left, none that it crosses.
    */
  ghost predicate Survivors(t: Taker, opp: seq<Order>, qty: nat, s: Swept) {
    && s.leaves <= qty
    && Sorted(Opposite(t.side), s.rest)
    && (forall o | o in s.rest :: exists p :: p in opp && Shrunk(o, p))
    && (s.leaves > 0 ==> forall o | o in s.rest :: !Crosses(t.side, t.price, o.price))
  }

  lemma {:induction false} GreedySurvivors(t: Taker, opp: seq<Order>, qty: nat, n: nat, part: nat, s: Swept)
    requires t.side != NoSide && Sorted(Opposite(t.side), opp) && forall o | o in opp :: 0 < o.qty
    requires Greedy(t, opp, qty, n, part, s)
    ensures Survivors(t, opp, qty, s)
  {
    var side := Opposite(t.side);
    GreedyRest(side, t, opp, qty, n, part, s);
    ShrunkSorted(side, s.rest, opp, n);
    if s.leaves > 0 {
      forall o | o in s.rest ensures !Crosses(t.side, t.price, o.price) {
        var i :| 0 <= i < |s.rest| && s.rest[i] == o;
        assert i > 0 ==> Before(side, opp[n], opp[n + i]);
      }
    }
  }

  lemma {:induction false} SweepSurvivors(t: Taker, opp: seq<Order>, qty: nat)
    requires t.side != NoSide && Sorted(Opposite(t.side), opp) && forall o | o in opp :: 0 < o.qty
    ensures Survivors(t, opp, qty, Sweep(t, opp, qty))
  {
    var n, part := GreedySweep(t, opp, qty);
    GreedySurvivors(t, opp, qty, n, part, Sweep(t, opp, qty));
  }

  /** Everything on a side that an order of this side and limit may trade against. */
  function CrossingQty(t: Taker, s: seq<Order>): nat {
    if s == [] then 0 else (if Crosses(t.side, t.price, s[0].price) then s[0].qty else 0) + CrossingQty(t, s[1..])
  }

  /** Once the best order does not cross, none does. */
  lemma {:induction false} NoneCrosses(t: Taker, s: seq<Order>)
    requires t.side != NoSide && Sorted(Opposite(t.side), s)
    requires s != [] ==> !Crosses(t.side, t.price, s[0].price)
    ensures CrossingQty(t, s) == 0
  {
    if s != [] {
      SortedTail(Opposite(t.side), s);
      assert |s| > 1 ==> Before(Opposite(t.side), s[0], s[1]);
      NoneCrosses(t, s[1..]);
    }
  }

  /** The sweep takes all it wants or all there is. */
  lemma {:induction false} SweepTakes(t: Taker, opp: seq<Order>, qty: nat)
    requires t.side != NoSide && Sorted(Opposite(t.side), opp) && forall o | o in opp :: 0 < o.qty
    ensures Sweep(t, opp, qty).leaves + Min(qty, CrossingQty(t, opp)) == qty
    decreases |opp|
  {
    hide Sorted;
    if opp == [] || !Crosses(t.side, t.price, opp[0].price) {
      NoneCrosses(t, opp);
    } else if 0 < qty {
      SweepStep(t, opp, qty);
      if opp[0].qty <= qty {
        SortedTail(Opposite(t.side), opp);
        SweepTakes(t, opp[1..], qty - opp[0].qty);
      }
    }
  }

  ghost predicate TwoSided(b: Book) {
    Sorted(Buy, b.bids) && Sorted(Sell, b.asks)
  }

  /** Every order of `c` is a shrunk order of `b`. */
  ghost predicate Thinner(c: Book, b: Book) {
    forall o | c.Has(o) :: exists p :: b.Has(p) && Shrunk(o, p)
  }

  lemma {:induction false} ThinnerKeyed(c: Book, b: Book)
    requires TwoSided(b) && TwoSided(c) && Thinner(c, b) && Keyed(b)
    ensures Keyed(c)
  {
    forall o, p | c.Has(o) && c.Has(p) && (o.owner == p.owner || o.id == p.id) ensures o == p {
      var o' :| b.Has(o') && Shrunk(o, o');
      var p' :| b.Has(p') && Shrunk(p, p');
      assert o' == p';
      if o in c.bids { SortedUnique(Buy, c.bids, o, p); } else { SortedUnique(Sell, c.asks, o, p); }
    }
  }

  lemma {:induction false} ThinnerApart(priceLevels: nat, c: Book, b: Book)
    requires 0 < priceLevels && Thinner(c, b) && TwoSided(b) && TwoSided(c)
    requires AliasFree(priceLevels, b) && Uncrossed(b)
    ensures AliasFree(priceLevels, c) && Uncrossed(c)
  {
    forall o, p | c.Has(o) && c.Has(p) && o.price % priceLevels == p.price % priceLevels ensures o.price == p.price {
      var o' :| b.Has(o') && Shrunk(o, o');
      var p' :| b.Has(p') && Shrunk(p, p');
    }
    forall o, p | o in c.bids && p in c.asks ensures o.price < p.price {
      assert c.Has(o) && c.Has(p);
      var o' :| b.Has(o') && Shrunk(o, o');
      var p' :| b.Has(p') && Shrunk(p, p');
    }
  }

  lemma {:induction false} ThinnerPrioritised(s: seq<Order>, t: seq<Order>)
    requires Prioritised(t)
    requires forall o | o in s :: exists p :: p in t && Shrunk(o, p)
    ensures Prioritised(s)
  {
    forall o, p | o in s && p in s && o.price == p.price && o.id < p.id ensures o.priority < p.priority {
      var o' :| o' in t && Shrunk(o, o');
      var p' :| p' in t && Shrunk(p, p');
    }
  }

  lemma {:induction false} ThinnerSide(b: Book, side: Side, rest: seq<Order>)
    requires side != NoSide
    requires forall o | o in rest :: exists p :: p in b.On(side) && Shrunk(o, p)
    requires forall o | b.Has(o) :: 0 < o.qty
    ensures Thinner(b.With(side, rest), b)
  {
    var c := b.With(side, rest);
    forall o | c.Has(o) ensures exists p :: b.Has(p) && Shrunk(o, p) {
      if o in rest {
        var p :| p in b.On(side) && Shrunk(o, p);
        assert b.Has(p);
      } else {
        assert b.Has(o) && Shrunk(o, o);
      }
    }
  }

  /** Shrinking one side keeps a book sound. */
  lemma {:induction false} ShrunkSound(cfg: Config, x: XBook, side: Side, rest: seq<Order>)
    requires cfg.Valid() && Sound(cfg, x) && side != NoSide
    requires Sorted(side, rest)
    requires forall o | o in rest :: exists p :: p in x.book.On(side) && Shrunk(o, p)
    ensures Sound(cfg, x.(book := x.book.With(side, rest)))
  {
    var b, c := x.book, x.book.With(side, rest);
    ThinnerSide(b, side, rest);
    ThinnerKeyed(c, b);
    ThinnerApart(cfg.priceLevels, c, b);
    ThinnerPrioritised(rest, b.On(side));
    ThinnerProper(cfg, x.nextId, c, b);
  }

  lemma {:induction false} ThinnerProper(cfg: Config, nextId: nat, c: Book, b: Book)
    requires Thinner(c, b) && forall o | b.Has(o) :: Proper(cfg, nextId, o)
    ensures forall o | c.Has(o) :: Proper(cfg, nextId, o)
  {
  }

  lemma {:induction false} NextPriorityTops(side: Side, s: seq<Order>, price: nat)
    requires Sorted(side, s) && Prioritised(s)
    ensures 0 < NextPriority(s, price)
    ensures forall o | o in s && o.price == price :: o.priority < NextPriority(s, price)
  {
    if s != [] {
      var last := s[|s| - 1];
      assert last in s;
      if last.price == price {
        forall o | o in s && o.price == price ensures o.priority <= last.priority {
          var i :| 0 <= i < |s| && s[i] == o;
          assert i < |s| - 1 ==> Before(side, o, last);
        }
      } else {
        NextPriorityTops(side, s[..|s| - 1], price);
        assert s == s[..|s| - 1] + [last];
      }
    }
  }

  lemma {:induction false} InsertPrioritised(side: Side, s: seq<Order>, o: Order)
    requires Sorted(side, s) && Prioritised(s)
    requires o.priority == NextPriority(s, o.price)
    requires forall y | y in s :: y.id < o.id
    ensures Prioritised(Insert(s, o))
  {
    NextPriorityTops(side, s, o.price);
    forall y ensures y in Insert(s, o) <==> y == o || y in s { InsertHas(s, o, y); }
  }

  lemma {:induction false} InsertApart(priceLevels: nat, b: Book, side: Side, o: Order)
    requires 0 < priceLevels && AliasFree(priceLevels, b) && Uncrossed(b) && side != NoSide
    requires !Aliased(priceLevels, b.bids, o.price) && !Aliased(priceLevels, b.asks, o.price)
    requires forall y | y in b.On(Opposite(side)) :: !Crosses(side, o.price, y.price)
    ensures var c := b.With(side, Insert(b.On(side), o)); AliasFree(priceLevels, c) && Uncrossed(c)
  {
    var s := b.On(side);
    forall y ensures y in Insert(s, o) <==> y == o || y in s { InsertHas(s, o, y); }
    var c := b.With(side, Insert(s, o));
    assert forall y | c.Has(y) :: y == o || b.Has(y);
  }

  lemma {:induction false} InsertKeyed(cfg: Config, nextId: nat, b: Book, o: Order)
    requires Keyed(b) && o.side != NoSide && o.id == nextId && Proper(cfg, nextId + 1, o)
    requires forall y | b.Has(y) :: Proper(cfg, nextId, y) && y.owner != o.owner
    ensures Keyed(Rested(b, o)) && forall y | Rested(b, o).Has(y) :: Proper(cfg, nextId + 1, y)
  {
    var s, c := b.On(o.side), Rested(b, o);
    forall y ensures y in Insert(s, o) <==> y == o || y in s { InsertHas(s, o, y); }
    assert forall y | c.Has(y) :: y == o || b.Has(y);
  }

  /** Resting a fresh, non-crossing, non-aliasing remainder keeps a book sound. */
  lemma {:induction false} RestSound(cfg: Config, x: XBook, t: Taker, leaves: nat)
    requires cfg.Valid() && Sound(cfg, x) && t.side != NoSide
    requires Admits(cfg, x.book, t.owner, t.price) && t.id == x.nextId && 0 < leaves
    requires forall o | o in x.book.On(Opposite(t.side)) :: !Crosses(t.side, t.price, o.price)
    ensures Sound(cfg, XBook(Rested(x.book, Remainder(t, x.book, leaves)), x.nextId + 1))
  {
    var b, o := x.book, Remainder(t, x.book, leaves);
    var s := b.On(t.side);
    assert forall y | y in s :: b.Has(y);
    InsertSorted(t.side, s, o);
    InsertPrioritised(t.side, s, o);
    InsertApart(cfg.priceLevels, b, t.side, o);
    assert forall y | b.Has(y) :: y.owner != o.owner;
    InsertKeyed(cfg, x.nextId, b, o);
  }

  lemma {:induction false} AdmitsShrunk(cfg: Config, b: Book, side: Side, rest: seq<Order>, owner: Owner, price: nat)
    requires cfg.Valid() && Admits(cfg, b, owner, price)
    requires forall o | o in rest :: exists p :: p in b.On(side) && Shrunk(o, p)
    ensures Admits(cfg, b.With(side, rest), owner, price)
  {
    var c := b.With(side, rest);
    forall o | o in c.On(side)
      ensures o.owner != owner
      ensures !(o.price % cfg.priceLevels == price % cfg.priceLevels && o.price != price)
    {
      var p :| p in b.On(side) && Shrunk(o, p);
    }
  }

  lemma {:induction false} SettleSound(cfg: Config, x: XBook, t: Taker, qty: nat, s: Swept)
    requires cfg.Valid() && Sound(cfg, x) && t.side != NoSide && t.id == x.nextId
    requires Admits(cfg, x.book, t.owner, t.price)
    requires Survivors(t, x.book.On(Opposite(t.side)), qty, s)
    ensures Sound(cfg, Settle(x.book, t, qty, s).x)
  {
    var opp := Opposite(t.side);
    var swept := x.book.With(opp, s.rest);
    ShrunkSound(cfg, x, opp, s.rest);
    if s.leaves > 0 {
      AdmitsShrunk(cfg, x.book, opp, s.rest, t.owner, t.price);
      RestSound(cfg, x.(book := swept), t, s.leaves);
    } else {
      assert forall o | swept.Has(o) :: Proper(cfg, x.nextId, o);
    }
  }

  /** The sweep of a sound book leaves survivors. */
  lemma {:induction false} BookSurvivors(cfg: Config, x: XBook, t: Taker, qty: nat)
    requires cfg.Valid() && Sound(cfg, x) && t.side != NoSide
    ensures var opp := x.book.On(Opposite(t.side)); Survivors(t, opp, qty, Sweep(t, opp, qty))
  {
    assert forall o | o in x.book.On(Opposite(t.side)) :: x.book.Has(o);
    SweepSurvivors(t, x.book.On(Opposite(t.side)), qty);
  }

  /** Every NEW request, well formed or not, leaves a sound book; in particular the
    * remainder of an aggressive order never crosses, never joins a level of the
    * opposite side and never shares a slot with another price.
    */
  lemma {:induction false} AddKeepsSound(cfg: Config, x: XBook, ticker: nat, owner: Owner, side: Side, price: nat,
          qty: nat)
    requires cfg.Valid() && Sound(cfg, x) && side != NoSide
    ensures Sound(cfg, AddOrder(cfg, x, ticker, owner, side, price, qty).x)
  {
    if Admits(cfg, x.book, owner, price) {
      var t := Taker(ticker, owner, x.nextId, side, price);
      BookSurvivors(cfg, x, t, qty);
      SettleSound(cfg, x, t, qty, Sweep(t, x.book.On(Opposite(side)), qty));
    }
  }

  lemma {:induction false} FindOwnerHas(s: seq<Order>, owner: Owner)
    ensures match FindOwner(s, owner)
            case Some(o) => o in s && o.owner == owner
            case None => forall o | o in s :: o.owner != owner
  {
    if s != [] && s[0].owner != owner {
      FindOwnerHas(s[1..], owner);
      assert s == [s[0]] + s[1..];
    }
  }

  lemma {:induction false} LookupHas(b: Book, owner: Owner)
    ensures match Lookup(b, owner)
            case Some(o) => b.Has(o) && o.owner == owner
            case None => forall o | b.Has(o) :: o.owner != owner
  {
    FindOwnerHas(b.bids, owner);
    FindOwnerHas(b.asks, owner);
  }

  lemma {:induction false} CancelKeepsSound(cfg: Config, x: XBook, ticker: nat, owner: Owner)
    requires cfg.Valid() && Sound(cfg, x)
    ensures Sound(cfg, CancelOrder(x, ticker, owner).x)
  {
    LookupHas(x.book, owner);
    match Lookup(x.book, owner)
    case None =>
    case Some(o) =>
      var s := x.book.On(o.side);
      RemoveSorted(o.side, s, o.id);
      forall y ensures y in Remove(s, o.id) <==> y in s && y.id != o.id { RemoveHas(s, o.id, y); }
      forall y | y in Remove(s, o.id) ensures exists p :: p in s && Shrunk(y, p) {
        assert x.book.Has(y) && Shrunk(y, y);
      }
      ShrunkSound(cfg, x, o.side, Remove(s, o.id));
  }

  // ---------- runs ----------

  ghost predicate EngineSound(cfg: Config, books: seq<XBook>)
    requires cfg.Valid()
  {
    |books| == cfg.tickers && forall i | 0 <= i < |books| :: Sound(cfg, books[i])
  }

  /** The side byte of a NEW is BUY or SELL. */
  predicate Sided(r: Request) {
    r.kind == NewRequest ==> r.side != NoSide
  }

  lemma {:induction false} ProcessKeepsSound(cfg: Config, books: seq<XBook>, r: Request)
    requires cfg.Valid() && EngineSound(cfg, books) && Sided(r)
    ensures EngineSound(cfg, Process(cfg, books, r).books)
  {
    if r.ticker < cfg.tickers && r.kind == NewRequest {
      AddKeepsSound(cfg, books[r.ticker], r.ticker, Owner(r.client, r.orderId), r.side, r.price, r.qty);
    } else if r.ticker < cfg.tickers && r.kind == CancelRequest {
      CancelKeepsSound(cfg, books[r.ticker], r.ticker, Owner(r.client, r.orderId));
    }
  }

  function FreshEngine(cfg: Config): (books: seq<XBook>)
    ensures |books| == cfg.tickers
  {
    seq(cfg.tickers, _ => FRESH_XBOOK)
  }

  lemma {:induction false} FreshSound(cfg: Config)
    requires cfg.Valid()
    ensures EngineSound(cfg, FreshEngine(cfg))
  {
  }

  /** A whole request run from start-up. */
  function Run(cfg: Config, rs: seq<Request>): (out: EngineOutcome)
    requires cfg.Valid()
    ensures |out.books| == cfg.tickers
  {
    if rs == [] then EngineOutcome(FreshEngine(cfg), QUIET)
    else
      var before := Run(cfg, rs[..|rs| - 1]);
      var out := Process(cfg, before.books, rs[|rs| - 1]);
      EngineOutcome(out.books, before.effects.Then(out.effects))
  }

  lemma {:induction false} RunSound(cfg: Config, rs: seq<Request>)
    requires cfg.Valid() && forall r | r in rs :: Sided(r)
    ensures EngineSound(cfg, Run(cfg, rs).books)
  {
    if rs == [] {
      FreshSound(cfg);
    } else {
      RunSound(cfg, rs[..|rs| - 1]);
      ProcessKeepsSound(cfg, Run(cfg, rs[..|rs| - 1]).books, rs[|rs| - 1]);
    }
  }
}
