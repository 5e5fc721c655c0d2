/** The client's copy of the books, as a fold over market updates, and the proof
  * that the exchange's own update stream reproduces its books.
  */
module Replica {
  import opened Types
  import opened PriceTime
  import opened Exchange
  import opened Soundness

  /** The resting order an ADD describes; the feed does not say whose it is. */
  function ToOrder(u: MarketUpdate): Order {
    Order(ANONYMOUS, u.orderId, u.side, u.price, u.qty, u.priority)
  }

  /** One update to one book: ADDs out of id range or aliasing a live level are dropped. */
  function Apply(cfg: Config, b: Book, u: MarketUpdate): Book
    requires cfg.Valid()
  {
    match u.kind
    case Add =>
      if || u.orderId >= cfg.orderIds
         || Aliased(cfg.priceLevels, b.bids, u.price) || Aliased(cfg.priceLevels, b.asks, u.price)
      then b
      else b.With(u.side, Insert(b.On(u.side), ToOrder(u)))
    case Modify =>
      if u.orderId >= cfg.orderIds then b
      else Book(Requantify(b.bids, u.orderId, u.qty), Requantify(b.asks, u.orderId, u.qty))
    case Cancel =>
      if u.orderId >= cfg.orderIds then b
      else Book(Remove(b.bids, u.orderId), Remove(b.asks, u.orderId))
    case Clear => EMPTY_BOOK
    case SnapshotStart => EMPTY_BOOK
    case Trade => b
    case SnapshotEnd => b
    case UnknownUpdate => b
  }

  /** The order of an ADD, field by field; nobody owns it. */
  ghost predicate IsAdded(o: Order, u: MarketUpdate) {
    && o.owner == ANONYMOUS && o.id == u.orderId && o.side == u.side
    && o.price == u.price && o.qty == u.qty && o.priority == u.priority
  }

  /** A side with the quantity of one id changed and everything in its place. */
  ghost predicate Requantified(s: seq<Order>, id: nat, qty: nat, t: seq<Order>) {
    && |t| == |s|
    && forall i | 0 <= i < |s| :: if s[i].id == id then t[i] == s[i].(qty := qty) else t[i] == s[i]
  }

  /** What one update does to what a book holds: ADD brings an order unless its id is out of range
    * or its price shares a slot with another live price, MODIFY changes a quantity in place,
    * CANCEL takes an id out, CLEAR and SNAPSHOT_START empty the book, the rest does nothing.
    */
  ghost predicate Updates(cfg: Config, b: Book, u: MarketUpdate, c: Book)
    requires cfg.Valid()
  {
    match u.kind
    case Add =>
      if || u.orderId >= cfg.orderIds
         || exists o :: b.Has(o) && o.price != u.price && o.price % cfg.priceLevels == u.price % cfg.priceLevels
      then c == b
      else && (forall x :: x in c.bids <==> x in b.bids || (u.side == Buy && IsAdded(x, u)))
           && (forall x :: x in c.asks <==> x in b.asks || (u.side != Buy && IsAdded(x, u)))
    case Modify =>
      if u.orderId >= cfg.orderIds then c == b
      else Requantified(b.bids, u.orderId, u.qty, c.bids) && Requantified(b.asks, u.orderId, u.qty, c.asks)
    case Cancel =>
      if u.orderId >= cfg.orderIds then c == b
      else && (forall x :: x in c.bids <==> x in b.bids && x.id != u.orderId)
           && (forall x :: x in c.asks <==> x in b.asks && x.id != u.orderId)
    case Clear => c.bids == c.asks == []
    case SnapshotStart => c.bids == c.asks == []
    case Trade => c == b
    case SnapshotEnd => c == b
    case UnknownUpdate => c == b
  }

  lemma {:induction false} RequantifyIs(s: seq<Order>, id: nat, qty: nat)
    ensures Requantified(s, id, qty, Requantify(s, id, qty))
  {
    if s != [] {
      RequantifyIs(s[1..], id, qty);
    }
  }

  lemma {:induction false} ApplyUpdates(cfg: Config, b: Book, u: MarketUpdate)
    requires cfg.Valid()
    ensures Updates(cfg, b, u, Apply(cfg, b, u))
  {
    hide Insert, Remove, Requantify, Requantified;
    match u.kind
    case Add =>
      assert forall o :: b.Has(o) <==> o in b.bids || o in b.asks;
      forall x ensures x in Insert(b.On(u.side), ToOrder(u)) <==> IsAdded(x, u) || x in b.On(u.side) {
        InsertHas(b.On(u.side), ToOrder(u), x);
      }
    case Modify =>
      RequantifyIs(b.bids, u.orderId, u.qty);
      RequantifyIs(b.asks, u.orderId, u.qty);
    case Cancel =>
      forall x ensures x in Remove(b.bids, u.orderId) <==> x in b.bids && x.id != u.orderId {
        RemoveHas(b.bids, u.orderId, x);
      }
      forall x ensures x in Remove(b.asks, u.orderId) <==> x in b.asks && x.id != u.orderId {
        RemoveHas(b.asks, u.orderId, x);
      }
    case _ =>
  }

  function EmptyBooks(cfg: Config): (books: seq<Book>)
    ensures |books| == cfg.tickers
  {
    seq(cfg.tickers, _ => EMPTY_BOOK)
  }

  /** The client's dispatcher: an unknown ticker is ignored, except that CLEAR wipes every book. */
  function Dispatch(cfg: Config, books: seq<Book>, u: MarketUpdate): (r: seq<Book>)
    requires cfg.Valid() && |books| == cfg.tickers
    ensures |r| == cfg.tickers
  {
    if u.ticker < cfg.tickers then books[u.ticker := Apply(cfg, books[u.ticker], u)]
    else if u.kind == Clear then EmptyBooks(cfg)
    else books
  }

  function DispatchAll(cfg: Config, books: seq<Book>, us: seq<MarketUpdate>): (r: seq<Book>)
    requires cfg.Valid() && |books| == cfg.tickers
    ensures |r| == cfg.tickers
  {
    if us == [] then books
    else Dispatch(cfg, DispatchAll(cfg, books, us[..|us| - 1]), us[|us| - 1])
  }

  function Fold(cfg: Config, us: seq<MarketUpdate>): (r: seq<Book>)
    requires cfg.Valid()
    ensures |r| == cfg.tickers
  {
    DispatchAll(cfg, EmptyBooks(cfg), us)
  }

  lemma {:induction false} DispatchConcat(cfg: Config, books: seq<Book>, us: seq<MarketUpdate>, vs: seq<MarketUpdate>)
    requires cfg.Valid() && |books| == cfg.tickers
    ensures DispatchAll(cfg, books, us + vs) == DispatchAll(cfg, DispatchAll(cfg, books, us), vs)
  {
    if vs == [] {
      assert us + vs == us;
    } else {
      var all, init := us + vs, vs[..|vs| - 1];
      DispatchConcat(cfg, books, us, init);
      assert all[..|all| - 1] == us + init;
      assert all[|all| - 1] == vs[|vs| - 1];
    }
  }

  /** What a well-behaved feed may say next: an in-range ADD is younger than every
    * live order of its book and lands on no aliasing or opposite-side level, and an
    * in-range MODIFY or CANCEL is about an order of its book.
    */
  ghost predicate Admissible(cfg: Config, books: seq<Book>, u: MarketUpdate)
    requires cfg.Valid() && |books| == cfg.tickers
  {
    && (u.kind == Add || u.kind == Modify || u.kind == Cancel || u.kind == Trade)
    && (u.kind == Add && u.ticker < cfg.tickers && u.orderId < cfg.orderIds ==>
          WellPlaced(cfg, books[u.ticker], u))
    && ((u.kind == Modify || u.kind == Cancel) && u.ticker < cfg.tickers && u.orderId < cfg.orderIds ==>
          Refers(books[u.ticker], u))
  }

  /** The update says of `o` what the book says of it; a MODIFY lowers its quantity. */
  predicate Describes(u: MarketUpdate, o: Order) {
    && o.id == u.orderId && o.side == u.side && o.price == u.price && o.priority == u.priority
    && (if u.kind == Modify then 0 < u.qty < o.qty else u.qty == o.qty)
  }

  /** A MODIFY or CANCEL is about an order of the book. */
  ghost predicate Refers(b: Book, u: MarketUpdate) {
    exists o :: b.Has(o) && Describes(u, o)
  }

  ghost predicate WellPlaced(cfg: Config, b: Book, u: MarketUpdate)
    requires cfg.Valid()
  {
    && u.side != NoSide
    && !Aliased(cfg.priceLevels, b.bids, u.price) && !Aliased(cfg.priceLevels, b.asks, u.price)
    && (forall o | b.Has(o) :: o.id < u.orderId)
    && (forall o | o in b.On(Opposite(u.side)) :: o.price != u.price)
  }

  ghost predicate ValidFrom(cfg: Config, books: seq<Book>, us: seq<MarketUpdate>)
    requires cfg.Valid() && |books| == cfg.tickers
  {
    forall i | 0 <= i < |us| :: Admissible(cfg, DispatchAll(cfg, books, us[..i]), us[i])
  }

  ghost predicate ValidStream(cfg: Config, us: seq<MarketUpdate>)
    requires cfg.Valid()
  {
    ValidFrom(cfg, EmptyBooks(cfg), us)
  }

  lemma {:induction false} ValidConcat(cfg: Config, books: seq<Book>, us: seq<MarketUpdate>, vs: seq<MarketUpdate>)
    requires cfg.Valid() && |books| == cfg.tickers
    requires ValidFrom(cfg, books, us) && ValidFrom(cfg, DispatchAll(cfg, books, us), vs)
    ensures ValidFrom(cfg, books, us + vs)
  {
    forall i | 0 <= i < |us + vs| ensures Admissible(cfg, DispatchAll(cfg, books, (us + vs)[..i]), (us + vs)[i]) {
      if i < |us| {
        assert (us + vs)[..i] == us[..i];
      } else {
        assert (us + vs)[..i] == us + vs[..i - |us|];
        DispatchConcat(cfg, books, us, vs[..i - |us|]);
      }
    }
  }

  lemma {:induction false} StreamAppend(cfg: Config, books: seq<Book>, us: seq<MarketUpdate>, u: MarketUpdate)
    requires cfg.Valid() && |books| == cfg.tickers
    requires ValidFrom(cfg, books, us) && Admissible(cfg, DispatchAll(cfg, books, us), u)
    ensures ValidFrom(cfg, books, us + [u])
    ensures DispatchAll(cfg, books, us + [u]) == Dispatch(cfg, DispatchAll(cfg, books, us), u)
  {
    var all := us + [u];
    assert all[..|us|] == us;
    forall i | 0 <= i < |all| ensures Admissible(cfg, DispatchAll(cfg, books, all[..i]), all[i]) {
      assert i < |us| ==> all[..i] == us[..i] && all[i] == us[i];
    }
  }

  // ---------- the view: what market data shows of an exchange book ----------

  function Anonymised(o: Order): Order {
    o.(owner := ANONYMOUS)
  }

  /** The orders with representable ids, owners hidden. */
  function Visible(orderIds: nat, s: seq<Order>): seq<Order> {
    if s == [] then []
    else (if s[0].id < orderIds then [Anonymised(s[0])] else []) + Visible(orderIds, s[1..])
  }

  function View(cfg: Config, b: Book): Book {
    Book(Visible(cfg.orderIds, b.bids), Visible(cfg.orderIds, b.asks))
  }

  lemma {:induction false} VisibleHas(n: nat, s: seq<Order>, x: Order)
    ensures x in Visible(n, s) <==> x.id < n && exists o :: o in s && x == Anonymised(o)
  {
    if s != [] {
      VisibleHas(n, s[1..], x);
      assert s == [s[0]] + s[1..];
    }
  }

  lemma {:induction false} VisibleRemove(n: nat, s: seq<Order>, id: nat)
    ensures Visible(n, Remove(s, id)) == if id < n then Remove(Visible(n, s), id) else Visible(n, s)
  {
    if s != [] {
      VisibleRemove(n, s[1..], id);
      var t := Remove(s[1..], id);
      if s[0].id == id {
        assert Remove(s, id) == t;
      } else {
        assert ([s[0]] + t)[1..] == t;
      }
      if s[0].id < n {
        assert ([Anonymised(s[0])] + Visible(n, s[1..]))[1..] == Visible(n, s[1..]);
      } else {
        assert Visible(n, s) == Visible(n, s[1..]);
      }
    }
  }

  lemma {:induction false} VisibleRequantify(n: nat, s: seq<Order>, id: nat, qty: nat)
    ensures Visible(n, Requantify(s, id, qty)) == if id < n then Requantify(Visible(n, s), id, qty) else Visible(n, s)
  {
    if s != [] {
      VisibleRequantify(n, s[1..], id, qty);
      var t := Requantify(s[1..], id, qty);
      var o := if s[0].id == id then s[0].(qty := qty) else s[0];
      assert Requantify(s, id, qty)[1..] == t;
      if s[0].id < n {
        assert ([Anonymised(s[0])] + Visible(n, s[1..]))[1..] == Visible(n, s[1..]);
      } else {
        assert Visible(n, s) == Visible(n, s[1..]);
      }
    }
  }

  lemma {:induction false} VisibleInsert(side: Side, n: nat, s: seq<Order>, o: Order)
    requires Sorted(side, s) && o.side == side
    ensures Visible(n, Insert(s, o)) == if o.id < n then Insert(Visible(n, s), Anonymised(o)) else Visible(n, s)
  {
    var v := Visible(n, s);
    if s == [] || Better(side, o.price, s[0].price) {
      assert ([o] + s)[1..] == s;
      if v != [] {
        VisibleHas(n, s, v[0]);
        var p :| p in s && v[0] == Anonymised(p);
        assert p == s[0] || Before(side, s[0], p);
      }
    } else {
      SortedTail(side, s);
      VisibleInsert(side, n, s[1..], o);
      assert ([s[0]] + Insert(s[1..], o))[1..] == Insert(s[1..], o);
      if s[0].id < n {
        assert v[1..] == Visible(n, s[1..]);
      } else {
        assert v == Visible(n, s[1..]);
      }
    }
  }

  // ---------- one book's updates ----------

  /** `us` is a clean feed about one ticker that takes the client's copy from `b` to `c`. */
  ghost predicate Carries(cfg: Config, ticker: nat, b: Book, us: seq<MarketUpdate>, c: Book)
    requires cfg.Valid()
    decreases |us|
  {
    if us == [] then b == c
    else
      var u := us[0];
      && u.ticker == ticker
      && (u.kind == Add || u.kind == Modify || u.kind == Cancel || u.kind == Trade)
      && (u.kind == Add && u.orderId < cfg.orderIds ==> WellPlaced(cfg, b, u))
      && ((u.kind == Modify || u.kind == Cancel) && u.orderId < cfg.orderIds ==> Refers(b, u))
      && Carries(cfg, ticker, Apply(cfg, b, u), us[1..], c)
  }

  lemma {:induction false} CarriesConcat(cfg: Config, ticker: nat, b: Book, us: seq<MarketUpdate>, c: Book,
                                         vs: seq<MarketUpdate>, d: Book)
    requires cfg.Valid() && Carries(cfg, ticker, b, us, c) && Carries(cfg, ticker, c, vs, d)
    ensures Carries(cfg, ticker, b, us + vs, d)
    decreases |us|
  {
    if us == [] {
      assert us + vs == vs;
    } else {
      CarriesConcat(cfg, ticker, Apply(cfg, b, us[0]), us[1..], c, vs, d);
      assert (us + vs)[1..] == us[1..] + vs;
    }
  }

  /** What refers to an order of the book refers to it in the view. */
  lemma {:induction false} RefersView(cfg: Config, b: Book, o: Order, u: MarketUpdate)
    requires b.Has(o) && Describes(u, o) && u.orderId < cfg.orderIds
    ensures Refers(View(cfg, b), u)
  {
    VisibleHas(cfg.orderIds, b.bids, Anonymised(o));
    VisibleHas(cfg.orderIds, b.asks, Anonymised(o));
    assert View(cfg, b).Has(Anonymised(o)) && Describes(u, Anonymised(o));
  }

  lemma {:induction false} CancelView(cfg: Config, b: Book, side: Side, u: MarketUpdate)
    requires cfg.Valid() && side != NoSide && u.kind == Cancel
    requires forall p | p in b.On(Opposite(side)) :: p.id != u.orderId
    ensures Apply(cfg, View(cfg, b), u) == View(cfg, b.With(side, Remove(b.On(side), u.orderId)))
  {
    RemoveAbsent(b.On(Opposite(side)), u.orderId);
    VisibleRemove(cfg.orderIds, b.On(side), u.orderId);
    VisibleRemove(cfg.orderIds, b.On(Opposite(side)), u.orderId);
  }

  lemma {:induction false} ModifyView(cfg: Config, b: Book, side: Side, u: MarketUpdate)
    requires cfg.Valid() && side != NoSide && u.kind == Modify
    requires forall p | p in b.On(Opposite(side)) :: p.id != u.orderId
    ensures Apply(cfg, View(cfg, b), u) == View(cfg, b.With(side, Requantify(b.On(side), u.orderId, u.qty)))
  {
    RequantifyAbsent(b.On(Opposite(side)), u.orderId, u.qty);
    VisibleRequantify(cfg.orderIds, b.On(side), u.orderId, u.qty);
    VisibleRequantify(cfg.orderIds, b.On(Opposite(side)), u.orderId, u.qty);
  }

  /** Market ids are distinct on this side and do not occur on the other. */
  ghost predicate IdsApart(side: Side, b: Book) {
    var s := b.On(side);
    && (forall i, j | 0 <= i < j < |s| :: s[i].id != s[j].id)
    && (forall o, p | o in s && p in b.On(Opposite(side)) :: o.id != p.id)
  }

  lemma {:induction false} HeadAlone(side: Side, b: Book)
    requires IdsApart(side, b) && b.On(side) != []
    ensures forall o | o in b.On(side)[1..] :: o.id != b.On(side)[0].id
  {
    var s := b.On(side);
    forall o | o in s[1..] ensures o.id != s[0].id {
      var i :| 0 <= i < |s[1..]| && s[1..][i] == o;
      assert o == s[i + 1];
    }
  }

  lemma {:induction false} TailApart(side: Side, b: Book)
    requires IdsApart(side, b) && b.On(side) != [] && side != NoSide
    ensures IdsApart(side, b.With(side, b.On(side)[1..]))
  {
    var s := b.On(side);
    var t := s[1..];
    forall i, j | 0 <= i < j < |t| ensures t[i].id != t[j].id {
      assert t[i] == s[i + 1] && t[j] == s[j + 1];
    }
    assert forall o | o in t :: o in s;
  }

  lemma {:induction false} HeadApart(side: Side, b: Book, qty: nat)
    requires IdsApart(side, b) && b.On(side) != [] && side != NoSide
    ensures var s := b.On(side); IdsApart(side, b.With(side, [s[0].(qty := qty)] + s[1..]))
  {
    var s := b.On(side);
    var t := [s[0].(qty := qty)] + s[1..];
    assert |t| == |s| && forall i | 0 <= i < |s| :: t[i].id == s[i].id;
    forall o, p | o in t && p in b.On(Opposite(side)) ensures o.id != p.id {
      var i :| 0 <= i < |t| && t[i] == o;
      assert s[i] in s;
    }
  }

  lemma {:induction false} AfterMatchApart(side: Side, b: Book, leaves: nat)
    requires IdsApart(side, b) && b.On(side) != [] && side != NoSide
    ensures IdsApart(side, b.With(side, AfterMatch(b.On(side), leaves)))
  {
    hide IdsApart;
    var s := b.On(side);
    if s[0].qty <= leaves {
      TailApart(side, b);
    } else {
      HeadApart(side, b, s[0].qty - leaves);
    }
  }

  lemma {:induction false} AfterMatchById(side: Side, b: Book, leaves: nat)
    requires IdsApart(side, b) && b.On(side) != []
    ensures var opp := b.On(side);
            AfterMatch(opp, leaves) == if opp[0].qty <= leaves then Remove(opp, opp[0].id)
                                       else Requantify(opp, opp[0].id, opp[0].qty - leaves)
  {
    var opp := b.On(side);
    HeadAlone(side, b);
    if opp[0].qty <= leaves {
      RemoveAbsent(opp[1..], opp[0].id);
    } else {
      RequantifyAbsent(opp[1..], opp[0].id, opp[0].qty - leaves);
    }
  }

  /** The CANCEL or MODIFY a match emits does to the copy what the match does to the book. */
  lemma {:induction false} MatchCarries(cfg: Config, t: Taker, b: Book, leaves: nat)
    requires cfg.Valid() && t.side != NoSide && IdsApart(Opposite(t.side), b) && b.On(Opposite(t.side)) != []
    requires 0 < leaves
    ensures var side := Opposite(t.side);
            Carries(cfg, t.ticker, View(cfg, b), MatchEffects(t, b.On(side)[0], leaves).updates,
                    View(cfg, b.With(side, AfterMatch(b.On(side), leaves))))
  {
    hide Carries, Apply, Visible, Refers, AfterMatch, Remove, Requantify;
    var side := Opposite(t.side);
    var maker := b.On(side)[0];
    var us := MatchEffects(t, maker, leaves).updates;
    var v := View(cfg, b);
    assert maker in b.On(side);
    AfterMatchById(side, b, leaves);
    if maker.qty <= leaves {
      CancelView(cfg, b, side, us[1]);
    } else {
      ModifyView(cfg, b, side, us[1]);
    }
    if us[1].orderId < cfg.orderIds {
      RefersView(cfg, b, maker, us[1]);
    }
    CarriesTwo(cfg, t.ticker, v, us);
  }

  lemma {:induction false} CarriesTwo(cfg: Config, ticker: nat, b: Book, us: seq<MarketUpdate>)
    requires cfg.Valid() && |us| == 2 && us[0].kind == Trade && (us[1].kind == Cancel || us[1].kind == Modify)
    requires us[0].ticker == us[1].ticker == ticker && (us[1].orderId < cfg.orderIds ==> Refers(b, us[1]))
    ensures Carries(cfg, ticker, b, us, Apply(cfg, b, us[1]))
  {
    assert us[1..] == [us[1]] && us[1..][1..] == [];
    assert Carries(cfg, ticker, Apply(cfg, b, us[1]), [], Apply(cfg, b, us[1]));
  }

  lemma {:induction false} SweepCarries(cfg: Config, t: Taker, b: Book, leaves: nat)
    requires cfg.Valid() && t.side != NoSide && IdsApart(Opposite(t.side), b)
    ensures SweepCarried(cfg, t, b, Sweep(t, b.On(Opposite(t.side)), leaves))
    decreases leaves + |b.On(Opposite(t.side))|
  {
    var side := Opposite(t.side);
    var opp := b.On(side);
    if leaves == 0 || opp == [] || !Crosses(t.side, t.price, opp[0].price) {
      SweepCarriesBase(cfg, t, b, leaves);
    } else {
      AfterMatchApart(side, b, leaves);
      SweepCarries(cfg, t, b.With(side, AfterMatch(opp, leaves)), leaves - Min(leaves, opp[0].qty));
      SweepStep(t, opp, leaves);
      SweepCarriesStep(cfg, t, b, leaves, Sweep(t, AfterMatch(opp, leaves), leaves - Min(leaves, opp[0].qty)));
    }
  }

  ghost predicate SweepCarried(cfg: Config, t: Taker, b: Book, s: Swept)
    requires cfg.Valid()
  {
    Carries(cfg, t.ticker, View(cfg, b), s.effects.updates, View(cfg, b.With(Opposite(t.side), s.rest)))
  }

  lemma {:induction false} SweepCarriesBase(cfg: Config, t: Taker, b: Book, leaves: nat)
    requires cfg.Valid()
    ensures SweepCarried(cfg, t, b, Swept(b.On(Opposite(t.side)), leaves, QUIET))
  {
  }

  lemma {:induction false} SweepCarriesStep(cfg: Config, t: Taker, b: Book, leaves: nat, s: Swept)
    requires cfg.Valid() && t.side != NoSide && IdsApart(Opposite(t.side), b) && b.On(Opposite(t.side)) != []
    requires 0 < leaves
    requires var side := Opposite(t.side);
             SweepCarried(cfg, t, b.With(side, AfterMatch(b.On(side), leaves)), s)
    ensures SweepCarried(cfg, t, b, s.(effects := MatchEffects(t, b.On(Opposite(t.side))[0], leaves).Then(s.effects)))
  {
    var side := Opposite(t.side);
    var c := b.With(side, AfterMatch(b.On(side), leaves));
    MatchCarries(cfg, t, b, leaves);
    assert c.With(side, s.rest) == b.With(side, s.rest);
    CarriesConcat(cfg, t.ticker, View(cfg, b), MatchEffects(t, b.On(side)[0], leaves).updates, View(cfg, c),
                  s.effects.updates, View(cfg, b.With(side, s.rest)));
  }

  /** The final ADD puts the remainder where the exchange put it. */
  lemma {:induction false} RestCarries(cfg: Config, ticker: nat, b: Book, o: Order)
    requires cfg.Valid() && o.side != NoSide && Sorted(o.side, b.On(o.side))
    requires !Aliased(cfg.priceLevels, b.bids, o.price) && !Aliased(cfg.priceLevels, b.asks, o.price)
    requires forall p | b.Has(p) :: p.id < o.id
    requires forall p | p in b.On(Opposite(o.side)) :: p.price != o.price
    ensures Carries(cfg, ticker, View(cfg, b), [OrderUpdate(Add, ticker, o)],
                    View(cfg, Rested(b, o)))
  {
    var u, v := OrderUpdate(Add, ticker, o), View(cfg, b);
    assert [u][1..] == [];
    VisibleInsert(o.side, cfg.orderIds, b.On(o.side), o);
    forall x | v.Has(x) ensures exists p :: b.Has(p) && x == Anonymised(p) {
      VisibleHas(cfg.orderIds, b.bids, x);
      VisibleHas(cfg.orderIds, b.asks, x);
    }
    forall x | x in v.On(Opposite(o.side)) ensures x.price != o.price {
      VisibleHas(cfg.orderIds, b.On(Opposite(o.side)), x);
    }
    forall s, x | s in {b.bids, b.asks} && x in Visible(cfg.orderIds, s)
      ensures !(x.price % cfg.priceLevels == o.price % cfg.priceLevels && x.price != o.price) {
      VisibleHas(cfg.orderIds, s, x);
    }
    assert ToOrder(u) == Anonymised(o);
  }

  lemma {:induction false} KeyedApart(side: Side, b: Book)
    requires TwoSided(b) && Keyed(b) && side != NoSide
    ensures IdsApart(side, b)
  {
    var s := b.On(side);
    forall i, j | 0 <= i < j < |s| ensures s[i].id != s[j].id {
      assert b.Has(s[i]) && b.Has(s[j]) && Before(side, s[i], s[j]);
    }
    forall o, p | o in s && p in b.On(Opposite(side)) ensures o.id != p.id {
      assert b.Has(o) && b.Has(p);
    }
  }

  /** What is left after the sweep may rest, in the client's copy too. */
  lemma {:induction false} RemainderPlaced(cfg: Config, x: XBook, t: Taker, qty: nat, s: Swept)
    requires cfg.Valid() && Sound(cfg, x) && t.side != NoSide && t.id == x.nextId
    requires Admits(cfg, x.book, t.owner, t.price)
    requires Survivors(t, x.book.On(Opposite(t.side)), qty, s) && s.leaves > 0
    ensures var b := x.book.With(Opposite(t.side), s.rest);
            && Sorted(t.side, b.On(t.side))
            && Admits(cfg, b, t.owner, t.price)
            && (forall p | b.Has(p) :: p.id < t.id)
            && (forall p | p in s.rest :: p.price != t.price)
  {
    var opp := Opposite(t.side);
    var b := x.book.With(opp, s.rest);
    AdmitsShrunk(cfg, x.book, opp, s.rest, t.owner, t.price);
    forall p | b.Has(p) ensures p.id < t.id {
      if p in s.rest {
        var p' :| p' in x.book.On(opp) && Shrunk(p, p');
        assert x.book.Has(p');
      } else {
        assert x.book.Has(p);
      }
    }
  }

  /** An accepted NEW: the sweep's updates, then the ADD. */
  lemma {:induction false} SettleCarries(cfg: Config, b: Book, t: Taker, qty: nat, s: Swept)
    requires cfg.Valid() && t.side != NoSide && SweepCarried(cfg, t, b, s)
    requires var c := b.With(Opposite(t.side), s.rest);
             s.leaves > 0 ==>
               && Sorted(t.side, c.On(t.side))
               && Admits(cfg, c, t.owner, t.price)
               && (forall p | c.Has(p) :: p.id < t.id)
               && (forall p | p in s.rest :: p.price != t.price)
    ensures var out := Settle(b, t, qty, s);
            Carries(cfg, t.ticker, View(cfg, b), out.effects.updates, View(cfg, out.x.book))
  {
    var c := b.With(Opposite(t.side), s.rest);
    var out := Settle(b, t, qty, s);
    if s.leaves > 0 {
      var o := Remainder(t, c, s.leaves);
      RestCarries(cfg, t.ticker, c, o);
      CarriesConcat(cfg, t.ticker, View(cfg, b), s.effects.updates, View(cfg, c),
                    [OrderUpdate(Add, t.ticker, o)], View(cfg, Rested(c, o)));
      assert out.effects.updates == s.effects.updates + [OrderUpdate(Add, t.ticker, o)];
    } else {
      assert out.effects.updates == s.effects.updates;
    }
  }

  lemma {:induction false} AddCarries(cfg: Config, x: XBook, ticker: nat, owner: Owner, side: Side, price: nat,
          qty: nat)
    requires cfg.Valid() && Sound(cfg, x) && side != NoSide
    ensures var out := AddOrder(cfg, x, ticker, owner, side, price, qty);
            Carries(cfg, ticker, View(cfg, x.book), out.effects.updates, View(cfg, out.x.book))
  {
    if Admits(cfg, x.book, owner, price) {
      var t := Taker(ticker, owner, x.nextId, side, price);
      KeyedApart(Opposite(side), x.book);
      SweepCarries(cfg, t, x.book, qty);
      BookSurvivors(cfg, x, t, qty);
      var s := Sweep(t, x.book.On(Opposite(side)), qty);
      if s.leaves > 0 { RemainderPlaced(cfg, x, t, qty, s); }
      SettleCarries(cfg, x.book, t, qty, s);
    }
  }

  lemma {:induction false} CancelCarries(cfg: Config, x: XBook, ticker: nat, owner: Owner)
    requires cfg.Valid() && Sound(cfg, x)
    ensures var out := CancelOrder(x, ticker, owner);
            Carries(cfg, ticker, View(cfg, x.book), out.effects.updates, View(cfg, out.x.book))
  {
    LookupHas(x.book, owner);
    match Lookup(x.book, owner)
    case None =>
    case Some(o) =>
      var us := CancelOrder(x, ticker, owner).effects.updates;
      KeyedApart(o.side, x.book);
      CancelView(cfg, x.book, o.side, us[0]);
      if o.id < cfg.orderIds {
        RefersView(cfg, x.book, o, us[0]);
      }
      assert us[1..] == [];
  }

  // ---------- all books ----------

  lemma {:induction false} CarriesDispatch(cfg: Config, books: seq<Book>, ticker: nat, us: seq<MarketUpdate>, c: Book)
    requires cfg.Valid() && |books| == cfg.tickers && ticker < cfg.tickers
    requires Carries(cfg, ticker, books[ticker], us, c)
    ensures DispatchAll(cfg, books, us) == books[ticker := c] && ValidFrom(cfg, books, us)
    decreases |us|
  {
    if us != [] {
      var next := Dispatch(cfg, books, us[0]);
      CarriesDispatch(cfg, next, ticker, us[1..], c);
      assert us == [us[0]] + us[1..] && [us[0]][..0] == [];
      assert DispatchAll(cfg, books, [us[0]]) == next;
      DispatchConcat(cfg, books, [us[0]], us[1..]);
      forall i | 0 <= i < |[us[0]]| ensures Admissible(cfg, DispatchAll(cfg, books, [us[0]][..i]), [us[0]][i]) {
        assert [us[0]][..i] == [];
      }
      ValidConcat(cfg, books, [us[0]], us[1..]);
    }
  }

  function Views(cfg: Config, books: seq<XBook>): (r: seq<Book>)
    ensures |r| == |books| && forall i | 0 <= i < |r| :: r[i] == View(cfg, books[i].book)
  {
    seq(|books|, i requires 0 <= i < |books| => View(cfg, books[i].book))
  }

  lemma {:induction false} ProcessCarries(cfg: Config, books: seq<XBook>, r: Request)
    requires cfg.Valid() && EngineSound(cfg, books) && Sided(r)
    ensures var out := Process(cfg, books, r);
            && DispatchAll(cfg, Views(cfg, books), out.effects.updates) == Views(cfg, out.books)
            && ValidFrom(cfg, Views(cfg, books), out.effects.updates)
  {
    var out := Process(cfg, books, r);
    if r.ticker < cfg.tickers && r.kind != OtherRequest {
      var owner := Owner(r.client, r.orderId);
      if r.kind == NewRequest {
        AddCarries(cfg, books[r.ticker], r.ticker, owner, r.side, r.price, r.qty);
      } else {
        CancelCarries(cfg, books[r.ticker], r.ticker, owner);
      }
      CarriesDispatch(cfg, Views(cfg, books), r.ticker, out.effects.updates, View(cfg, out.books[r.ticker].book));
      assert Views(cfg, books)[r.ticker := View(cfg, out.books[r.ticker].book)] == Views(cfg, out.books);
    }
  }

  /** Over every run of requests, the emitted stream is valid, every MODIFY and CANCEL in it
    * giving the order's own side, price and priority, and replaying it into
    * empty books gives the exchange's books: the same orders in the same
    * price-time positions with the same quantities and priorities, except those
    * whose market id no longer fits the client's table.
    */
  lemma {:induction false} ReplayReproduces(cfg: Config, rs: seq<Request>)
    requires cfg.Valid() && forall r | r in rs :: Sided(r)
    ensures var out := Run(cfg, rs);
            ValidStream(cfg, out.effects.updates) && Fold(cfg, out.effects.updates) == Views(cfg, out.books)
  {
    if rs == [] {
      assert Views(cfg, FreshEngine(cfg)) == EmptyBooks(cfg);
    } else {
      var init, r := rs[..|rs| - 1], rs[|rs| - 1];
      var before := Run(cfg, init);
      var out := Process(cfg, before.books, r);
      ReplayReproduces(cfg, init);
      RunSound(cfg, init);
      ProcessCarries(cfg, before.books, r);
      DispatchConcat(cfg, EmptyBooks(cfg), before.effects.updates, out.effects.updates);
      ValidConcat(cfg, EmptyBooks(cfg), before.effects.updates, out.effects.updates);
    }
  }

  /** While every market id fits, nothing at all is dropped. */
  lemma {:induction false} VisibleWhole(n: nat, s: seq<Order>)
    requires forall o | o in s :: o.id < n
    ensures |Visible(n, s)| == |s| && forall i | 0 <= i < |s| :: Visible(n, s)[i] == Anonymised(s[i])
  {
    if s != [] {
      assert s[0] in s;
      VisibleWhole(n, s[1..]);
    }
  }
}
