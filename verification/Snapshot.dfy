/** The snapshot synthesizer: the table it folds the incremental stream into, the
  * cycle it serialises that table as, and the proof that replaying a cycle
  * rebuilds exactly the books the stream describes.
  */
module Snapshot {
  import opened Types
  import opened PriceTime
  import opened Exchange
  import opened Soundness
  import opened Replica

  /** Per ticker, the update last describing each live market order id. */
  datatype Synth = Synth(lastSeq: nat, orders: seq<map<nat, MarketUpdate>>)

  function EmptySynth(cfg: Config): (s: Synth)
    ensures |s.orders| == cfg.tickers
  {
    Synth(0, seq(cfg.tickers, _ => map[]))
  }

  predicate IndexesBook(u: MarketUpdate) {
    u.kind == Add || u.kind == Modify || u.kind == Cancel
  }

  /** `addToSnapshot` on one ticker's table. */
  function Absorb1(m: map<nat, MarketUpdate>, u: MarketUpdate): map<nat, MarketUpdate> {
    if u.kind == Add then m[u.orderId := u]
    else if u.orderId !in m then m
    else if u.kind == Modify then m[u.orderId := m[u.orderId].(qty := u.qty)]
    else m - {u.orderId}
  }

  function Absorb(cfg: Config, s: Synth, seqNum: nat, u: MarketUpdate): (r: Synth)
    requires |s.orders| == cfg.tickers
    ensures |r.orders| == cfg.tickers
  {
    if !IndexesBook(u) || u.ticker >= cfg.tickers || u.orderId >= cfg.orderIds then s.(lastSeq := seqNum)
    else Synth(seqNum, s.orders[u.ticker := Absorb1(s.orders[u.ticker], u)])
  }

  /** The synthesizer after the whole stream `us`, numbered from 1. */
  function AbsorbAll(cfg: Config, us: seq<MarketUpdate>): (s: Synth)
    ensures |s.orders| == cfg.tickers
  {
    if us == [] then EmptySynth(cfg)
    else Absorb(cfg, AbsorbAll(cfg, us[..|us| - 1]), |us|, us[|us| - 1])
  }

  // ---------- the cycle ----------

  function Marker(kind: UpdateKind, orderId: nat): MarketUpdate {
    MarketUpdate(kind, INVALID_32, NoSide, INVALID_64, INVALID_32, orderId, INVALID_64)
  }

  /** A message about no book and no order: beside its kind only its number can mean anything. */
  ghost predicate Unaddressed(u: MarketUpdate) {
    && u.ticker == INVALID_32 && u.side == NoSide && u.price == INVALID_64 && u.qty == INVALID_32
    && u.priority == INVALID_64
  }

  /** The ADDs of one ticker's orders with ids below `n`, in id order. */
  function AddsBelow(m: map<nat, MarketUpdate>, n: nat): seq<MarketUpdate> {
    if n == 0 then []
    else AddsBelow(m, n - 1) + if n - 1 in m then [m[n - 1].(kind := Add)] else []
  }

  /** The ADDs of the first `k` tickers. */
  function AllAdds(orderIds: nat, orders: seq<map<nat, MarketUpdate>>, k: nat): seq<MarketUpdate>
    requires k <= |orders|
  {
    if k == 0 then [] else AllAdds(orderIds, orders, k - 1) + AddsBelow(orders[k - 1], orderIds)
  }

  /** What `publishSnapshot` sends. */
  function Cycle(cfg: Config, s: Synth): seq<MarketUpdate>
    requires |s.orders| == cfg.tickers
  {
    [Marker(Clear, INVALID_64), Marker(SnapshotStart, INVALID_64)]
    + AllAdds(cfg.orderIds, s.orders, cfg.tickers)
    + [Marker(SnapshotEnd, s.lastSeq)]
  }

  // ---------- table and book describe the same orders ----------

  /** What admissible updates preserve in a client book. */
  ghost predicate Tidy(cfg: Config, b: Book)
    requires cfg.Valid()
  {
    && TwoSided(b)
    && AliasFree(cfg.priceLevels, b)
    && (forall o, p | o in b.bids && p in b.asks :: o.price != p.price)
  }

  ghost predicate Mirrors(cfg: Config, ticker: nat, m: map<nat, MarketUpdate>, b: Book) {
    && (forall id | id in m ::
          && id < cfg.orderIds && m[id].orderId == id && m[id].ticker == ticker && m[id].side != NoSide
          && b.Has(ToOrder(m[id])))
    && (forall o | b.Has(o) :: o.id in m && ToOrder(m[o.id]) == o)
  }

  lemma {:induction false} AddHas(cfg: Config, b: Book, u: MarketUpdate)
    requires cfg.Valid() && u.kind == Add && u.orderId < cfg.orderIds && WellPlaced(cfg, b, u)
    ensures var c := Apply(cfg, b, u);
            && c == b.With(u.side, Insert(b.On(u.side), ToOrder(u)))
            && (forall y :: c.Has(y) <==> y == ToOrder(u) || b.Has(y))
  {
    var o, s := ToOrder(u), b.On(u.side);
    forall y ensures y in Insert(s, o) <==> y == o || y in s { InsertHas(s, o, y); }
  }

  lemma {:induction false} AddMirrors(cfg: Config, ticker: nat, m: map<nat, MarketUpdate>, b: Book, u: MarketUpdate)
    requires cfg.Valid() && Mirrors(cfg, ticker, m, b)
    requires u.kind == Add && u.ticker == ticker && u.orderId < cfg.orderIds && WellPlaced(cfg, b, u)
    ensures Mirrors(cfg, ticker, Absorb1(m, u), Apply(cfg, b, u))
  {
    AddHas(cfg, b, u);
    assert u.orderId !in m;
  }

  lemma {:induction false} AddTidy(cfg: Config, b: Book, u: MarketUpdate)
    requires cfg.Valid() && Tidy(cfg, b)
    requires u.kind == Add && u.orderId < cfg.orderIds && WellPlaced(cfg, b, u)
    ensures Tidy(cfg, Apply(cfg, b, u))
  {
    var o, s := ToOrder(u), b.On(u.side);
    AddHas(cfg, b, u);
    forall y ensures y in Insert(s, o) <==> y == o || y in s { InsertHas(s, o, y); }
    InsertSorted(u.side, s, o);
  }

  lemma {:induction false} ModifyHas(b: Book, id: nat, qty: nat, x: Order)
    ensures var c := Book(Requantify(b.bids, id, qty), Requantify(b.asks, id, qty));
            c.Has(x) <==> (b.Has(x) && x.id != id) ||
                          (x.id == id && x.qty == qty && exists y :: b.Has(y) && x == y.(qty := qty))
  {
    RequantifyHas(b.bids, id, qty, x);
    RequantifyHas(b.asks, id, qty, x);
    if x.id == id && x.qty == qty {
      if y :| b.Has(y) && x == y.(qty := qty) {
        assert y in b.bids || y in b.asks;
      }
      if y :| (y in b.bids || y in b.asks) && x == y.(qty := qty) {
        assert b.Has(y);
      }
    }
  }

  lemma {:induction false} ModifyMirrors(cfg: Config, ticker: nat, m: map<nat, MarketUpdate>, b: Book, u: MarketUpdate)
    requires cfg.Valid() && Mirrors(cfg, ticker, m, b)
    requires u.kind == Modify && u.orderId < cfg.orderIds
    ensures Mirrors(cfg, ticker, Absorb1(m, u), Apply(cfg, b, u))
  {
    var c, m' := Apply(cfg, b, u), Absorb1(m, u);
    var id := u.orderId;
    forall x ensures c.Has(x) <==> (b.Has(x) && x.id != id) ||
                                   (x.id == id && x.qty == u.qty && exists y :: b.Has(y) && x == y.(qty := u.qty)) {
      ModifyHas(b, id, u.qty, x);
    }
    if id in m {
      var y := ToOrder(m[id]);
      assert b.Has(y) && ToOrder(m'[id]) == y.(qty := u.qty);
      assert forall x | b.Has(x) && x.id == id :: x == y;
    }
    forall o | c.Has(o) ensures o.id in m' && ToOrder(m'[o.id]) == o {
      if o.id == id {
        var y :| b.Has(y) && o == y.(qty := u.qty);
      }
    }
  }

  /** Changing a quantity moves nothing. */
  lemma {:induction false} ModifyTidy(cfg: Config, b: Book, u: MarketUpdate)
    requires cfg.Valid() && Tidy(cfg, b) && u.kind == Modify
    ensures Tidy(cfg, Apply(cfg, b, u))
  {
    var c := Apply(cfg, b, u);
    if u.orderId < cfg.orderIds {
      RequantifySorted(Buy, b.bids, u.orderId, u.qty);
      RequantifySorted(Sell, b.asks, u.orderId, u.qty);
      RequantifyPrices(b.bids, u.orderId, u.qty);
      RequantifyPrices(b.asks, u.orderId, u.qty);
      assert forall x | c.Has(x) :: exists y :: b.Has(y) && y.price == x.price;
    }
  }

  lemma {:induction false} RequantifyPrices(s: seq<Order>, id: nat, qty: nat)
    ensures forall x | x in Requantify(s, id, qty) :: exists y :: y in s && y.price == x.price
  {
    forall x | x in Requantify(s, id, qty) ensures exists y :: y in s && y.price == x.price {
      RequantifyHas(s, id, qty, x);
    }
  }

  lemma {:induction false} CancelMirrors(cfg: Config, ticker: nat, m: map<nat, MarketUpdate>, b: Book, u: MarketUpdate)
    requires cfg.Valid() && Tidy(cfg, b) && Mirrors(cfg, ticker, m, b)
    requires u.kind == Cancel && u.orderId < cfg.orderIds
    ensures Mirrors(cfg, ticker, Absorb1(m, u), Apply(cfg, b, u)) && Tidy(cfg, Apply(cfg, b, u))
  {
    var c := Apply(cfg, b, u);
    forall x ensures c.Has(x) <==> b.Has(x) && x.id != u.orderId {
      RemoveHas(b.bids, u.orderId, x);
      RemoveHas(b.asks, u.orderId, x);
    }
    forall x ensures x in c.bids ==> x in b.bids { RemoveHas(b.bids, u.orderId, x); }
    forall x ensures x in c.asks ==> x in b.asks { RemoveHas(b.asks, u.orderId, x); }
    RemoveSorted(Buy, b.bids, u.orderId);
    RemoveSorted(Sell, b.asks, u.orderId);
  }

  ghost predicate AllMirror(cfg: Config, s: Synth, books: seq<Book>)
    requires cfg.Valid()
  {
    && |s.orders| == |books| == cfg.tickers
    && forall i | 0 <= i < |books| :: Mirrors(cfg, i, s.orders[i], books[i]) && Tidy(cfg, books[i])
  }

  lemma {:induction false} AbsorbMirrors(cfg: Config, s: Synth, books: seq<Book>, seqNum: nat, u: MarketUpdate)
    requires cfg.Valid() && AllMirror(cfg, s, books) && Admissible(cfg, books, u)
    ensures AllMirror(cfg, Absorb(cfg, s, seqNum, u), Dispatch(cfg, books, u))
  {
    if IndexesBook(u) && u.ticker < cfg.tickers && u.orderId < cfg.orderIds {
      var m, b := s.orders[u.ticker], books[u.ticker];
      if u.kind == Add {
        AddMirrors(cfg, u.ticker, m, b, u);
        AddTidy(cfg, b, u);
      } else if u.kind == Modify {
        ModifyMirrors(cfg, u.ticker, m, b, u);
        ModifyTidy(cfg, b, u);
      } else {
        CancelMirrors(cfg, u.ticker, m, b, u);
      }
    }
  }

  lemma {:induction false} ValidPrefix(cfg: Config, us: seq<MarketUpdate>, k: nat)
    requires cfg.Valid() && ValidStream(cfg, us) && k <= |us|
    ensures ValidStream(cfg, us[..k])
  {
    assert forall i | 0 <= i < k :: us[..k][..i] == us[..i];
  }

  lemma {:induction false} EmptyMirrors(cfg: Config)
    requires cfg.Valid()
    ensures AllMirror(cfg, AbsorbAll(cfg, []), Fold(cfg, [])) && AbsorbAll(cfg, []).lastSeq == 0
  {
  }

  lemma {:induction false} AbsorbLast(cfg: Config, s: Synth, seqNum: nat, u: MarketUpdate)
    requires |s.orders| == cfg.tickers
    ensures Absorb(cfg, s, seqNum, u).lastSeq == seqNum
  {
  }

  /** On every valid stream the synthesizer's table describes exactly the folded books. */
  lemma {:induction false} SynthMirrors(cfg: Config, us: seq<MarketUpdate>)
    requires cfg.Valid() && ValidStream(cfg, us)
    ensures AllMirror(cfg, AbsorbAll(cfg, us), Fold(cfg, us)) && AbsorbAll(cfg, us).lastSeq == |us|
  {
    hide AllMirror, Admissible, Dispatch, Absorb;
    if us == [] {
      EmptyMirrors(cfg);
    } else {
      var init, u := us[..|us| - 1], us[|us| - 1];
      ValidPrefix(cfg, us, |us| - 1);
      SynthMirrors(cfg, init);
      assert Admissible(cfg, Fold(cfg, init), u);
      AbsorbMirrors(cfg, AbsorbAll(cfg, init), Fold(cfg, init), |us|, u);
      AbsorbLast(cfg, AbsorbAll(cfg, init), |us|, u);
    }
  }

  // ---------- rebuilding ----------

  /** The orders of `b` with ids below `n`, in price-time order. */
  ghost predicate Partial(b: Book, n: nat, c: Book) {
    && TwoSided(c)
    && (forall o :: o in c.bids <==> o in b.bids && o.id < n)
    && (forall o :: o in c.asks <==> o in b.asks && o.id < n)
  }

  /** The next ADD of an image is well placed and extends the partial book. */
  lemma {:induction false} PartialStep(cfg: Config, ticker: nat, m: map<nat, MarketUpdate>, b: Book, n: nat, c: Book)
    requires cfg.Valid() && Tidy(cfg, b) && Mirrors(cfg, ticker, m, b) && Partial(b, n, c)
    requires n in m ==> n < cfg.orderIds
    ensures n !in m ==> Partial(b, n + 1, c)
    ensures n in m ==> var u := m[n].(kind := Add); WellPlaced(cfg, c, u) && Partial(b, n + 1, Apply(cfg, c, u))
  {
    if n in m {
      var u := m[n].(kind := Add);
      var o, s := ToOrder(u), c.On(u.side);
      assert ToOrder(m[n]) == o && b.Has(o);
      assert forall y | c.Has(y) :: b.Has(y);
      forall y ensures y in Insert(s, o) <==> y == o || y in s { InsertHas(s, o, y); }
      InsertSorted(u.side, s, o);
      assert forall y | b.Has(y) && y.id == n :: y == o;
      assert o.side == Buy <==> o in b.bids;
      assert Apply(cfg, c, u) == c.With(u.side, Insert(s, o));
    } else {
      assert forall o | b.Has(o) :: o.id != n;
    }
  }

  /** One ticker's ADDs, dispatched into books where it is empty, rebuild its book. */
  lemma {:induction false} RebuildTicker(cfg: Config, books: seq<Book>, ticker: nat, m: map<nat, MarketUpdate>,
                                         b: Book, n: nat)
    requires cfg.Valid() && |books| == cfg.tickers && ticker < cfg.tickers && books[ticker] == EMPTY_BOOK
    requires Tidy(cfg, b) && Mirrors(cfg, ticker, m, b) && n <= cfg.orderIds
    ensures var us := AddsBelow(m, n);
            var r := DispatchAll(cfg, books, us);
            && ValidFrom(cfg, books, us)
            && r == books[ticker := r[ticker]]
            && Partial(b, n, r[ticker])
  {
    hide Tidy, Mirrors, Partial, ValidFrom, DispatchAll, AddsBelow, WellPlaced, Apply;
    if n == 0 {
      RebuildNone(cfg, books, ticker, m, b);
    } else {
      RebuildTicker(cfg, books, ticker, m, b, n - 1);
      var us := AddsBelow(m, n - 1);
      var r := DispatchAll(cfg, books, us);
      PartialStep(cfg, ticker, m, b, n - 1, r[ticker]);
      if n - 1 in m {
        var u := m[n - 1].(kind := Add);
        MirrorTicker(cfg, ticker, m, b, n - 1);
        StreamAppend(cfg, books, us, u);
        assert Dispatch(cfg, r, u) == books[ticker := Apply(cfg, r[ticker], u)];
      }
      AddsNext(m, n);
    }
  }

  lemma {:induction false} RebuildNone(cfg: Config, books: seq<Book>, ticker: nat, m: map<nat, MarketUpdate>, b: Book)
    requires cfg.Valid() && |books| == cfg.tickers && ticker < cfg.tickers && books[ticker] == EMPTY_BOOK
    ensures AddsBelow(m, 0) == [] && ValidFrom(cfg, books, []) && DispatchAll(cfg, books, []) == books
    ensures books == books[ticker := books[ticker]] && Partial(b, 0, books[ticker])
  {
  }

  lemma {:induction false} MirrorTicker(cfg: Config, ticker: nat, m: map<nat, MarketUpdate>, b: Book, n: nat)
    requires Mirrors(cfg, ticker, m, b) && n in m
    ensures m[n].ticker == ticker && m[n].orderId == n
  {
  }

  lemma {:induction false} AddsNext(m: map<nat, MarketUpdate>, n: nat)
    requires 0 < n
    ensures AddsBelow(m, n)
         == if n - 1 in m then AddsBelow(m, n - 1) + [m[n - 1].(kind := Add)] else AddsBelow(m, n - 1)
  {
  }

  lemma {:induction false} PartialWhole(cfg: Config, ticker: nat, m: map<nat, MarketUpdate>, b: Book, c: Book)
    requires cfg.Valid() && Tidy(cfg, b) && Mirrors(cfg, ticker, m, b) && Partial(b, cfg.orderIds, c)
    ensures c == b
  {
    assert forall o | b.Has(o) :: o.id < cfg.orderIds;
    Canonical(Buy, c.bids, b.bids);
    Canonical(Sell, c.asks, b.asks);
  }

  /** The first `k` books, the others still empty. */
  function FirstBooks(books: seq<Book>, k: nat): seq<Book>
    requires k <= |books|
  {
    books[..k] + seq(|books| - k, _ => EMPTY_BOOK)
  }

  lemma {:induction false} RebuildNext(cfg: Config, s: Synth, books: seq<Book>, k: nat)
    requires cfg.Valid() && AllMirror(cfg, s, books) && k < cfg.tickers
    ensures var vs := AddsBelow(s.orders[k], cfg.orderIds);
            && DispatchAll(cfg, FirstBooks(books, k), vs) == FirstBooks(books, k + 1)
            && ValidFrom(cfg, FirstBooks(books, k), vs)
  {
    var before := FirstBooks(books, k);
    RebuildTicker(cfg, before, k, s.orders[k], books[k], cfg.orderIds);
    var r := DispatchAll(cfg, before, AddsBelow(s.orders[k], cfg.orderIds));
    PartialWhole(cfg, k, s.orders[k], books[k], r[k]);
    assert before[k := books[k]] == FirstBooks(books, k + 1);
  }

  /** `us` is a clean stream that takes empty books to `books`. */
  ghost predicate Rebuilds(cfg: Config, us: seq<MarketUpdate>, books: seq<Book>)
    requires cfg.Valid()
  {
    ValidStream(cfg, us) && Fold(cfg, us) == books
  }

  lemma {:induction false} RebuildsConcat(cfg: Config, us: seq<MarketUpdate>, mid: seq<Book>, vs: seq<MarketUpdate>,
          books: seq<Book>)
    requires cfg.Valid() && Rebuilds(cfg, us, mid)
    requires ValidFrom(cfg, mid, vs) && DispatchAll(cfg, mid, vs) == books
    ensures Rebuilds(cfg, us + vs, books)
  {
    DispatchConcat(cfg, EmptyBooks(cfg), us, vs);
    ValidConcat(cfg, EmptyBooks(cfg), us, vs);
  }

  lemma {:induction false} RebuildsNone(cfg: Config, books: seq<Book>)
    requires cfg.Valid() && |books| == cfg.tickers
    ensures Rebuilds(cfg, [], FirstBooks(books, 0))
  {
    assert FirstBooks(books, 0) == EmptyBooks(cfg);
  }

  /** Replaying the ADDs of an image into wiped books rebuilds every book exactly:
    * same price order, same time order within a price, same quantities.
    */
  lemma {:induction false} RebuildAll(cfg: Config, s: Synth, books: seq<Book>, k: nat)
    requires cfg.Valid() && AllMirror(cfg, s, books) && k <= cfg.tickers
    ensures Rebuilds(cfg, AllAdds(cfg.orderIds, s.orders, k), FirstBooks(books, k))
  {
    hide Mirrors, Tidy, Rebuilds, AddsBelow, FirstBooks;
    if k == 0 {
      RebuildsNone(cfg, books);
    } else {
      RebuildAll(cfg, s, books, k - 1);
      RebuildNext(cfg, s, books, k - 1);
      RebuildsConcat(cfg, AllAdds(cfg.orderIds, s.orders, k - 1), FirstBooks(books, k - 1),
                     AddsBelow(s.orders[k - 1], cfg.orderIds), FirstBooks(books, k));
    }
  }

  /** For every valid stream, the snapshot image rebuilds what the stream folds to. */
  lemma {:induction false} ImageRebuilds(cfg: Config, us: seq<MarketUpdate>)
    requires cfg.Valid() && ValidStream(cfg, us)
    ensures var adds := AllAdds(cfg.orderIds, AbsorbAll(cfg, us).orders, cfg.tickers);
            Rebuilds(cfg, adds, Fold(cfg, us))
  {
    SynthMirrors(cfg, us);
    RebuildAll(cfg, AbsorbAll(cfg, us), Fold(cfg, us), cfg.tickers);
    assert FirstBooks(Fold(cfg, us), cfg.tickers) == Fold(cfg, us);
  }

  lemma {:induction false} AddsAreAdds(orderIds: nat, orders: seq<map<nat, MarketUpdate>>, k: nat)
    requires k <= |orders|
    ensures forall u | u in AllAdds(orderIds, orders, k) :: u.kind == Add
  {
    hide AddsBelow;
    if k > 0 {
      AddsAreAdds(orderIds, orders, k - 1);
      AddsBelowAreAdds(orders[k - 1], orderIds);
    }
  }

  lemma {:induction false} AddsBelowAreAdds(m: map<nat, MarketUpdate>, n: nat)
    ensures forall u | u in AddsBelow(m, n) :: u.kind == Add
  {
    if n > 0 {
      AddsBelowAreAdds(m, n - 1);
    }
  }

  /** One entry of an image before another: by ticker, then by order id. */
  predicate Precedes(u: MarketUpdate, v: MarketUpdate) {
    u.ticker < v.ticker || (u.ticker == v.ticker && u.orderId < v.orderId)
  }

  ghost predicate Ascending(us: seq<MarketUpdate>) {
    forall i, j | 0 <= i < j < |us| :: Precedes(us[i], us[j])
  }

  lemma {:induction false} AscendingConcat(us: seq<MarketUpdate>, vs: seq<MarketUpdate>)
    requires Ascending(us) && Ascending(vs) && forall u, v | u in us && v in vs :: Precedes(u, v)
    ensures Ascending(us + vs)
  {
    var all := us + vs;
    forall i, j | 0 <= i < j < |all| ensures Precedes(all[i], all[j]) {
      if j < |us| {
        assert all[i] == us[i] && all[j] == us[j];
      } else if i >= |us| {
        assert all[i] == vs[i - |us|] && all[j] == vs[j - |us|];
      } else {
        assert all[i] in us && all[j] in vs;
      }
    }
  }

  lemma {:induction false} TickerAscends(cfg: Config, ticker: nat, m: map<nat, MarketUpdate>, b: Book, n: nat)
    requires Mirrors(cfg, ticker, m, b)
    ensures Ascending(AddsBelow(m, n))
    ensures forall u | u in AddsBelow(m, n) :: u.ticker == ticker && u.orderId < n
  {
    hide Mirrors;
    if n > 0 {
      TickerAscends(cfg, ticker, m, b, n - 1);
      if n - 1 in m {
        MirrorTicker(cfg, ticker, m, b, n - 1);
        AscendingConcat(AddsBelow(m, n - 1), [m[n - 1].(kind := Add)]);
      }
    }
  }

  lemma {:induction false} AllAscend(cfg: Config, s: Synth, books: seq<Book>, k: nat)
    requires cfg.Valid() && AllMirror(cfg, s, books) && k <= cfg.tickers
    ensures Ascending(AllAdds(cfg.orderIds, s.orders, k))
    ensures forall u | u in AllAdds(cfg.orderIds, s.orders, k) :: u.ticker < k
  {
    hide Mirrors, Tidy, AddsBelow, Ascending;
    if k == 0 {
      NothingAscends();
    } else {
      AllAscend(cfg, s, books, k - 1);
      TickerAscends(cfg, k - 1, s.orders[k - 1], books[k - 1], cfg.orderIds);
      AscendingConcat(AllAdds(cfg.orderIds, s.orders, k - 1), AddsBelow(s.orders[k - 1], cfg.orderIds));
    }
  }

  lemma {:induction false} NothingAscends()
    ensures Ascending([])
  {
  }

  /** For every valid stream the image lists the live orders by ticker and, within one, by order id. */
  lemma {:induction false} ImageAscends(cfg: Config, us: seq<MarketUpdate>)
    requires cfg.Valid() && ValidStream(cfg, us)
    ensures Ascending(AllAdds(cfg.orderIds, AbsorbAll(cfg, us).orders, cfg.tickers))
  {
    hide AllMirror, Ascending, AllAdds;
    SynthMirrors(cfg, us);
    AllAscend(cfg, AbsorbAll(cfg, us), Fold(cfg, us), cfg.tickers);
  }
}
