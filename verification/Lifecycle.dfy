/** The life of one order, told by everything the exchange sends: the responses that
  * carry its market order id and the market updates that name it, over every run.
  */
module Lifecycle {
  import opened Types
  import opened PriceTime
  import opened Exchange
  import opened Soundness
  import opened Matching
  import L = Levels

  /** What was said about one market order id of one ticker: how often it was accepted
    * and for how much, how much of it was filled, how often it was canceled, and how
    * often a CANCEL update named it and with how much.
    */
  datatype Tally = Tally(accepted: nat, ordered: nat, filled: nat, canceled: nat, cancels: nat, cancelQty: nat) {
    function Plus(u: Tally): Tally {
      Tally(accepted + u.accepted, ordered + u.ordered, filled + u.filled,
            canceled + u.canceled, cancels + u.cancels, cancelQty + u.cancelQty)
    }
  }

  function Nothing(): Tally {
    Tally(0, 0, 0, 0, 0, 0)
  }

  function OfResponse(ticker: nat, m: nat, r: Response): Tally {
    if r.ticker != ticker || r.marketOrderId != m then Nothing()
    else match r.kind
      case Accepted => Nothing().(accepted := 1, ordered := r.leavesQty)
      case Filled => Nothing().(filled := r.execQty)
      case Canceled => Nothing().(canceled := 1)
      case _ => Nothing()
  }

  function OfUpdate(ticker: nat, m: nat, u: MarketUpdate): Tally {
    if u.kind == Cancel && u.ticker == ticker && u.orderId == m then Nothing().(cancels := 1, cancelQty := u.qty)
    else Nothing()
  }

  function Told(ticker: nat, m: nat, rs: seq<Response>): Tally {
    if rs == [] then Nothing()
    else Told(ticker, m, rs[..|rs| - 1]).Plus(OfResponse(ticker, m, rs[|rs| - 1]))
  }

  function Shown(ticker: nat, m: nat, us: seq<MarketUpdate>): Tally {
    if us == [] then Nothing()
    else Shown(ticker, m, us[..|us| - 1]).Plus(OfUpdate(ticker, m, us[|us| - 1]))
  }

  function TallyOf(ticker: nat, m: nat, e: Effects): Tally {
    Told(ticker, m, e.responses).Plus(Shown(ticker, m, e.updates))
  }

  /** The quantity that rests under a market order id. */
  function Under(s: seq<Order>, m: nat): nat {
    if s == [] then 0 else (if s[0].id == m then s[0].qty else 0) + Under(s[1..], m)
  }

  function RestingQty(b: Book, m: nat): nat {
    Under(b.bids, m) + Under(b.asks, m)
  }

  // ---------- the three things that happen to an order ----------

  /** Trades took it from `u` resting down to `v`; taking the last of it is shown as a CANCEL. */
  ghost predicate Consumed(d: Tally, u: nat, v: nat) {
    && d.accepted == d.ordered == d.canceled == 0
    && d.filled + v == u
    && d.cancels == (if 0 < u && v == 0 then 1 else 0)
    && (d.cancels == 0 <==> d.cancelQty == 0)
  }

  /** It came in with `qty`, and `v` of it came to rest. */
  ghost predicate Entered(d: Tally, qty: nat, v: nat) {
    v <= qty && d == Tally(1, qty, qty - v, 0, 0, 0)
  }

  /** All of it, `u`, was taken out on request, and the CANCEL update says how much that was. */
  ghost predicate TakenOut(d: Tally, u: nat, v: nat) {
    0 < u && v == 0 && d == Tally(0, 0, 0, 1, 1, u)
  }

  /** An accepted order, of which `q` rests. */
  ghost predicate Accounted(t: Tally, q: nat) {
    && t.accepted == 1
    && t.ordered == t.filled + q + (if t.canceled == 0 then 0 else t.cancelQty)
    && t.canceled <= t.cancels <= 1
    && (t.cancels == 1 ==> q == 0)
    && (t.cancels == 0 <==> t.cancelQty == 0)
  }

  /** Market order ids count up from 1; the next one has not been used. */
  ghost predicate Life(t: Tally, nextId: nat, m: nat, q: nat) {
    if 0 < m < nextId then Accounted(t, q) else t == Nothing() && q == 0
  }

  // ---------- sums ----------

  lemma {:induction false} PlusLaws(a: Tally, b: Tally, c: Tally)
    ensures a.Plus(b).Plus(c) == a.Plus(b.Plus(c)) && a.Plus(Nothing()) == Nothing().Plus(a) == a
            && a.Plus(b) == b.Plus(a)
  {
  }

  lemma {:induction false} ToldConcat(ticker: nat, m: nat, rs: seq<Response>, qs: seq<Response>)
    ensures Told(ticker, m, rs + qs) == Told(ticker, m, rs).Plus(Told(ticker, m, qs))
  {
    hide Tally.Plus, OfResponse;
    if qs == [] {
      assert rs + qs == rs;
      PlusLaws(Told(ticker, m, rs), Nothing(), Nothing());
    } else {
      var last := OfResponse(ticker, m, qs[|qs| - 1]);
      assert (rs + qs)[..|rs + qs| - 1] == rs + qs[..|qs| - 1];
      ToldConcat(ticker, m, rs, qs[..|qs| - 1]);
      PlusLaws(Told(ticker, m, rs), Told(ticker, m, qs[..|qs| - 1]), last);
    }
  }

  lemma {:induction false} ShownConcat(ticker: nat, m: nat, us: seq<MarketUpdate>, vs: seq<MarketUpdate>)
    ensures Shown(ticker, m, us + vs) == Shown(ticker, m, us).Plus(Shown(ticker, m, vs))
  {
    hide Tally.Plus, OfUpdate;
    if vs == [] {
      assert us + vs == us;
      PlusLaws(Shown(ticker, m, us), Nothing(), Nothing());
    } else {
      var last := OfUpdate(ticker, m, vs[|vs| - 1]);
      assert (us + vs)[..|us + vs| - 1] == us + vs[..|vs| - 1];
      ShownConcat(ticker, m, us, vs[..|vs| - 1]);
      PlusLaws(Shown(ticker, m, us), Shown(ticker, m, vs[..|vs| - 1]), last);
    }
  }

  lemma {:induction false} TallyThen(ticker: nat, m: nat, e: Effects, f: Effects)
    ensures TallyOf(ticker, m, e.Then(f)) == TallyOf(ticker, m, e).Plus(TallyOf(ticker, m, f))
  {
    hide Told, Shown;
    ToldConcat(ticker, m, e.responses, f.responses);
    ShownConcat(ticker, m, e.updates, f.updates);
  }

  lemma {:induction false} EmptyTally(ticker: nat, m: nat)
    ensures Told(ticker, m, []) == Shown(ticker, m, []) == Nothing()
  {
  }

  lemma {:induction false} OneTold(ticker: nat, m: nat, r: Response)
    ensures Told(ticker, m, [r]) == OfResponse(ticker, m, r)
  {
    hide OfResponse;
    assert [r][..0] == [];
  }

  lemma {:induction false} OneShown(ticker: nat, m: nat, u: MarketUpdate)
    ensures Shown(ticker, m, [u]) == OfUpdate(ticker, m, u)
  {
    hide OfUpdate;
    assert [u][..0] == [];
  }

  /** One response and one update, or fewer. */
  lemma {:induction false} TallyFew(ticker: nat, m: nat, e: Effects)
    requires |e.responses| <= 1 && |e.updates| <= 1
    ensures var d := if e.responses == [] then Nothing() else OfResponse(ticker, m, e.responses[0]);
            var u := if e.updates == [] then Nothing() else OfUpdate(ticker, m, e.updates[0]);
            TallyOf(ticker, m, e) == d.Plus(u)
  {
    hide OfResponse, OfUpdate, Told, Shown, Tally.Plus;
    if e.responses == [] {
      EmptyTally(ticker, m);
    } else {
      OneTold(ticker, m, e.responses[0]);
      assert e.responses == [e.responses[0]];
    }
    if e.updates == [] {
      EmptyTally(ticker, m);
    } else {
      OneShown(ticker, m, e.updates[0]);
      assert e.updates == [e.updates[0]];
    }
  }

  lemma {:induction false} UnderNone(s: seq<Order>, m: nat)
    requires forall o | o in s :: o.id != m
    ensures Under(s, m) == 0
  {
    if s != [] {
      assert s[0] in s;
      UnderNone(s[1..], m);
    }
  }

  lemma {:induction false} UnderOne(s: seq<Order>, o: Order)
    requires o in s && L.DistinctIds(s)
    ensures Under(s, o.id) == o.qty
  {
    if s[0] == o {
      forall p | p in s[1..] ensures p.id != o.id {
        var i :| 0 <= i < |s[1..]| && s[1..][i] == p;
        assert p == s[i + 1];
      }
      UnderNone(s[1..], o.id);
    } else {
      var i :| 0 < i < |s| && s[i] == o;
      assert s[1..][i - 1] == o;
      assert s[0].id != s[i].id;
      UnderOne(s[1..], o);
    }
  }

  lemma {:induction false} UnderInsert(s: seq<Order>, o: Order, m: nat)
    ensures Under(Insert(s, o), m) == Under(s, m) + if o.id == m then o.qty else 0
  {
    if s != [] && !Better(o.side, o.price, s[0].price) {
      UnderInsert(s[1..], o, m);
    }
  }

  lemma {:induction false} UnderRemove(s: seq<Order>, id: nat, m: nat)
    ensures Under(Remove(s, id), m) == if id == m then 0 else Under(s, m)
  {
    if s != [] {
      UnderRemove(s[1..], id, m);
      if s[0].id == id {
        assert Remove(s, id) == Remove(s[1..], id);
      }
    }
  }

  // ---------- the sweep ----------

  lemma {:induction false} MatchTally(t: Taker, maker: Order, leaves: nat, m: nat)
    requires t.id != maker.id
    ensures var d, fill := TallyOf(t.ticker, m, MatchEffects(t, maker, leaves)), Min(leaves, maker.qty);
            if m == t.id then d == Nothing().(filled := fill)
            else if m != maker.id then d == Nothing()
            else if fill == maker.qty then d == Nothing().(filled := fill, cancels := 1, cancelQty := maker.qty)
            else d == Nothing().(filled := fill)
  {
    hide TallyOf, MatchEffects, TakerEffects, MakerEffects, Effects.Then, Tally.Plus;
    var fill := Min(leaves, maker.qty);
    var d, e := TallyOf(t.ticker, m, TakerEffects(t, maker.price, fill, leaves - fill)),
                TallyOf(t.ticker, m, MakerEffects(t.ticker, maker, fill));
    MatchSplit(t, maker, leaves);
    TallyThen(t.ticker, m, TakerEffects(t, maker.price, fill, leaves - fill), MakerEffects(t.ticker, maker, fill));
    TakerSays(t, maker.price, fill, leaves - fill, m);
    MakerSays(t.ticker, maker, fill, m);
    PlusLaws(d, Nothing(), Nothing());
    PlusLaws(e, Nothing(), Nothing());
  }

  /** What a match says of the taker. */
  function TakerEffects(t: Taker, price: nat, fill: nat, left: nat): Effects {
    Effects([TakerFill(t, price, fill, left)], [TradeUpdate(t, price, fill)])
  }

  /** What a match says of the maker. */
  function MakerEffects(ticker: nat, maker: Order, fill: nat): Effects
    requires fill <= maker.qty
  {
    Effects([MakerFill(ticker, maker, fill, maker.qty - fill)],
            [if fill == maker.qty then OrderUpdate(Cancel, ticker, maker)
             else OrderUpdate(Modify, ticker, maker.(qty := maker.qty - fill))])
  }

  lemma {:induction false} MatchSplit(t: Taker, maker: Order, leaves: nat)
    ensures var fill := Min(leaves, maker.qty);
            MatchEffects(t, maker, leaves)
            == TakerEffects(t, maker.price, fill, leaves - fill).Then(MakerEffects(t.ticker, maker, fill))
  {
    hide TakerFill, MakerFill, TradeUpdate, OrderUpdate;
  }

  lemma {:induction false} TakerSays(t: Taker, price: nat, fill: nat, left: nat, m: nat)
    ensures var d := TallyOf(t.ticker, m, TakerEffects(t, price, fill, left));
            if m == t.id then d == Nothing().(filled := fill) else d == Nothing()
  {
    hide TallyOf;
    TallyFew(t.ticker, m, TakerEffects(t, price, fill, left));
  }

  lemma {:induction false} MakerSays(ticker: nat, maker: Order, fill: nat, m: nat)
    requires fill <= maker.qty
    ensures var d := TallyOf(ticker, m, MakerEffects(ticker, maker, fill));
            if m != maker.id then d == Nothing()
            else if fill == maker.qty then d == Nothing().(filled := fill, cancels := 1, cancelQty := maker.qty)
            else d == Nothing().(filled := fill)
  {
    hide TallyOf;
    TallyFew(ticker, m, MakerEffects(ticker, maker, fill));
  }

  lemma {:induction false} AfterMatchDistinct(opp: seq<Order>, leaves: nat)
    requires opp != [] && L.DistinctIds(opp)
    ensures L.DistinctIds(AfterMatch(opp, leaves))
    ensures forall i | 0 < i < |opp| :: opp[i].id != opp[0].id
  {
  }

  /** One match, as the tally of a maker's id shows it. */
  lemma {:induction false} MatchConsumes(t: Taker, opp: seq<Order>, leaves: nat, m: nat)
    requires opp != [] && L.DistinctIds(opp) && m != t.id && opp[0].id != t.id && 0 < leaves && 0 < opp[0].qty
    ensures Consumed(TallyOf(t.ticker, m, MatchEffects(t, opp[0], leaves)),
                     Under(opp, m), Under(AfterMatch(opp, leaves), m))
  {
    MatchTally(t, opp[0], leaves, m);
    AfterMatchDistinct(opp, leaves);
    if m == opp[0].id {
      forall o | o in opp[1..] ensures o.id != m {
        var i :| 0 <= i < |opp[1..]| && opp[1..][i] == o;
        assert o == opp[i + 1];
      }
      UnderNone(opp[1..], m);
    }
    var rest := AfterMatch(opp, leaves);
    assert opp[0].qty > leaves ==> rest[1..] == opp[1..];
  }

  lemma {:induction false} ConsumedTwice(d: Tally, e: Tally, u: nat, v: nat, w: nat)
    requires Consumed(d, u, v) && Consumed(e, v, w)
    ensures Consumed(d.Plus(e), u, w)
  {
  }

  lemma {:induction false} SweepStops(t: Taker, opp: seq<Order>, leaves: nat)
    requires leaves == 0 || opp == [] || !Crosses(t.side, t.price, opp[0].price)
    ensures var s := Sweep(t, opp, leaves);
            s.rest == opp && s.leaves == leaves && s.effects.responses == [] && s.effects.updates == []
  {
  }

  lemma {:induction false} NothingConsumed(ticker: nat, m: nat, e: Effects, u: nat)
    requires e.responses == [] && e.updates == []
    ensures TallyOf(ticker, m, e) == Nothing() && Consumed(TallyOf(ticker, m, e), u, u)
  {
    hide Told, Shown, Tally.Plus, Consumed;
    EmptyTally(ticker, m);
    PlusLaws(Nothing(), Nothing(), Nothing());
    StaysConsumed(u);
  }

  lemma {:induction false} StaysConsumed(u: nat)
    ensures Consumed(Nothing(), u, u)
  {
  }

  /** A match leaves live makers of other ids, and less to do. */
  lemma {:induction false} AfterMatchLive(t: Taker, opp: seq<Order>, leaves: nat)
    requires 0 < leaves && opp != [] && forall o | o in opp :: 0 < o.qty && o.id != t.id
    ensures 0 < opp[0].qty && opp[0].id != t.id
    ensures forall o | o in AfterMatch(opp, leaves) :: 0 < o.qty && o.id != t.id
    ensures leaves - Min(leaves, opp[0].qty) + |AfterMatch(opp, leaves)| < leaves + |opp|
  {
    assert opp[0] in opp && forall o | o in opp[1..] :: o in opp;
  }

  /** A sweep consumes makers, and nothing under any other id. */
  lemma {:induction false} SweepConsumes(t: Taker, opp: seq<Order>, leaves: nat, m: nat)
    requires L.DistinctIds(opp) && m != t.id && forall o | o in opp :: 0 < o.qty && o.id != t.id
    ensures var s := Sweep(t, opp, leaves);
            Consumed(TallyOf(t.ticker, m, s.effects), Under(opp, m), Under(s.rest, m))
    decreases leaves + |opp|
  {
    hide TallyOf, Under, MatchEffects, Sweep, Consumed, AfterMatch, Effects.Then;
    if leaves == 0 || opp == [] || !Crosses(t.side, t.price, opp[0].price) {
      SweepStops(t, opp, leaves);
      NothingConsumed(t.ticker, m, Sweep(t, opp, leaves).effects, Under(opp, m));
    } else {
      SweepStep(t, opp, leaves);
      var rest, left := AfterMatch(opp, leaves), leaves - Min(leaves, opp[0].qty);
      AfterMatchDistinct(opp, leaves);
      AfterMatchLive(t, opp, leaves);
      MatchConsumes(t, opp, leaves, m);
      SweepConsumes(t, rest, left, m);
      var d, e := MatchEffects(t, opp[0], leaves), Sweep(t, rest, left).effects;
      TallyThen(t.ticker, m, d, e);
      ConsumedTwice(TallyOf(t.ticker, m, d), TallyOf(t.ticker, m, e), Under(opp, m), Under(rest, m),
                    Under(Sweep(t, rest, left).rest, m));
    }
  }

  /** The taker's own id sees what the sweep filled. */
  lemma {:induction false} SweepFills(t: Taker, opp: seq<Order>, leaves: nat)
    requires forall o | o in opp :: 0 < o.qty && o.id != t.id
    ensures var s := Sweep(t, opp, leaves);
            s.leaves <= leaves && TallyOf(t.ticker, t.id, s.effects) == Nothing().(filled := leaves - s.leaves)
    ensures Under(Sweep(t, opp, leaves).rest, t.id) == 0
    decreases leaves + |opp|
  {
    hide TallyOf, MatchEffects, Under, Sweep, AfterMatch, Effects.Then;
    if leaves == 0 || opp == [] || !Crosses(t.side, t.price, opp[0].price) {
      SweepStops(t, opp, leaves);
      NothingConsumed(t.ticker, t.id, Sweep(t, opp, leaves).effects, 0);
      UnderNone(opp, t.id);
    } else {
      SweepStep(t, opp, leaves);
      var rest, left := AfterMatch(opp, leaves), leaves - Min(leaves, opp[0].qty);
      AfterMatchLive(t, opp, leaves);
      MatchTally(t, opp[0], leaves, t.id);
      SweepFills(t, rest, left);
      TallyThen(t.ticker, t.id, MatchEffects(t, opp[0], leaves), Sweep(t, rest, left).effects);
    }
  }

  // ---------- the two requests ----------

  /** Ids on the book are below the counter. */
  lemma {:induction false} FreshId(cfg: Config, x: XBook, m: nat)
    requires cfg.Valid() && Sound(cfg, x) && x.nextId <= m
    ensures Under(x.book.bids, m) == Under(x.book.asks, m) == 0
  {
    forall o | x.book.Has(o) ensures o.id != m {
      assert Proper(cfg, x.nextId, o);
    }
    UnderNone(x.book.bids, m);
    UnderNone(x.book.asks, m);
  }

  /** What settling leaves under an id: the swept side, the other side, and the remainder. */
  lemma {:induction false} SettleUnder(b: Book, t: Taker, qty: nat, s: Swept, m: nat)
    requires t.side != NoSide
    ensures RestingQty(Settle(b, t, qty, s).x.book, m)
         == Under(s.rest, m) + Under(b.On(t.side), m) + if t.id == m then s.leaves else 0
  {
    hide Insert;
    var swept := b.With(Opposite(t.side), s.rest);
    if s.leaves > 0 {
      UnderInsert(swept.On(t.side), Remainder(t, swept, s.leaves), m);
    }
  }

  /** The messages of a settlement: the acceptance, the sweep's, and an ADD that does not count. */
  lemma {:induction false} SettleTally(b: Book, t: Taker, qty: nat, s: Swept, m: nat)
    ensures var d, e := TallyOf(t.ticker, m, Settle(b, t, qty, s).effects), TallyOf(t.ticker, m, s.effects);
            if t.id == m then d == Nothing().(accepted := 1, ordered := qty).Plus(e) else d == e
  {
    hide TallyOf, Effects.Then, Remainder, OfResponse, OfUpdate, Rested, Tally.Plus;
    var accepted := Effects([Acceptance(t, qty)], []);
    var o := Remainder(t, b.With(Opposite(t.side), s.rest), s.leaves);
    var add := Effects([], [OrderUpdate(Add, t.ticker, o)]);
    SettleSays(t, qty, o, m);
    TallyFew(t.ticker, m, accepted);
    TallyFew(t.ticker, m, add);
    TallyThen(t.ticker, m, accepted, s.effects);
    TallyThen(t.ticker, m, accepted.Then(s.effects), add);
    PlusLaws(OfResponse(t.ticker, m, Acceptance(t, qty)), Nothing(), Nothing());
    PlusLaws(TallyOf(t.ticker, m, accepted.Then(s.effects)), Nothing(), Nothing());
    PlusLaws(TallyOf(t.ticker, m, s.effects), Nothing(), Nothing());
  }

  lemma {:induction false} SettleSays(t: Taker, qty: nat, o: Order, m: nat)
    ensures var a := OfResponse(t.ticker, m, Acceptance(t, qty));
            if t.id == m then a == Nothing().(accepted := 1, ordered := qty) else a == Nothing()
    ensures OfUpdate(t.ticker, m, OrderUpdate(Add, t.ticker, o)) == Nothing()
  {
  }

  /** An accepted NEW enters under the next id and consumes under the others. */
  lemma {:induction false} AddTally(cfg: Config, x: XBook, t: Taker, qty: nat, m: nat)
    requires cfg.Valid() && Sound(cfg, x) && t.side != NoSide && t.id == x.nextId
    ensures var out := Settle(x.book, t, qty, Sweep(t, x.book.On(Opposite(t.side)), qty));
            var d, v := TallyOf(t.ticker, m, out.effects), RestingQty(out.x.book, m);
            if m == x.nextId then Entered(d, qty, v) else Consumed(d, RestingQty(x.book, m), v)
  {
    hide TallyOf, Settle, Sound, Sweep, Under, Consumed, L.DistinctIds, Sorted;
    var opp := x.book.On(Opposite(t.side));
    var s := Sweep(t, opp, qty);
    SoundSide(cfg, x, Opposite(t.side));
    forall o | o in opp ensures 0 < o.qty && o.id != t.id {
      BelowCounter(cfg, x, o);
    }
    SettleTally(x.book, t, qty, s, m);
    SettleUnder(x.book, t, qty, s, m);
    if m == t.id {
      SweepFills(t, opp, qty);
      FreshId(cfg, x, m);
    } else {
      SweepConsumes(t, opp, qty, m);
      ConsumedAside(TallyOf(t.ticker, m, s.effects), Under(opp, m), Under(s.rest, m), Under(x.book.On(t.side), m));
      OneSideUnder(cfg, x, Opposite(t.side), m);
    }
  }

  lemma {:induction false} BelowCounter(cfg: Config, x: XBook, o: Order)
    requires cfg.Valid() && Sound(cfg, x) && x.book.Has(o)
    ensures 0 < o.qty && o.id < x.nextId
  {
    assert Proper(cfg, x.nextId, o);
  }

  /** A book has an id on one side only. */
  lemma {:induction false} OneSideUnder(cfg: Config, x: XBook, side: Side, m: nat)
    requires cfg.Valid() && Sound(cfg, x) && side != NoSide
    ensures Under(x.book.On(side), m) == 0 || Under(x.book.On(Opposite(side)), m) == 0
  {
    hide AliasFree, Uncrossed, Prioritised;
    if o :| o in x.book.On(side) && o.id == m {
      forall p | p in x.book.On(Opposite(side)) ensures p.id != m {
        assert x.book.Has(o) && x.book.Has(p);
        assert o.side == side && p.side == Opposite(side);
      }
      UnderNone(x.book.On(Opposite(side)), m);
    } else {
      UnderNone(x.book.On(side), m);
    }
  }

  /** What a side holds beside a consumed one. */
  lemma {:induction false} ConsumedAside(d: Tally, u: nat, v: nat, w: nat)
    requires Consumed(d, u, v)
    ensures w == 0 || u == 0 ==> Consumed(d, u + w, v + w)
  {
  }

  /** An accepted CANCEL takes out the order of its id, and leaves every other as it is. */
  lemma {:induction false} CancelTally(cfg: Config, x: XBook, ticker: nat, owner: Owner, m: nat)
    requires cfg.Valid() && Sound(cfg, x)
    ensures var out := CancelOrder(x, ticker, owner);
            var d, u, v := TallyOf(ticker, m, out.effects), RestingQty(x.book, m), RestingQty(out.x.book, m);
            if d.canceled == 0 then Consumed(d, u, v) && d == Nothing() else TakenOut(d, u, v)
  {
    hide TallyOf, Sound, Lookup, Under, Remove;
    var out := CancelOrder(x, ticker, owner);
    TallyFew(ticker, m, out.effects);
    match Lookup(x.book, owner)
    case None =>
    case Some(o) =>
      FoundSide(cfg, x, owner);
      UnderRemove(x.book.On(o.side), o.id, m);
      if m == o.id {
        UnderOne(x.book.On(o.side), o);
        OneSideUnder(cfg, x, o.side, m);
      }
  }

  lemma {:induction false} FoundSide(cfg: Config, x: XBook, owner: Owner)
    requires cfg.Valid() && Sound(cfg, x) && Lookup(x.book, owner).Some?
    ensures var o := Lookup(x.book, owner).value;
            o.side != NoSide && o in x.book.On(o.side) && 0 < o.qty && L.DistinctIds(x.book.On(o.side))
  {
    hide Sound, Lookup, L.DistinctIds;
    LookupHas(x.book, owner);
    SoundSide(cfg, x, Buy);
    SoundSide(cfg, x, Sell);
  }

  // ---------- which orders a request uses up ----------

  /** The quantity of `t` covers the order at `i` and every one before it, all within its limit. */
  ghost predicate Covers(t: Taker, opp: seq<Order>, qty: nat, i: nat)
    requires i < |opp|
  {
    TotalQty(opp[..i + 1]) <= qty && forall j | 0 <= j <= i :: Crosses(t.side, t.price, opp[j].price)
  }

  lemma {:induction false} TotalQtyGrows(s: seq<Order>, i: nat, j: nat)
    requires i <= j <= |s|
    ensures TotalQty(s[..i]) <= TotalQty(s[..j])
    decreases j
  {
    if i < j {
      TotalQtyGrows(s, i, j - 1);
      assert s[..j] == s[..j - 1] + [s[j - 1]];
      TotalQtyAppend(s[..j - 1], s[j - 1]);
    }
  }

  /** A greedy allocation fills exactly the orders its quantity covers. */
  lemma {:induction false} GreedyCovers(t: Taker, opp: seq<Order>, qty: nat, n: nat, part: nat, s: Swept, i: nat)
    requires Greedy(t, opp, qty, n, part, s) && i < |opp| && forall o | o in opp :: 0 < o.qty
    ensures i < n <==> Covers(t, opp, qty, i)
  {
    hide GreedyReports, TotalQty;
    if i < n {
      TotalQtyGrows(opp, i + 1, n);
    } else {
      TotalQtyGrows(opp, n + 1, i + 1);
      assert opp[..n + 1] == opp[..n] + [opp[n]] && opp[n] in opp;
      TotalQtyAppend(opp[..n], opp[n]);
    }
  }

  /** What is left at `j` is what was at `n + j`, with something left of it. */
  lemma {:induction false} GreedyRestAt(t: Taker, opp: seq<Order>, qty: nat, n: nat, part: nat, s: Swept, j: nat)
    requires Greedy(t, opp, qty, n, part, s) && j < |s.rest| && forall o | o in opp :: 0 < o.qty
    ensures |s.rest| == |opp| - n && s.rest[j].id == opp[n + j].id && 0 < s.rest[j].qty
  {
    hide GreedyReports, TotalQty;
    assert opp[n + j] in opp;
  }

  lemma {:induction false} GreedyRestLength(t: Taker, opp: seq<Order>, qty: nat, n: nat, part: nat, s: Swept)
    requires Greedy(t, opp, qty, n, part, s)
    ensures n <= |opp| && |s.rest| == |opp| - n
  {
    hide GreedyReports, TotalQty;
  }

  /** What the allocation leaves under the id of the order at `i`. */
  lemma {:induction false} GreedyLeaves(t: Taker, opp: seq<Order>, qty: nat, n: nat, part: nat, s: Swept, i: nat)
    requires Greedy(t, opp, qty, n, part, s) && i < |opp| && L.DistinctIds(opp) && forall o | o in opp :: 0 < o.qty
    ensures Under(s.rest, opp[i].id) == 0 <==> i < n
  {
    hide Greedy, Under;
    GreedyRestLength(t, opp, qty, n, part, s);
    if i < n {
      forall o | o in s.rest ensures o.id != opp[i].id {
        var j :| 0 <= j < |s.rest| && s.rest[j] == o;
        GreedyRestAt(t, opp, qty, n, part, s, j);
        assert opp[i].id != opp[n + j].id;
      }
      UnderNone(s.rest, opp[i].id);
    } else {
      GreedyRestAt(t, opp, qty, n, part, s, i - n);
      forall a, b | 0 <= a < b < |s.rest| ensures s.rest[a].id != s.rest[b].id {
        GreedyRestAt(t, opp, qty, n, part, s, a);
        GreedyRestAt(t, opp, qty, n, part, s, b);
        assert opp[n + a].id != opp[n + b].id;
      }
      UnderOne(s.rest, s.rest[i - n]);
    }
  }

  /** A sweep shows the order at `i` as canceled exactly when its quantity covers it. */
  lemma {:induction false} SweepUsesUp(t: Taker, opp: seq<Order>, qty: nat, i: nat)
    requires i < |opp| && L.DistinctIds(opp) && forall o | o in opp :: 0 < o.qty && o.id != t.id
    ensures var d := TallyOf(t.ticker, opp[i].id, Sweep(t, opp, qty).effects);
            d.canceled == 0 && d.cancels == if Covers(t, opp, qty, i) then 1 else 0
  {
    hide Sweep, TallyOf, Greedy, Covers, Under, L.DistinctIds;
    assert opp[i] in opp;
    var n, part := GreedySweep(t, opp, qty);
    GreedyCovers(t, opp, qty, n, part, Sweep(t, opp, qty), i);
    GreedyLeaves(t, opp, qty, n, part, Sweep(t, opp, qty), i);
    SweepConsumes(t, opp, qty, opp[i].id);
    UnderOne(opp, opp[i]);
  }

  /** An admitted NEW sends, for a resting order, a CANCEL update and no CANCELED exactly when
    * its quantity covers that order's place in the queue of crossing orders.
    */
  lemma {:induction false} NewUsesUp(cfg: Config, x: XBook, ticker: nat, owner: Owner, side: Side, price: nat,
          qty: nat, i: nat)
    requires cfg.Valid() && Sound(cfg, x) && side != NoSide && Admits(cfg, x.book, owner, price)
    requires i < |x.book.On(Opposite(side))|
    ensures var t, opp := Taker(ticker, owner, x.nextId, side, price), x.book.On(Opposite(side));
            var d := TallyOf(ticker, opp[i].id, AddOrder(cfg, x, ticker, owner, side, price, qty).effects);
            d.canceled == 0 && d.cancels == if Covers(t, opp, qty, i) then 1 else 0
  {
    hide Sweep, TallyOf, Covers, Sound, Admits, Settle, L.DistinctIds, Sorted;
    var t, opp := Taker(ticker, owner, x.nextId, side, price), x.book.On(Opposite(side));
    SoundSide(cfg, x, Opposite(side));
    forall o | o in opp ensures 0 < o.qty && o.id != t.id {
      BelowCounter(cfg, x, o);
    }
    SweepUsesUp(t, opp, qty, i);
    assert opp[i] in opp;
    SettleTally(x.book, t, qty, Sweep(t, opp, qty), opp[i].id);
  }

  /** A CANCEL sends both or neither. */
  lemma {:induction false} CancelSendsBoth(cfg: Config, x: XBook, ticker: nat, owner: Owner, m: nat)
    requires cfg.Valid() && Sound(cfg, x)
    ensures var d := TallyOf(ticker, m, CancelOrder(x, ticker, owner).effects);
            d.cancels == d.canceled
  {
    hide TallyOf, Sound, CancelOrder;
    CancelTally(cfg, x, ticker, owner, m);
  }

  // ---------- runs ----------

  lemma {:induction false} ConsumedLife(t: Tally, d: Tally, nextId: nat, m: nat, u: nat, v: nat)
    requires Life(t, nextId, m, u) && Consumed(d, u, v)
    ensures Life(t.Plus(d), nextId, m, v)
  {
  }

  lemma {:induction false} LifeGoesOn(t: Tally, d: Tally, nextId: nat, m: nat, qty: nat, u: nat, v: nat)
    requires Life(t, nextId, m, u) && 0 < nextId
    requires if m == nextId then Entered(d, qty, v) else Consumed(d, u, v)
    ensures Life(t.Plus(d), nextId + 1, m, v)
  {
  }

  lemma {:induction false} TakenOutLife(t: Tally, d: Tally, nextId: nat, m: nat, u: nat, v: nat)
    requires Life(t, nextId, m, u) && TakenOut(d, u, v)
    ensures Life(t.Plus(d), nextId, m, v)
  {
  }

  /** Nothing is said about another ticker. */
  lemma {:induction false} NotTold(ticker: nat, m: nat, rs: seq<Response>)
    requires forall r | r in rs :: r.ticker != ticker
    ensures Told(ticker, m, rs) == Nothing()
  {
    if rs != [] {
      NotTold(ticker, m, rs[..|rs| - 1]);
    }
  }

  lemma {:induction false} NotShown(ticker: nat, m: nat, us: seq<MarketUpdate>)
    requires forall u | u in us :: u.ticker != ticker
    ensures Shown(ticker, m, us) == Nothing()
  {
    if us != [] {
      NotShown(ticker, m, us[..|us| - 1]);
    }
  }

  lemma {:induction false} OtherTicker(ticker: nat, m: nat, e: Effects)
    requires (forall r | r in e.responses :: r.ticker != ticker) && (forall u | u in e.updates :: u.ticker != ticker)
    ensures TallyOf(ticker, m, e) == Nothing()
  {
    hide Told, Shown;
    NotTold(ticker, m, e.responses);
    NotShown(ticker, m, e.updates);
  }

  lemma {:induction false} SweepSpeaks(t: Taker, opp: seq<Order>, leaves: nat)
    ensures var e := Sweep(t, opp, leaves).effects;
            (forall r | r in e.responses :: r.ticker == t.ticker) && (forall u | u in e.updates :: u.ticker == t.ticker)
    decreases leaves + |opp|
  {
    if !(leaves == 0 || opp == [] || !Crosses(t.side, t.price, opp[0].price)) {
      SweepSpeaks(t, AfterMatch(opp, leaves), leaves - Min(leaves, opp[0].qty));
    }
  }

  /** A request is answered about its own ticker. */
  lemma {:induction false} ProcessSpeaks(cfg: Config, books: seq<XBook>, r: Request)
    requires cfg.Valid() && |books| == cfg.tickers
    ensures var e := Process(cfg, books, r).effects;
            (forall p | p in e.responses :: p.ticker == r.ticker) && (forall u | u in e.updates :: u.ticker == r.ticker)
  {
    hide Admits, Sweep, Lookup, Insert, Remove;
    if r.ticker < cfg.tickers {
      var x, owner := books[r.ticker], Owner(r.client, r.orderId);
      SweepSpeaks(Taker(r.ticker, owner, x.nextId, r.side, r.price), x.book.On(Opposite(r.side)), r.qty);
    }
  }

  /** One request carries the life of every order on. */
  lemma {:induction false} ProcessLife(cfg: Config, books: seq<XBook>, r: Request, ticker: nat, m: nat, t: Tally)
    requires cfg.Valid() && EngineSound(cfg, books) && Sided(r) && ticker < cfg.tickers
    requires Life(t, books[ticker].nextId, m, RestingQty(books[ticker].book, m))
    ensures var out := Process(cfg, books, r);
            Life(t.Plus(TallyOf(ticker, m, out.effects)), out.books[ticker].nextId, m,
                RestingQty(out.books[ticker].book, m))
  {
    hide Life, Consumed, Entered, TakenOut, TallyOf, RestingQty, Sound, Admits, AddOrder, CancelOrder;
    var x, owner, e := books[ticker], Owner(r.client, r.orderId), Process(cfg, books, r).effects;
    var u := RestingQty(x.book, m);
    if r.ticker != ticker {
      ProcessSpeaks(cfg, books, r);
      OtherTicker(ticker, m, e);
      assert t.Plus(Nothing()) == t;
    } else if r.kind == NewRequest {
      AddLife(cfg, x, ticker, owner, r.side, r.price, r.qty, m, t);
    } else if r.kind == CancelRequest {
      CancelLife(cfg, x, ticker, owner, m, t);
    } else {
      TallyFew(ticker, m, e);
      assert t.Plus(Nothing().Plus(Nothing())) == t;
    }
  }

  lemma {:induction false} AddLife(cfg: Config, x: XBook, ticker: nat, owner: Owner, side: Side, price: nat, qty: nat,
                                   m: nat, t: Tally)
    requires cfg.Valid() && Sound(cfg, x) && side != NoSide && Life(t, x.nextId, m, RestingQty(x.book, m))
    ensures var out := AddOrder(cfg, x, ticker, owner, side, price, qty);
            Life(t.Plus(TallyOf(ticker, m, out.effects)), out.x.nextId, m, RestingQty(out.x.book, m))
  {
    hide Life, Consumed, Entered, TallyOf, RestingQty, Admits, Sweep;
    var out := AddOrder(cfg, x, ticker, owner, side, price, qty);
    if !Admits(cfg, x.book, owner, price) {
      TallyFew(ticker, m, out.effects);
      assert t.Plus(Nothing().Plus(Nothing())) == t;
    } else {
      AddTally(cfg, x, Taker(ticker, owner, x.nextId, side, price), qty, m);
      LifeGoesOn(t, TallyOf(ticker, m, out.effects), x.nextId, m, qty, RestingQty(x.book, m),
          RestingQty(out.x.book, m));
    }
  }

  lemma {:induction false} CancelLife(cfg: Config, x: XBook, ticker: nat, owner: Owner, m: nat, t: Tally)
    requires cfg.Valid() && Sound(cfg, x) && Life(t, x.nextId, m, RestingQty(x.book, m))
    ensures var out := CancelOrder(x, ticker, owner);
            Life(t.Plus(TallyOf(ticker, m, out.effects)), out.x.nextId, m, RestingQty(out.x.book, m))
  {
    hide Life, Consumed, TakenOut, TallyOf, RestingQty, Sound, Lookup, Remove;
    var out := CancelOrder(x, ticker, owner);
    var d, u, v := TallyOf(ticker, m, out.effects), RestingQty(x.book, m), RestingQty(out.x.book, m);
    CancelTally(cfg, x, ticker, owner, m);
    if d.canceled == 0 {
      ConsumedLife(t, d, x.nextId, m, u, v);
    } else {
      TakenOutLife(t, d, x.nextId, m, u, v);
    }
  }

  lemma {:induction false} FreshLife(ticker: nat, m: nat, x: XBook, e: Effects)
    requires x.book.bids == x.book.asks == [] && x.nextId == 1 && e.responses == [] && e.updates == []
    ensures Life(TallyOf(ticker, m, e), x.nextId, m, RestingQty(x.book, m))
  {
    hide Told, Shown, Tally.Plus, Accounted;
    EmptyTally(ticker, m);
    PlusLaws(Nothing(), Nothing(), Nothing());
  }

  lemma {:induction false} RunLife(cfg: Config, rs: seq<Request>, ticker: nat, m: nat)
    requires cfg.Valid() && (forall r | r in rs :: Sided(r)) && ticker < cfg.tickers
    ensures var out := Run(cfg, rs);
            Life(TallyOf(ticker, m, out.effects), out.books[ticker].nextId, m, RestingQty(out.books[ticker].book, m))
  {
    hide TallyOf, Process, Life, RestingQty, Sound, Effects.Then;
    if rs == [] {
      FreshLife(ticker, m, Run(cfg, rs).books[ticker], Run(cfg, rs).effects);
    } else {
      var init, r := rs[..|rs| - 1], rs[|rs| - 1];
      RunLife(cfg, init, ticker, m);
      RunSound(cfg, init);
      var before := Run(cfg, init);
      ProcessLife(cfg, before.books, r, ticker, m, TallyOf(ticker, m, before.effects));
      TallyThen(ticker, m, before.effects, Process(cfg, before.books, r).effects);
    }
  }

  /** Over every run and for every market order id: it is accepted at most once, and not
    * mentioned before. The quantity accepted is what was filled, what rests, and, once
    * a CANCELED was sent, what its CANCEL update says. A CANCELED always comes with
    * exactly one CANCEL update, and nothing rests after either.
    */
  lemma {:induction false} Conservation(cfg: Config, rs: seq<Request>, ticker: nat, m: nat)
    requires cfg.Valid() && (forall r | r in rs :: Sided(r)) && ticker < cfg.tickers
    ensures var out := Run(cfg, rs);
            var t, q := TallyOf(ticker, m, out.effects), RestingQty(out.books[ticker].book, m);
            && t.accepted == (if 0 < m < out.books[ticker].nextId then 1 else 0)
            && (t.accepted == 0 ==> t == Nothing())
            && t.ordered == t.filled + q + (if t.canceled == 0 then 0 else t.cancelQty)
            && t.canceled <= t.cancels <= 1
            && (t.cancels == 1 ==> q == 0)
  {
    hide Run, TallyOf, RestingQty;
    RunLife(cfg, rs, ticker, m);
  }

  /** Without the responses the CANCEL updates do not balance: an order that a trade used
    * up leaves with a CANCEL for the quantity it had before the trade. Counting every
    * CANCEL as withdrawn is right exactly when each came with a CANCELED.
    */
  lemma {:induction false} CancelsAloneBalance(cfg: Config, rs: seq<Request>, ticker: nat, m: nat)
    requires cfg.Valid() && (forall r | r in rs :: Sided(r)) && ticker < cfg.tickers
    ensures var out := Run(cfg, rs);
            var t, q := TallyOf(ticker, m, out.effects), RestingQty(out.books[ticker].book, m);
            t.ordered == t.filled + q + t.cancelQty <==> t.cancels == t.canceled
  {
    hide Run, TallyOf, RestingQty;
    RunLife(cfg, rs, ticker, m);
  }

  /** A match that uses up a resting order of the first id says so. */
  lemma {:induction false} UsedUpLooksCanceled(t: Taker, maker: Order, leaves: nat)
    requires t.id != maker.id && 0 < maker.qty <= leaves
    ensures var d := TallyOf(t.ticker, maker.id, MatchEffects(t, maker, leaves));
            d.filled == d.cancelQty == maker.qty && d.cancels == 1 && d.canceled == 0
  {
    hide TallyOf, MatchEffects;
    MatchTally(t, maker, leaves, maker.id);
  }

  /** The first order of a fresh engine rests. */
  lemma {:induction false} FirstRests(cfg: Config, r: Request)
    requires cfg.Valid() && 0 < cfg.tickers && 0 < cfg.clients && 0 < cfg.orderIds
    requires r.kind == NewRequest && r.client == r.orderId == r.ticker == 0 && r.side == Buy && 0 < r.qty
    ensures var x := Run(cfg, [r]).books[0];
            x == XBook(Book([Order(Owner(0, 0), 1, Buy, r.price, r.qty, 1)], []), 2)
  {
    assert [r][..0] == [];
    var t := Taker(0, Owner(0, 0), 1, Buy, r.price);
    assert Sweep(t, [], r.qty) == Swept([], r.qty, QUIET);
  }

  /** So the first order of a run can leave by a trade and yet look canceled. */
  lemma {:induction false} LooksCanceled(cfg: Config, price: nat, qty: nat)
    requires cfg.Valid() && 0 < cfg.tickers && 0 < cfg.clients && 1 < cfg.orderIds && 0 < qty
    ensures var rs := [Request(NewRequest, 0, 0, 0, Buy, price, qty), Request(NewRequest, 0, 0, 1, Sell, price, qty)];
            var out := Run(cfg, rs);
            var t, q := TallyOf(0, 1, out.effects), RestingQty(out.books[0].book, 1);
            t.ordered != t.filled + q + t.cancelQty
  {
    hide TallyOf, RestingQty, Process;
    var first := Request(NewRequest, 0, 0, 0, Buy, price, qty);
    var second := Request(NewRequest, 0, 0, 1, Sell, price, qty);
    var rs := [first, second];
    assert rs[..1] == [first];
    FirstRests(cfg, first);
    CancelsAloneBalance(cfg, rs, 0, 1);
    RunLife(cfg, [first], 0, 1);
    SecondTrades(cfg, Run(cfg, [first]).books, second);
    TallyThen(0, 1, Run(cfg, [first]).effects, Process(cfg, Run(cfg, [first]).books, second).effects);
  }

  lemma {:induction false} SecondTrades(cfg: Config, books: seq<XBook>, r: Request)
    requires cfg.Valid() && |books| == cfg.tickers && 0 < cfg.tickers && 0 < cfg.clients && 1 < cfg.orderIds
    requires r.kind == NewRequest && r.client == r.ticker == 0 && r.orderId == 1 && r.side == Sell && 0 < r.qty
    requires books[0] == XBook(Book([Order(Owner(0, 0), 1, Buy, r.price, r.qty, 1)], []), 2)
    ensures var d := TallyOf(0, 1, Process(cfg, books, r).effects);
            d.cancels == 1 && d.canceled == 0
  {
    hide TallyOf, Settle, Sweep, Process;
    var o := Order(Owner(0, 0), 1, Buy, r.price, r.qty, 1);
    var t := Taker(0, Owner(0, 1), 2, Sell, r.price);
    TradedAway(t, o, r.qty);
    SettleTally(books[0].book, t, r.qty, Sweep(t, [o], r.qty), 1);
    SecondSettles(cfg, books, r);
  }

  lemma {:induction false} SecondSettles(cfg: Config, books: seq<XBook>, r: Request)
    requires cfg.Valid() && |books| == cfg.tickers && 0 < cfg.tickers && 0 < cfg.clients && 1 < cfg.orderIds
    requires r.kind == NewRequest && r.client == r.ticker == 0 && r.orderId == 1 && r.side == Sell && 0 < r.qty
    requires books[0] == XBook(Book([Order(Owner(0, 0), 1, Buy, r.price, r.qty, 1)], []), 2)
    ensures var t := Taker(0, Owner(0, 1), 2, Sell, r.price);
            var s := Sweep(t, books[0].book.bids, r.qty);
            Process(cfg, books, r).effects == Settle(books[0].book, t, r.qty, s).effects
  {
    hide Settle, Sweep;
  }

  lemma {:induction false} TradedAway(t: Taker, o: Order, qty: nat)
    requires o.id != t.id && 0 < o.qty == qty && Crosses(t.side, t.price, o.price)
    ensures var d := TallyOf(t.ticker, o.id, Sweep(t, [o], qty).effects);
            d.cancels == 1 && d.canceled == 0
  {
    hide TallyOf, MatchEffects;
    var e := Sweep(t, AfterMatch([o], qty), 0).effects;
    SweepStep(t, [o], qty);
    UsedUpLooksCanceled(t, o, qty);
    TallyThen(t.ticker, o.id, MatchEffects(t, o, qty), e);
    TallyFew(t.ticker, o.id, e);
  }
}
