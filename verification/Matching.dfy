/** What one match, an acceptance and a cancel do to a sound flat book, in the pieces
  * in which the two order book implementations do it.
  */
module Matching {
  import opened Types
  import opened PriceTime
  import opened Exchange
  import opened Soundness
  import L = Levels

  /** Live market ids are distinct on either side. */
  lemma {:induction false} SoundSide(cfg: Config, x: XBook, side: Side)
    requires cfg.Valid() && Sound(cfg, x) && side != NoSide
    ensures var s := x.book.On(side);
            && L.DistinctIds(s) && Sorted(side, s)
            && (forall o | o in s :: x.book.Has(o) && 0 < o.qty && o.side == side)
  {
    hide AliasFree, Uncrossed, Prioritised;
    var s := x.book.On(side);
    forall o | o in s ensures x.book.Has(o) && 0 < o.qty && o.side == side {
      assert Proper(cfg, x.nextId, o);
    }
    forall i, j | 0 <= i < j < |s| ensures s[i].id != s[j].id {
      assert Before(side, s[i], s[j]) && x.book.Has(s[i]) && x.book.Has(s[j]);
    }
  }

  /** A fill written to the first order. */
  lemma {:induction false} FirstResized(s: seq<Order>, q: nat)
    requires s != [] && L.DistinctIds(s)
    ensures Requantify(s, s[0].id, q) == [s[0].(qty := q)] + s[1..]
    ensures L.DistinctIds([s[0].(qty := q)] + s[1..])
  {
    hide Requantify;
    L.RequantifyAt(s, 0, q);
    var small := s[0 := s[0].(qty := q)];
    assert small == [s[0].(qty := q)] + s[1..];
    assert forall i | 0 <= i < |s| :: small[i].id == s[i].id;
  }

  lemma {:induction false} FirstRemoved(s: seq<Order>)
    requires s != [] && L.DistinctIds(s)
    ensures Remove(s, s[0].id) == s[1..]
  {
    hide Remove;
    L.RemoveAt(s, 0);
    assert L.Without(s, 0) == s[1..];
  }

  /** A fill written to the first order, and its removal at zero, is the match of the flat side. */
  lemma {:induction false} MatchedBook(b: Book, side: Side, leaves: nat)
    requires b.On(side) != [] && 0 < leaves && side != NoSide && L.DistinctIds(b.On(side))
    requires b.On(side)[0].side == side
    ensures var opp := b.On(side);
            var o, q := opp[0], opp[0].qty - Min(leaves, opp[0].qty);
            var c := Resized(b, o, q);
            && L.DistinctIds(c.On(side))
            && b.With(side, AfterMatch(opp, leaves)) == if q == 0 then Taken(c, o.(qty := 0)) else c
  {
    hide Remove, Requantify, L.DistinctIds;
    var opp := b.On(side);
    var o, q := opp[0], opp[0].qty - Min(leaves, opp[0].qty);
    FirstResized(opp, q);
    var small := [o.(qty := q)] + opp[1..];
    FirstRemoved(small);
    assert small[1..] == opp[1..];
  }

  lemma {:induction false} MatchedSound(cfg: Config, x: XBook, side: Side, leaves: nat)
    requires cfg.Valid() && Sound(cfg, x) && side != NoSide && x.book.On(side) != [] && 0 < leaves
    ensures Sound(cfg, x.(book := x.book.With(side, AfterMatch(x.book.On(side), leaves))))
  {
    hide Sound, Sorted, L.DistinctIds;
    var opp := x.book.On(side);
    var rest := AfterMatch(opp, leaves);
    SoundSide(cfg, x, side);
    var n := if opp[0].qty <= leaves then 1 else 0;
    forall i | 0 <= i < |rest| ensures Shrunk(rest[i], opp[n + i]) {
      assert opp[n + i] in opp;
    }
    ShrunkSorted(side, rest, opp, n);
    ShrunkSound(cfg, x, side, rest);
  }

  lemma {:induction false} ThenAssoc(a: Effects, b: Effects, c: Effects)
    ensures a.Then(b).Then(c) == a.Then(b.Then(c))
  {
  }

  /** The book and the messages of an accepted request, step by step. */
  lemma {:induction false} AcceptedIs(cfg: Config, x: XBook, t: Taker, qty: nat, s: Swept, was: Effects)
    requires cfg.Valid() && t.id == x.nextId && Admits(cfg, x.book, t.owner, t.price)
    requires s == Sweep(t, x.book.On(Opposite(t.side)), qty)
    ensures var out := AddOrder(cfg, x, t.ticker, t.owner, t.side, t.price, qty);
            var swept := x.book.With(Opposite(t.side), s.rest);
            var log := was.Then(Effects([Acceptance(t, qty)], [])).Then(s.effects);
            var o := Remainder(t, swept, s.leaves);
            if s.leaves == 0 then out.x == XBook(swept, t.id + 1) && was.Then(out.effects) == log
            else out.x == XBook(Rested(swept, o), t.id + 1)
                 && was.Then(out.effects) == log.Then(Effects([], [OrderUpdate(Add, t.ticker, o)]))
  {
    hide Admits, Sweep, Rested, Remainder, Effects.Then;
    var a := Effects([Acceptance(t, qty)], []);
    ThenAssoc(was, a, s.effects);
    var o := Remainder(t, x.book.With(Opposite(t.side), s.rest), s.leaves);
    ThenAssoc(was, a.Then(s.effects), Effects([], [OrderUpdate(Add, t.ticker, o)]));
  }

  lemma {:induction false} BumpSound(cfg: Config, x: XBook)
    requires cfg.Valid() && Sound(cfg, x)
    ensures Sound(cfg, x.(nextId := x.nextId + 1))
  {
  }

  /** Everything left in the slot of a remainder is at its price and on its side. */
  lemma {:induction false} RemainderFits(cfg: Config, x: XBook, t: Taker, qty: nat)
    requires cfg.Valid() && Sound(cfg, x) && t.side != NoSide && Admits(cfg, x.book, t.owner, t.price)
    requires Sweep(t, x.book.On(Opposite(t.side)), qty).leaves > 0
    ensures var c := x.book.With(Opposite(t.side), Sweep(t, x.book.On(Opposite(t.side)), qty).rest);
            && Admits(cfg, c, t.owner, t.price)
            && (forall y | c.Has(y) && y.price % cfg.priceLevels == t.price % cfg.priceLevels ::
                  y.price == t.price && y.side == t.side)
  {
    hide Sweep, Sound, OwnerRests;
    var side := Opposite(t.side);
    var s := Sweep(t, x.book.On(side), qty);
    var c := x.book.With(side, s.rest);
    BookSurvivors(cfg, x, t, qty);
    AdmitsShrunk(cfg, x.book, side, s.rest, t.owner, t.price);
    ShrunkSound(cfg, x, side, s.rest);
    SoundSide(cfg, x.(book := c), t.side);
    forall y | c.Has(y) && y.price % cfg.priceLevels == t.price % cfg.priceLevels
      ensures y.price == t.price && y.side == t.side {
      assert y in c.On(side) ==> !Crosses(t.side, t.price, y.price);
    }
  }

  lemma {:induction false} CanceledBook(x: XBook, ticker: nat, owner: Owner, o: Order)
    requires Lookup(x.book, owner) == Some(o)
    ensures CancelOrder(x, ticker, owner).x == x.(book := Taken(x.book, o))
    ensures CancelOrder(x, ticker, owner).effects
         == Effects([Response(Canceled, owner.client, ticker, owner.orderId, o.id, o.side, o.price, 0, 0)],
                    [OrderUpdate(Cancel, ticker, o)])
  {
  }

  lemma {:induction false} EmptySound(cfg: Config)
    requires cfg.Valid()
    ensures Sound(cfg, FRESH_XBOOK)
  {
  }

  /** A NEW request whose remainder finds `capacity` orders resting. */
  predicate Overflows(cfg: Config, capacity: nat, x: XBook, owner: Owner, side: Side, price: nat, qty: nat)
    requires cfg.Valid()
  {
    && Admits(cfg, x.book, owner, price)
    && var s := Sweep(Taker(0, owner, x.nextId, side, price), x.book.On(Opposite(side)), qty);
       0 < s.leaves && Resting(x.book.With(Opposite(side), s.rest)) >= capacity
  }

  /** The ticker of a taker shows in its messages only. */
  lemma {:induction false} SweepTicker(t: Taker, ticker: nat, opp: seq<Order>, leaves: nat)
    ensures var s, z := Sweep(t, opp, leaves), Sweep(t.(ticker := ticker), opp, leaves);
            s.leaves == z.leaves && s.rest == z.rest
    decreases leaves + |opp|
  {
    if !(leaves == 0 || opp == [] || !Crosses(t.side, t.price, opp[0].price)) {
      SweepTicker(t, ticker, AfterMatch(opp, leaves), leaves - Min(leaves, opp[0].qty));
    }
  }

  lemma {:induction false} NoOverflow(cfg: Config, capacity: nat, x: XBook, owner: Owner, side: Side, price: nat,
          qty: nat)
    requires cfg.Valid() && !Admits(cfg, x.book, owner, price)
    ensures !Overflows(cfg, capacity, x, owner, side, price, qty)
  {
    hide Admits, Sweep;
  }

  /** Overflow, as the sweep of the taker shows it. */
  lemma {:induction false} OverflowIs(cfg: Config, capacity: nat, x: XBook, t: Taker, qty: nat, s: Swept)
    requires cfg.Valid() && t.id == x.nextId && Admits(cfg, x.book, t.owner, t.price)
    requires s == Sweep(t, x.book.On(Opposite(t.side)), qty)
    ensures Overflows(cfg, capacity, x, t.owner, t.side, t.price, qty)
            <==> 0 < s.leaves && Resting(x.book.With(Opposite(t.side), s.rest)) >= capacity
  {
    hide Admits, Sweep;
    SweepTicker(t, 0, x.book.On(Opposite(t.side)), qty);
  }

  lemma {:induction false} SweepShortens(t: Taker, opp: seq<Order>, leaves: nat)
    ensures |Sweep(t, opp, leaves).rest| <= |opp|
    decreases leaves + |opp|
  {
    if !(leaves == 0 || opp == [] || !Crosses(t.side, t.price, opp[0].price)) {
      SweepShortens(t, AfterMatch(opp, leaves), leaves - Min(leaves, opp[0].qty));
    }
  }

  /** While fewer orders rest than the pool holds, no request overflows it. */
  lemma {:induction false} RoomSuffices(cfg: Config, capacity: nat, x: XBook, owner: Owner, side: Side, price: nat,
          qty: nat)
    requires cfg.Valid() && side != NoSide && Resting(x.book) < capacity
    ensures !Overflows(cfg, capacity, x, owner, side, price, qty)
  {
    hide Admits, Sweep;
    SweepShortens(Taker(0, owner, x.nextId, side, price), x.book.On(Opposite(side)), qty);
  }

  /** Distinct orders are as many as their places. */
  lemma {:induction false} SetOfSide(side: Side, s: seq<Order>)
    requires Sorted(side, s)
    ensures |set o | o in s| == |s|
  {
    if s != [] {
      SortedTail(side, s);
      SetOfSide(side, s[1..]);
      assert (set o | o in s) == {s[0]} + set o | o in s[1..];
    }
  }

  /** The orders of a sound book, as a set, are as many as rest. */
  lemma {:induction false} SetOfBook(cfg: Config, x: XBook, all: set<Order>)
    requires cfg.Valid() && Sound(cfg, x) && forall o :: o in all <==> x.book.Has(o)
    ensures |all| == Resting(x.book)
  {
    hide AliasFree, Uncrossed, Prioritised, Keyed;
    SetOfSide(Buy, x.book.bids);
    SetOfSide(Sell, x.book.asks);
    var bids, asks := set o | o in x.book.bids, set o | o in x.book.asks;
    assert all == bids + asks && bids * asks == {} by {
      assert forall o | o in x.book.bids :: o.side == Buy;
      assert forall o | o in x.book.asks :: o.side == Sell;
    }
  }
}
