/** Price levels: the grouped form of a book side that the linked structures hold,
  * and the proof that working on groups is the same as working on the flat
  * price-time sequence.
  */
module Levels {
  import opened Types
  import opened PriceTime

  datatype Level = Level(price: nat, orders: seq<Order>)

  function Flatten(ls: seq<Level>): seq<Order> {
    if ls == [] then [] else ls[0].orders + Flatten(ls[1..])
  }

  /** Non-empty levels, best price first, each holding orders of its own side and price. */
  ghost predicate Graded(side: Side, ls: seq<Level>) {
    && (forall i | 0 <= i < |ls| :: ls[i].orders != [])
    && (forall i, j | 0 <= i < |ls| && 0 <= j < |ls[i].orders| ::
          ls[i].orders[j].price == ls[i].price && ls[i].orders[j].side == side)
    && (forall i, j | 0 <= i < j < |ls| :: Better(side, ls[i].price, ls[j].price))
  }

  lemma {:induction false} GradedTail(side: Side, ls: seq<Level>)
    requires Graded(side, ls) && ls != []
    ensures Graded(side, ls[1..])
  {
  }

  lemma {:induction false} FlattenHas(ls: seq<Level>, o: Order)
    ensures o in Flatten(ls) <==> exists i :: 0 <= i < |ls| && o in ls[i].orders
  {
    if ls != [] {
      FlattenHas(ls[1..], o);
      if o in ls[0].orders {
      } else if o in Flatten(ls[1..]) {
        var i :| 0 <= i < |ls[1..]| && o in ls[1..][i].orders;
        assert o in ls[i + 1].orders;
      } else {
        forall i | 0 <= i < |ls| ensures o !in ls[i].orders {
          assert i > 0 ==> ls[i] == ls[1..][i - 1];
        }
      }
    }
  }

  lemma {:induction false} FlattenConcat(ls: seq<Level>, ms: seq<Level>)
    ensures Flatten(ls + ms) == Flatten(ls) + Flatten(ms)
  {
    if ls == [] {
      assert ls + ms == ms;
    } else {
      FlattenConcat(ls[1..], ms);
      assert (ls + ms)[1..] == ls[1..] + ms && (ls + ms)[0] == ls[0];
      var head, s, t := ls[0].orders, Flatten(ls[1..]), Flatten(ms);
      assert head + (s + t) == head + s + t;
    }
  }

  lemma {:induction false} FlattenSplit(ls: seq<Level>, i: nat)
    requires i < |ls|
    ensures Flatten(ls) == Flatten(ls[..i]) + ls[i].orders + Flatten(ls[i + 1..])
  {
    assert ls == ls[..i] + ls[i..];
    FlattenConcat(ls[..i], ls[i..]);
    assert ls[i..][1..] == ls[i + 1..];
  }

  // ---------- adding ----------

  lemma {:induction false} InsertAfter(s: seq<Order>, t: seq<Order>, o: Order)
    requires forall x | x in s :: !Better(o.side, o.price, x.price)
    requires forall x | x in t :: Better(o.side, o.price, x.price)
    ensures Insert(s + t, o) == s + [o] + t
  {
    if s == [] {
      assert s + t == t;
      if t != [] { assert t[0] in t; }
    } else {
      assert s[0] in s;
      assert (s + t)[1..] == s[1..] + t;
      InsertAfter(s[1..], t, o);
    }
  }

  /** Where an order of this price belongs: the first level it is at least as good as. */
  ghost predicate Belongs(side: Side, ls: seq<Level>, price: nat, k: nat) {
    && k <= |ls|
    && (forall i | 0 <= i < k :: Better(side, ls[i].price, price))
    && (forall i | k <= i < |ls| :: !Better(side, ls[i].price, price))
  }

  /** Every order of some consecutive levels has the price of its level. */
  lemma {:induction false} FlattenPrices(side: Side, ls: seq<Level>, lo: nat, hi: nat, x: Order)
    requires Graded(side, ls) && lo <= hi <= |ls| && x in Flatten(ls[lo..hi])
    ensures exists i :: lo <= i < hi && ls[i].price == x.price
  {
    FlattenHas(ls[lo..hi], x);
    var i :| 0 <= i < |ls[lo..hi]| && x in ls[lo..hi][i].orders;
    var j :| 0 <= j < |ls[lo + i].orders| && ls[lo + i].orders[j] == x;
    assert ls[lo + i].price == x.price;
  }

  lemma {:induction false} NewLevelGraded(side: Side, ls: seq<Level>, k: nat, o: Order)
    requires Graded(side, ls) && side != NoSide && o.side == side && Belongs(side, ls, o.price, k)
    requires forall i | 0 <= i < |ls| :: ls[i].price != o.price
    ensures Graded(side, ls[..k] + [Level(o.price, [o])] + ls[k..])
  {
  }

  /** The flat side around a place in the list of levels. */
  lemma {:induction false} FlattenAround(ls: seq<Level>, k: nat, level: Level)
    requires k <= |ls|
    ensures Flatten(ls) == Flatten(ls[..k]) + Flatten(ls[k..])
    ensures Flatten(ls[..k] + [level] + ls[k..]) == Flatten(ls[..k]) + level.orders + Flatten(ls[k..])
  {
    hide Flatten;
    var one := [level];
    FlattenOne(level);
    FlattenConcat(ls[..k], one);
    FlattenConcat(ls[..k] + one, ls[k..]);
    FlattenConcat(ls[..k], ls[k..]);
    assert ls == ls[..k] + ls[k..];
  }

  lemma {:induction false} FlattenOne(level: Level)
    ensures Flatten([level]) == level.orders
  {
    assert [level][1..] == [];
  }

  /** Everything before the place of a price is at least as good, everything behind it worse. */
  lemma {:induction false} AroundPlace(side: Side, ls: seq<Level>, k: nat, price: nat)
    requires Graded(side, ls) && side != NoSide && Belongs(side, ls, price, k)
    requires forall i | 0 <= i < |ls| :: ls[i].price != price
    ensures forall x | x in Flatten(ls[..k]) :: !Better(side, price, x.price)
    ensures forall x | x in Flatten(ls[k..]) :: Better(side, price, x.price)
  {
    hide Graded, Flatten;
    forall x | x in Flatten(ls[..k]) ensures !Better(side, price, x.price) {
      assert ls[0..k] == ls[..k];
      FlattenPrices(side, ls, 0, k, x);
    }
    forall x | x in Flatten(ls[k..]) ensures Better(side, price, x.price) {
      assert ls[k..|ls|] == ls[k..];
      FlattenPrices(side, ls, k, |ls|, x);
    }
  }

  /** A new level at its place is an insertion into the flat side. */
  lemma {:induction false} NewLevel(side: Side, ls: seq<Level>, k: nat, o: Order)
    requires Graded(side, ls) && side != NoSide && o.side == side && Belongs(side, ls, o.price, k)
    requires forall i | 0 <= i < |ls| :: ls[i].price != o.price
    ensures Flatten(ls[..k] + [Level(o.price, [o])] + ls[k..]) == Insert(Flatten(ls), o)
  {
    hide Flatten, Graded;
    FlattenAround(ls, k, Level(o.price, [o]));
    AroundPlace(side, ls, k, o.price);
    InsertAfter(Flatten(ls[..k]), Flatten(ls[k..]), o);
  }

  function Joined(ls: seq<Level>, k: nat, o: Order): seq<Level>
    requires k < |ls|
  {
    ls[k := Level(ls[k].price, ls[k].orders + [o])]
  }

  lemma {:induction false} JoinGraded(side: Side, ls: seq<Level>, k: nat, o: Order)
    requires Graded(side, ls) && o.side == side && k < |ls| && ls[k].price == o.price
    ensures Graded(side, Joined(ls, k, o))
  {
  }

  /** No order up to the level of `price` is worse than it, every later one is. */
  lemma {:induction false} AroundLevel(side: Side, ls: seq<Level>, k: nat)
    requires Graded(side, ls) && side != NoSide && k < |ls|
    ensures forall x | x in Flatten(ls[..k]) || x in ls[k].orders :: !Better(side, ls[k].price, x.price)
    ensures forall x | x in Flatten(ls[k + 1..]) :: Better(side, ls[k].price, x.price)
  {
    forall x | x in Flatten(ls[..k]) ensures !Better(side, ls[k].price, x.price) {
      assert ls[0..k] == ls[..k];
      FlattenPrices(side, ls, 0, k, x);
    }
    forall x | x in Flatten(ls[k + 1..]) ensures Better(side, ls[k].price, x.price) {
      assert ls[k + 1..|ls|] == ls[k + 1..];
      FlattenPrices(side, ls, k + 1, |ls|, x);
    }
  }

  lemma {:induction false} FlattenReplace(ls: seq<Level>, k: nat, level: Level)
    requires k < |ls|
    ensures Flatten(ls[k := level]) == Flatten(ls[..k]) + level.orders + Flatten(ls[k + 1..])
  {
    FlattenSplit(ls[k := level], k);
    assert ls[k := level][..k] == ls[..k] && ls[k := level][k + 1..] == ls[k + 1..];
  }

  /** Joining the tail of the level at its price is the same insertion. */
  lemma {:induction false} JoinLevel(side: Side, ls: seq<Level>, k: nat, o: Order)
    requires Graded(side, ls) && side != NoSide && o.side == side && k < |ls| && ls[k].price == o.price
    ensures Flatten(Joined(ls, k, o)) == Insert(Flatten(ls), o)
  {
    var s, mid, t := Flatten(ls[..k]), ls[k].orders, Flatten(ls[k + 1..]);
    AroundLevel(side, ls, k);
    hide Graded, Flatten;
    FlattenSplit(ls, k);
    FlattenReplace(ls, k, Level(ls[k].price, mid + [o]));
    InsertAfter(s + mid, t, o);
    assert s + (mid + [o]) + t == s + mid + [o] + t;
  }

  // ---------- removing and changing ----------

  function Without(s: seq<Order>, j: nat): seq<Order>
    requires j < |s|
  {
    s[..j] + s[j + 1..]
  }

  lemma {:induction false} RemoveAt(s: seq<Order>, j: nat)
    requires j < |s| && forall i | 0 <= i < |s| && i != j :: s[i].id != s[j].id
    ensures Remove(s, s[j].id) == Without(s, j)
  {
    if j == 0 {
      RemoveAbsent(s[1..], s[0].id);
      assert Without(s, 0) == s[1..];
    } else {
      assert s[1..][j - 1] == s[j];
      RemoveAt(s[1..], j - 1);
      assert Without(s, j) == [s[0]] + Without(s[1..], j - 1);
    }
  }

  ghost predicate DistinctIds(s: seq<Order>) {
    forall i, j | 0 <= i < j < |s| :: s[i].id != s[j].id
  }

  /** The side after the order at position `j` of level `i` leaves. */
  function TakeOut(ls: seq<Level>, i: nat, j: nat): seq<Level>
    requires i < |ls| && j < |ls[i].orders|
  {
    if |ls[i].orders| == 1 then ls[..i] + ls[i + 1..]
    else ls[i := Level(ls[i].price, Without(ls[i].orders, j))]
  }

  lemma {:induction false} TakeOutGraded(side: Side, ls: seq<Level>, i: nat, j: nat)
    requires Graded(side, ls) && i < |ls| && j < |ls[i].orders|
    ensures Graded(side, TakeOut(ls, i, j))
  {
    if |ls[i].orders| == 1 {
      DropGraded(side, ls, i);
    } else {
      WithoutGraded(side, ls, i, j);
    }
  }

  lemma {:induction false} DropGraded(side: Side, ls: seq<Level>, i: nat)
    requires Graded(side, ls) && i < |ls|
    ensures Graded(side, ls[..i] + ls[i + 1..])
  {
    var ms := ls[..i] + ls[i + 1..];
    assert forall k | 0 <= k < |ms| :: ms[k] == if k < i then ls[k] else ls[k + 1];
  }

  lemma {:induction false} WithoutGraded(side: Side, ls: seq<Level>, i: nat, j: nat)
    requires Graded(side, ls) && i < |ls| && j < |ls[i].orders| && 2 <= |ls[i].orders|
    ensures Graded(side, ls[i := Level(ls[i].price, Without(ls[i].orders, j))])
  {
    var q := ls[i].orders;
    assert forall k | 0 <= k < |Without(q, j)| :: Without(q, j)[k] == q[if k < j then k else k + 1];
  }

  lemma {:induction false} TakeOutFlat(ls: seq<Level>, i: nat, j: nat)
    requires i < |ls| && j < |ls[i].orders| && DistinctIds(Flatten(ls))
    ensures Flatten(TakeOut(ls, i, j)) == Remove(Flatten(ls), ls[i].orders[j].id)
  {
    var s, mid, t := Flatten(ls[..i]), ls[i].orders, Flatten(ls[i + 1..]);
    FlattenSplit(ls, i);
    if |mid| == 1 {
      FlattenConcat(ls[..i], ls[i + 1..]);
    } else {
      FlattenReplace(ls, i, Level(ls[i].price, Without(mid, j)));
    }
    hide Flatten, Remove;
    RemoveMiddle(s, mid, t, j);
    assert |mid| == 1 ==> s + Without(mid, j) + t == s + t;
  }

  lemma {:induction false} RemoveMiddle(s: seq<Order>, mid: seq<Order>, t: seq<Order>, j: nat)
    requires j < |mid| && DistinctIds(s + mid + t)
    ensures Remove(s + mid + t, mid[j].id) == s + Without(mid, j) + t
  {
    var all, n := s + mid + t, |s| + j;
    assert all[n] == mid[j];
    hide Remove;
    RemoveAt(all, n);
    assert Without(all, n) == s + Without(mid, j) + t;
  }

  lemma {:induction false} RequantifyAt(s: seq<Order>, j: nat, qty: nat)
    requires j < |s| && forall i | 0 <= i < |s| && i != j :: s[i].id != s[j].id
    ensures Requantify(s, s[j].id, qty) == s[j := s[j].(qty := qty)]
  {
    if j == 0 {
      RequantifyAbsent(s[1..], s[0].id, qty);
    } else {
      assert s[1..][j - 1] == s[j];
      RequantifyAt(s[1..], j - 1, qty);
    }
  }

  function Resize(ls: seq<Level>, i: nat, j: nat, qty: nat): seq<Level>
    requires i < |ls| && j < |ls[i].orders|
  {
    ls[i := Level(ls[i].price, ls[i].orders[j := ls[i].orders[j].(qty := qty)])]
  }

  lemma {:induction false} ResizeGraded(side: Side, ls: seq<Level>, i: nat, j: nat, qty: nat)
    requires Graded(side, ls) && i < |ls| && j < |ls[i].orders|
    ensures Graded(side, Resize(ls, i, j, qty))
  {
  }

  lemma {:induction false} ResizeFlat(ls: seq<Level>, i: nat, j: nat, qty: nat)
    requires i < |ls| && j < |ls[i].orders| && DistinctIds(Flatten(ls))
    ensures Flatten(Resize(ls, i, j, qty)) == Requantify(Flatten(ls), ls[i].orders[j].id, qty)
  {
    var s, mid, t := Flatten(ls[..i]), ls[i].orders, Flatten(ls[i + 1..]);
    var small := mid[j].(qty := qty);
    FlattenSplit(ls, i);
    FlattenReplace(ls, i, Level(ls[i].price, mid[j := small]));
    hide Flatten, Requantify;
    var all, n := s + mid + t, |s| + j;
    assert all[n] == mid[j];
    RequantifyAt(all, n, qty);
    assert all[n := small] == s + mid[j := small] + t;
  }

  // ---------- reading ----------

  lemma {:induction false} FlattenHead(ls: seq<Level>)
    requires ls != [] && ls[0].orders != []
    ensures Flatten(ls) != [] && Flatten(ls)[0] == ls[0].orders[0]
  {
  }

  lemma {:induction false} NextPriorityConcat(s: seq<Order>, t: seq<Order>, price: nat)
    requires forall x | x in t :: x.price != price
    ensures NextPriority(s + t, price) == NextPriority(s, price)
  {
    if t == [] {
      assert s + t == s;
    } else {
      var init := t[..|t| - 1];
      assert (s + t)[..|s + t| - 1] == s + init;
      assert t[|t| - 1] in t;
      NextPriorityConcat(s, init, price);
    }
  }

  /** The next priority is found at the tail of the level's own queue. */
  lemma {:induction false} NextPriorityLevel(side: Side, ls: seq<Level>, k: nat)
    requires Graded(side, ls) && k < |ls| && side != NoSide
    ensures NextPriority(Flatten(ls), ls[k].price) == ls[k].orders[|ls[k].orders| - 1].priority + 1
  {
    hide Graded, Flatten, NextPriority;
    FlattenSplit(ls, k);
    AroundLevel(side, ls, k);
    GradedLast(side, ls, k);
    var s, t := Flatten(ls[..k]) + ls[k].orders, Flatten(ls[k + 1..]);
    NextPriorityConcat(s, t, ls[k].price);
    LastDecides(s, ls[k].price);
  }

  lemma {:induction false} GradedLast(side: Side, ls: seq<Level>, k: nat)
    requires Graded(side, ls) && k < |ls|
    ensures ls[k].orders != [] && ls[k].orders[|ls[k].orders| - 1].price == ls[k].price
  {
  }

  lemma {:induction false} LastDecides(s: seq<Order>, price: nat)
    requires s != [] && s[|s| - 1].price == price
    ensures NextPriority(s, price) == s[|s| - 1].priority + 1
  {
  }

  /** Without a level at the price the next priority is 1. */
  lemma {:induction false} NextPriorityFresh(ls: seq<Level>, price: nat)
    requires forall x | x in Flatten(ls) :: x.price != price
    ensures NextPriority(Flatten(ls), price) == 1
  {
    NextPriorityConcat([], Flatten(ls), price);
    assert [] + Flatten(ls) == Flatten(ls);
  }

  /** How many orders at the front have this price. */
  function LeadingRun(s: seq<Order>, price: nat): nat {
    if s == [] || s[0].price != price then 0 else 1 + LeadingRun(s[1..], price)
  }

  lemma {:induction false} RunConcat(s: seq<Order>, t: seq<Order>, price: nat)
    requires forall x | x in s :: x.price == price
    requires t == [] || t[0].price != price
    ensures LeadingRun(s + t, price) == |s|
  {
    if s == [] {
      assert s + t == t;
    } else {
      assert s[0] in s;
      assert (s + t)[1..] == s[1..] + t;
      RunConcat(s[1..], t, price);
    }
  }

  /** The first level is exactly the leading run of its price. */
  lemma {:induction false} FirstLevelRun(side: Side, ls: seq<Level>)
    requires Graded(side, ls) && ls != [] && side != NoSide
    ensures LeadingRun(Flatten(ls), ls[0].price) == |ls[0].orders|
  {
    var t := Flatten(ls[1..]);
    if ls[1..] != [] {
      FlattenHead(ls[1..]);
      assert ls[1].orders[0].price == ls[1].price;
      assert Better(side, ls[0].price, ls[1].price);
    }
    RunConcat(ls[0].orders, t, ls[0].price);
  }

  /** The grouping is determined by the flat side: equal sides have equal levels. */
  lemma {:induction false} SameLevels(side: Side, ls: seq<Level>, ms: seq<Level>)
    requires Graded(side, ls) && Graded(side, ms) && side != NoSide && Flatten(ls) == Flatten(ms)
    ensures ls == ms
  {
    if ls != [] { FlattenHead(ls); }
    if ms != [] { FlattenHead(ms); }
    if ls != [] {
      FirstLevelRun(side, ls);
      FirstLevelRun(side, ms);
      var s, t := ls[0].orders, ms[0].orders;
      assert ls[0].price == s[0].price && ms[0].price == t[0].price;
      assert Flatten(ls)[..|s|] == s && Flatten(ms)[..|t|] == t;
      assert Flatten(ls)[|s|..] == Flatten(ls[1..]) && Flatten(ms)[|t|..] == Flatten(ms[1..]);
      GradedTail(side, ls);
      GradedTail(side, ms);
      SameLevels(side, ls[1..], ms[1..]);
      assert ls == [ls[0]] + ls[1..] && ms == [ms[0]] + ms[1..];
    }
  }
}
