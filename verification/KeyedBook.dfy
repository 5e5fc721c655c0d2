/** The other order book of the repository: levels found in a map keyed by price,
  * orders in a map keyed by owner, and no admission checks. It is compared with the
  * direct-mapped book on whole runs of requests.
  */
module KeyedBook {
  import opened Types
  import opened PriceTime
  import opened Exchange
  import opened Soundness
  import opened Matching
  import opened Levels

  /** The queue at a price. */
  datatype Queue = Queue(side: Side, orders: seq<Order>)

  /** `bids` and `asks` are the level lists, by price; `owners` leads to resting orders. */
  datatype MapBook = MapBook(levels: map<nat, Queue>, bids: seq<nat>, asks: seq<nat>, owners: map<Owner, Order>,
          nextId: nat) {
    function Prices(side: Side): seq<nat> {
      if side == Buy then bids else asks
    }

    function WithPrices(side: Side, prices: seq<nat>): MapBook {
      if side == Buy then this.(bids := prices) else this.(asks := prices)
    }
  }

  const FRESH_KEYED := MapBook(map[], [], [], map[], 1)

  // ---------- its operations ----------

  /** The walk of `addOrdersAtPrice`. */
  function AddPrice(side: Side, prices: seq<nat>, price: nat): seq<nat> {
    if prices == [] || !Better(side, prices[0], price) then [price] + prices
    else [prices[0]] + AddPrice(side, prices[1..], price)
  }

  function DropPrice(prices: seq<nat>, price: nat): seq<nat> {
    if prices == [] then [] else if prices[0] == price then prices[1..] else [prices[0]] + DropPrice(prices[1..], price)
  }

  /** `getNextPriority`. */
  function PriorityAt(k: MapBook, price: nat): nat {
    if price !in k.levels || k.levels[price].orders == [] then 1
    else k.levels[price].orders[|k.levels[price].orders| - 1].priority + 1
  }

  /** `addOrder`. */
  function AddNode(k: MapBook, o: Order): MapBook {
    var owned := k.(owners := k.owners[o.owner := o]);
    if o.price !in k.levels then
      owned.(levels := k.levels[o.price := Queue(o.side, [o])]).WithPrices(o.side,
          AddPrice(o.side, k.Prices(o.side), o.price))
    else
      owned.(levels := k.levels[o.price := k.levels[o.price].(orders := k.levels[o.price].orders + [o])])
  }

  /** `removeOrder`. */
  function RemoveNode(k: MapBook, o: Order): MapBook {
    var freed := k.(owners := k.owners - {o.owner});
    if o.price !in k.levels then freed
    else if |k.levels[o.price].orders| <= 1 then
      freed.(levels := k.levels - {o.price}).WithPrices(o.side, DropPrice(k.Prices(o.side), o.price))
    else
      freed.(levels := k.levels[o.price := k.levels[o.price].(orders := Remove(k.levels[o.price].orders, o.id))])
  }

  /** A quantity written to a resting order. */
  function WriteQty(k: MapBook, o: Order, qty: nat): MapBook {
    if o.price !in k.levels then k
    else k.(levels := k.levels[o.price :=
                k.levels[o.price].(orders := Requantify(k.levels[o.price].orders, o.id, qty))],
            owners := k.owners[o.owner := o.(qty := qty)])
  }

  /** The first order of the first level of a side. */
  function Best(k: MapBook, side: Side): Option<Order> {
    var ps := k.Prices(side);
    if ps == [] || ps[0] !in k.levels || k.levels[ps[0]].orders == [] then None
    else Some(k.levels[ps[0]].orders[0])
  }

  /** What `match` leaves of the book. */
  function Matched(k: MapBook, maker: Order, leaves: nat): MapBook {
    var fill := Min(leaves, maker.qty);
    var written := WriteQty(k, maker, maker.qty - fill);
    if fill == maker.qty then RemoveNode(written, maker) else written
  }

  datatype KeyedSweep = KeyedSweep(k: MapBook, leaves: nat, effects: Effects)

  /** `checkForMatch`. No resting order is empty, so the loop need not say what happens then. */
  function SweepKeyed(t: Taker, k: MapBook, leaves: nat): KeyedSweep
    decreases leaves
  {
    var best := Best(k, Opposite(t.side));
    if leaves == 0 || best.None? || !Crosses(t.side, t.price, best.value.price) || best.value.qty == 0 then
      KeyedSweep(k, leaves, QUIET)
    else
      var s := SweepKeyed(t, Matched(k, best.value, leaves), leaves - Min(leaves, best.value.qty));
      s.(effects := MatchEffects(t, best.value, leaves).Then(s.effects))
  }

  datatype KeyedOutcome = KeyedOutcome(k: MapBook, effects: Effects)

  /** `add`: every NEW request is accepted. */
  function AddKeyed(k: MapBook, ticker: nat, owner: Owner, side: Side, price: nat, qty: nat): KeyedOutcome {
    var t := Taker(ticker, owner, k.nextId, side, price);
    var s := SweepKeyed(t, k.(nextId := k.nextId + 1), qty);
    var accepted := Effects([Acceptance(t, qty)], []).Then(s.effects);
    if s.leaves == 0 then KeyedOutcome(s.k, accepted)
    else
      var o := Order(owner, t.id, side, price, s.leaves, PriorityAt(s.k, price));
      KeyedOutcome(AddNode(s.k, o), accepted.Then(Effects([], [OrderUpdate(Add, ticker, o)])))
  }

  /** `cancel`. */
  function CancelKeyed(k: MapBook, ticker: nat, owner: Owner): KeyedOutcome {
    if owner !in k.owners then
      KeyedOutcome(k, Effects([Response(CancelRejected, owner.client, ticker, owner.orderId, INVALID_64,
                                        NoSide, INVALID_64, 0, 0)], []))
    else
      var o := k.owners[owner];
      KeyedOutcome(RemoveNode(k, o),
                   Effects([Response(Canceled, owner.client, ticker, owner.orderId, o.id, o.side, o.price, 0, 0)],
                           [OrderUpdate(Cancel, ticker, o)]))
  }

  // ---------- what it represents ----------

  /** The queues of a list of prices. */
  ghost predicate Listed(k: MapBook, side: Side) {
    forall i | 0 <= i < |k.Prices(side)| :: k.Prices(side)[i] in k.levels && k.levels[k.Prices(side)[i]].side == side
  }

  ghost function LevelsOf(k: MapBook, side: Side): (ls: seq<Level>)
    requires Listed(k, side)
    ensures |ls| == |k.Prices(side)|
    ensures forall i | 0 <= i < |ls| :: ls[i] == Level(k.Prices(side)[i], k.levels[k.Prices(side)[i]].orders)
  {
    var ps := k.Prices(side);
    seq(|ps|, i requires 0 <= i < |ps| => Level(ps[i], k.levels[ps[i]].orders))
  }

  /** Both lists hold graded levels, and no level is on neither. */
  ghost predicate Shaped(k: MapBook) {
    && Listed(k, Buy) && Listed(k, Sell)
    && Graded(Buy, LevelsOf(k, Buy)) && Graded(Sell, LevelsOf(k, Sell))
    && NoneUnlisted(k)
  }

  ghost predicate NoneUnlisted(k: MapBook) {
    forall p | p in k.levels :: p in k.Prices(k.levels[p].side) && k.levels[p].side != NoSide
  }

  ghost function FlatOf(k: MapBook): Book
    requires Shaped(k)
  {
    Book(Flatten(LevelsOf(k, Buy)), Flatten(LevelsOf(k, Sell)))
  }

  /** Every owner leads to its order. */
  ghost predicate Owned(k: MapBook, b: Book) {
    && (forall w | w in k.owners :: b.Has(k.owners[w]) && k.owners[w].owner == w)
    && (forall o | b.Has(o) :: o.owner in k.owners && k.owners[o.owner] == o)
  }

  /** The keyed book `k` represents the flat book `b`. */
  ghost predicate Represents(k: MapBook, b: Book) {
    Shaped(k) && b == FlatOf(k) && Owned(k, b)
  }

  // ---------- levels ----------

  /** A side whose prices and queues did not change. */
  lemma {:induction false} SideStays(k: MapBook, j: MapBook, side: Side, p: nat)
    requires Listed(k, side) && j.Prices(side) == k.Prices(side) && p !in k.Prices(side)
    requires forall q | q in k.levels && q != p :: q in j.levels && j.levels[q] == k.levels[q]
    ensures Listed(j, side) && LevelsOf(j, side) == LevelsOf(k, side)
  {
    var ps := k.Prices(side);
    assert forall i | 0 <= i < |ps| :: ps[i] in ps;
  }

  /** A price on one list is not on the other. */
  lemma {:induction false} Apart(k: MapBook, side: Side, p: nat)
    requires Listed(k, Buy) && Listed(k, Sell) && side != NoSide && p in k.levels && k.levels[p].side == side
    ensures p !in k.Prices(Opposite(side))
  {
  }

  lemma {:induction false} AddPriceAt(side: Side, ps: seq<nat>, price: nat) returns (i: nat)
    requires side != NoSide && price !in ps
    requires forall a, b | 0 <= a < b < |ps| :: Better(side, ps[a], ps[b])
    ensures i <= |ps| && AddPrice(side, ps, price) == ps[..i] + [price] + ps[i..]
    ensures forall a | 0 <= a < i :: Better(side, ps[a], price)
    ensures forall a | i <= a < |ps| :: Better(side, price, ps[a])
  {
    if ps == [] || !Better(side, ps[0], price) {
      i := 0;
      assert ps != [] ==> ps[0] in ps;
    } else {
      var t := ps[1..];
      i := AddPriceAt(side, t, price);
      assert [ps[0]] + (t[..i] + [price] + t[i..]) == ps[..i + 1] + [price] + ps[i + 1..];
      i := i + 1;
      forall a | 0 <= a < i ensures Better(side, ps[a], price) {
        assert a > 0 ==> ps[a] == t[a - 1];
      }
      forall a | i <= a < |ps| ensures Better(side, price, ps[a]) {
        assert ps[a] == t[a - 1];
      }
    }
  }

  lemma {:induction false} DropPriceAt(ps: seq<nat>, i: nat)
    requires i < |ps| && forall a, b | 0 <= a < b < |ps| :: ps[a] != ps[b]
    ensures DropPrice(ps, ps[i]) == ps[..i] + ps[i + 1..]
  {
    if i > 0 {
      DropPriceAt(ps[1..], i - 1);
      assert ps[1..][i - 1] == ps[i];
      assert [ps[0]] + (ps[1..][..i - 1] + ps[1..][i..]) == ps[..i] + ps[i + 1..];
    }
  }

  lemma {:induction false} PricesGraded(k: MapBook, side: Side)
    requires Listed(k, side) && Graded(side, LevelsOf(k, side)) && side != NoSide
    ensures var ps := k.Prices(side);
            && (forall a, b | 0 <= a < b < |ps| :: Better(side, ps[a], ps[b]))
            && (forall a, b | 0 <= a < b < |ps| :: ps[a] != ps[b])
  {
    var ls, ps := LevelsOf(k, side), k.Prices(side);
    assert forall a | 0 <= a < |ps| :: ls[a].price == ps[a];
  }

  // ---------- adding ----------

  /** The level side of `addOrder`. */
  lemma {:induction false} AddNodeLevels(k: MapBook, o: Order)
    requires Shaped(k) && o.side != NoSide && (o.price in k.levels ==> k.levels[o.price].side == o.side)
    ensures Shaped(AddNode(k, o)) && FlatOf(AddNode(k, o)) == Rested(FlatOf(k), o)
  {
    hide Graded, Flatten, Insert, Listed, AddNode, LevelsOf;
    AddNodeOther(k, o);
    if o.price in k.levels {
      AddToLevel(k, o);
    } else {
      AddLevel(k, o);
    }
  }

  lemma {:induction false} AddToLevel(k: MapBook, o: Order)
    requires Shaped(k) && o.side != NoSide && o.price in k.levels && k.levels[o.price].side == o.side
    ensures var j := AddNode(k, o);
            && Listed(j, o.side) && Graded(o.side, LevelsOf(j, o.side))
            && Flatten(LevelsOf(j, o.side)) == Insert(Flatten(LevelsOf(k, o.side)), o)
  {
    hide Graded, Flatten, Insert;
    var j, side, ps, ls := AddNode(k, o), o.side, k.Prices(o.side), LevelsOf(k, o.side);
    var i :| 0 <= i < |ps| && ps[i] == o.price;
    PricesGraded(k, side);
    JoinedAt(k, j, side, i, o);
    JoinGraded(side, ls, i, o);
    JoinLevel(side, ls, i, o);
  }

  lemma {:induction false} JoinedAt(k: MapBook, j: MapBook, side: Side, i: nat, o: Order)
    requires Listed(k, side) && i < |k.Prices(side)| && k.Prices(side)[i] == o.price && j.Prices(side) == k.Prices(side)
    requires forall a, b | 0 <= a < b < |k.Prices(side)| :: k.Prices(side)[a] != k.Prices(side)[b]
    requires j.levels == k.levels[o.price := k.levels[o.price].(orders := k.levels[o.price].orders + [o])]
    ensures Listed(j, side) && LevelsOf(j, side) == Joined(LevelsOf(k, side), i, o)
  {
    assert Listed(j, side);
  }

  lemma {:induction false} AddLevel(k: MapBook, o: Order)
    requires Shaped(k) && o.side != NoSide && o.price !in k.levels
    ensures var j := AddNode(k, o);
            && Listed(j, o.side) && Graded(o.side, LevelsOf(j, o.side))
            && Flatten(LevelsOf(j, o.side)) == Insert(Flatten(LevelsOf(k, o.side)), o)
  {
    hide Graded, Flatten, Insert, AddPrice, Listed, LevelsOf;
    var j, side, ls := AddNode(k, o), o.side, LevelsOf(k, o.side);
    PricesGraded(k, side);
    NotListed(k, side, o.price);
    var i := AddPriceAt(side, k.Prices(side), o.price);
    StartedAt(k, j, side, i, o);
    NewLevelGraded(side, ls, i, o);
    NewLevel(side, ls, i, o);
  }

  lemma {:induction false} NotListed(k: MapBook, side: Side, p: nat)
    requires Listed(k, side) && p !in k.levels
    ensures p !in k.Prices(side)
  {
  }

  lemma {:induction false} StartedAt(k: MapBook, j: MapBook, side: Side, i: nat, o: Order)
    requires Listed(k, side) && side == o.side != NoSide && i <= |k.Prices(side)| && o.price !in k.Prices(side)
    requires j.Prices(side) == k.Prices(side)[..i] + [o.price] + k.Prices(side)[i..]
    requires j.levels == k.levels[o.price := Queue(side, [o])]
    requires forall a | 0 <= a < i :: Better(side, k.Prices(side)[a], o.price)
    requires forall a | i <= a < |k.Prices(side)| :: Better(side, o.price, k.Prices(side)[a])
    ensures Listed(j, side)
    ensures LevelsOf(j, side) == LevelsOf(k, side)[..i] + [Level(o.price, [o])] + LevelsOf(k, side)[i..]
    ensures Belongs(side, LevelsOf(k, side), o.price, i)
    ensures forall a | 0 <= a < |LevelsOf(k, side)| :: LevelsOf(k, side)[a].price != o.price
  {
    var ps, qs := k.Prices(side), j.Prices(side);
    assert forall a | 0 <= a < |ps| :: ps[a] in ps;
    forall a | 0 <= a < |qs| ensures qs[a] in j.levels && j.levels[qs[a]].side == side {
      assert a != i ==> qs[a] == ps[if a < i then a else a - 1];
    }
    assert Listed(j, side);
  }

  lemma {:induction false} AddNodeOther(k: MapBook, o: Order)
    requires Shaped(k) && o.side != NoSide && (o.price in k.levels ==> k.levels[o.price].side == o.side)
    ensures var j, opp := AddNode(k, o), Opposite(o.side);
            && Listed(j, opp) && LevelsOf(j, opp) == LevelsOf(k, opp)
            && NoneUnlisted(j)
  {
    hide Graded, Flatten, AddPrice, LevelsOf, NoneUnlisted;
    if o.price in k.levels {
      Apart(k, o.side, o.price);
    } else {
      NotListed(k, Opposite(o.side), o.price);
    }
    SideStays(k, AddNode(k, o), Opposite(o.side), o.price);
    AddNodeListed(k, o);
  }

  lemma {:induction false} AddNodeListed(k: MapBook, o: Order)
    requires Shaped(k) && o.side != NoSide && (o.price in k.levels ==> k.levels[o.price].side == o.side)
    ensures NoneUnlisted(AddNode(k, o))
  {
    hide Graded, Flatten, AddPrice, LevelsOf, Listed;
    if o.price !in k.levels {
      PricesGraded(k, o.side);
      NotListed(k, o.side, o.price);
      var i := AddPriceAt(o.side, k.Prices(o.side), o.price);
      InsertedKeeps(k.Prices(o.side), i, o.price);
    }
  }

  lemma {:induction false} InsertedKeeps(ps: seq<nat>, i: nat, p: nat)
    requires i <= |ps|
    ensures p in ps[..i] + [p] + ps[i..] && forall q | q in ps :: q in ps[..i] + [p] + ps[i..]
  {
    assert ps == ps[..i] + ps[i..];
  }

  /** The new order rests. */
  lemma {:induction false} AddNodeRep(k: MapBook, b: Book, o: Order)
    requires Represents(k, b) && o.side != NoSide && (o.price in k.levels ==> k.levels[o.price].side == o.side)
    requires forall x | b.Has(x) :: x.owner != o.owner
    ensures Represents(AddNode(k, o), Rested(b, o))
  {
    hide Shaped, FlatOf, Insert;
    AddNodeLevels(k, o);
    forall x ensures Rested(b, o).Has(x) <==> x == o || b.Has(x) {
      InsertHas(b.On(o.side), o, x);
    }
    AddOwner(k, AddNode(k, o), b, Rested(b, o), o);
  }

  lemma {:induction false} AddOwner(k: MapBook, j: MapBook, b: Book, c: Book, o: Order)
    requires Owned(k, b) && j.owners == k.owners[o.owner := o] && forall x | b.Has(x) :: x.owner != o.owner
    requires forall x :: c.Has(x) <==> x == o || b.Has(x)
    ensures Owned(j, c)
  {
  }

  // ---------- removing and changing ----------

  /** Where an order of the flat book is: the `j`-th of the `i`-th level of its side. */
  ghost predicate At(k: MapBook, o: Order, i: nat, j: nat) {
    && o.side != NoSide && Listed(k, o.side)
    && i < |k.Prices(o.side)| && k.Prices(o.side)[i] == o.price && o.price in k.levels
    && k.levels[o.price].side == o.side
    && j < |k.levels[o.price].orders| && k.levels[o.price].orders[j] == o
  }

  lemma {:induction false} Locate(k: MapBook, o: Order, side: Side) returns (i: nat, j: nat)
    requires Shaped(k) && side != NoSide && o in FlatOf(k).On(side)
    ensures o.side == side && At(k, o, i, j)
  {
    var ls := LevelsOf(k, side);
    FlattenHas(ls, o);
    i :| 0 <= i < |ls| && o in ls[i].orders;
    j :| 0 <= j < |ls[i].orders| && ls[i].orders[j] == o;
  }

  /** Ids are distinct within a level if they are in its side. */
  lemma {:induction false} LevelDistinct(ls: seq<Level>, i: nat)
    requires i < |ls| && DistinctIds(Flatten(ls))
    ensures DistinctIds(ls[i].orders)
  {
    hide Flatten;
    FlattenSplit(ls, i);
    var s, q := Flatten(ls), ls[i].orders;
    var n := |Flatten(ls[..i])|;
    assert forall a | 0 <= a < |q| :: s[n + a] == q[a];
  }

  lemma {:induction false} RemoveNodeLevels(k: MapBook, o: Order, i: nat, j: nat)
    requires Shaped(k) && At(k, o, i, j) && DistinctIds(FlatOf(k).On(o.side))
    ensures Shaped(RemoveNode(k, o)) && FlatOf(RemoveNode(k, o)) == Taken(FlatOf(k), o)
  {
    hide Graded, Flatten, Remove, Listed, RemoveNode, LevelsOf, DistinctIds;
    var ls, m := LevelsOf(k, o.side), RemoveNode(k, o);
    LevelDistinct(ls, i);
    RemoveNodeOther(k, o, i, j);
    RemoveNodeSide(k, o, i, j);
    TakeOutGraded(o.side, ls, i, j);
    TakeOutFlat(ls, i, j);
  }

  lemma {:induction false} RemoveNodeSide(k: MapBook, o: Order, i: nat, j: nat)
    requires Shaped(k) && At(k, o, i, j)
    requires DistinctIds(LevelsOf(k, o.side)[i].orders)
    ensures var ls, m := LevelsOf(k, o.side), RemoveNode(k, o);
            Listed(m, o.side) && j < |ls[i].orders| && ls[i].orders[j] == o && LevelsOf(m, o.side) == TakeOut(ls, i, j)
  {
    hide Graded, Flatten, Remove, DropPrice;
    var side, m := o.side, RemoveNode(k, o);
    PricesGraded(k, side);
    var q := k.levels[o.price].orders;
    if |q| == 1 {
      DropPriceAt(k.Prices(side), i);
      DroppedAt(k, m, side, i);
    } else {
      RemoveAt(q, j);
      ReplacedAt(k, m, side, i, Without(q, j));
    }
  }

  lemma {:induction false} DroppedAt(k: MapBook, m: MapBook, side: Side, i: nat)
    requires Listed(k, side) && i < |k.Prices(side)|
    requires forall a, b | 0 <= a < b < |k.Prices(side)| :: k.Prices(side)[a] != k.Prices(side)[b]
    requires m.Prices(side) == k.Prices(side)[..i] + k.Prices(side)[i + 1..]
    requires m.levels == k.levels - {k.Prices(side)[i]}
    ensures Listed(m, side) && LevelsOf(m, side) == LevelsOf(k, side)[..i] + LevelsOf(k, side)[i + 1..]
  {
    var ps, qs := k.Prices(side), m.Prices(side);
    forall a | 0 <= a < |qs| ensures qs[a] in m.levels && m.levels[qs[a]] == k.levels[qs[a]]
        && k.levels[qs[a]].side == side {
      assert qs[a] == ps[if a < i then a else a + 1];
    }
    assert Listed(m, side);
    var ls, ms := LevelsOf(k, side), LevelsOf(m, side);
    forall a | 0 <= a < |ms| ensures ms[a] == ls[if a < i then a else a + 1] {
      assert qs[a] == ps[if a < i then a else a + 1];
    }
  }

  lemma {:induction false} ReplacedAt(k: MapBook, m: MapBook, side: Side, i: nat, q: seq<Order>)
    requires Listed(k, side) && i < |k.Prices(side)| && m.Prices(side) == k.Prices(side)
    requires forall a, b | 0 <= a < b < |k.Prices(side)| :: k.Prices(side)[a] != k.Prices(side)[b]
    requires m.levels == k.levels[k.Prices(side)[i] := k.levels[k.Prices(side)[i]].(orders := q)]
    ensures Listed(m, side) && LevelsOf(m, side) == LevelsOf(k, side)[i := Level(k.Prices(side)[i], q)]
  {
    assert Listed(m, side);
  }

  lemma {:induction false} RemoveNodeOther(k: MapBook, o: Order, i: nat, j: nat)
    requires Shaped(k) && At(k, o, i, j)
    ensures var m, opp := RemoveNode(k, o), Opposite(o.side);
            && Listed(m, opp) && LevelsOf(m, opp) == LevelsOf(k, opp)
            && NoneUnlisted(m)
  {
    hide Graded, Flatten, DropPrice, LevelsOf, NoneUnlisted;
    Apart(k, o.side, o.price);
    SideStays(k, RemoveNode(k, o), Opposite(o.side), o.price);
    RemoveNodeListed(k, o, i, j);
  }

  lemma {:induction false} RemoveNodeListed(k: MapBook, o: Order, i: nat, j: nat)
    requires Shaped(k) && At(k, o, i, j)
    ensures NoneUnlisted(RemoveNode(k, o))
  {
    hide Graded, Flatten, DropPrice, LevelsOf, Listed;
    PricesGraded(k, o.side);
    if |k.levels[o.price].orders| == 1 {
      DropPriceAt(k.Prices(o.side), i);
      DroppedKeeps(k.Prices(o.side), i);
    }
  }

  lemma {:induction false} DroppedKeeps(ps: seq<nat>, i: nat)
    requires i < |ps|
    ensures forall p | p in ps && p != ps[i] :: p in ps[..i] + ps[i + 1..]
  {
    assert ps == ps[..i] + [ps[i]] + ps[i + 1..];
  }

  lemma {:induction false} WriteQtyLevels(k: MapBook, o: Order, i: nat, j: nat, qty: nat)
    requires Shaped(k) && At(k, o, i, j) && DistinctIds(FlatOf(k).On(o.side))
    ensures Shaped(WriteQty(k, o, qty)) && FlatOf(WriteQty(k, o, qty)) == Resized(FlatOf(k), o, qty)
    ensures At(WriteQty(k, o, qty), o.(qty := qty), i, j)
  {
    hide Graded, Flatten, Requantify, DistinctIds;
    var side, m, ls := o.side, WriteQty(k, o, qty), LevelsOf(k, o.side);
    LevelDistinct(ls, i);
    PricesGraded(k, side);
    Apart(k, side, o.price);
    var q := k.levels[o.price].orders;
    WrittenAt(q, j, qty);
    ReplacedAt(k, m, side, i, q[j := o.(qty := qty)]);
    SideStays(k, m, Opposite(side), o.price);
    ResizeGraded(side, ls, i, j, qty);
    ResizeFlat(ls, i, j, qty);
  }

  lemma {:induction false} WrittenAt(q: seq<Order>, j: nat, qty: nat)
    requires j < |q| && DistinctIds(q)
    ensures Requantify(q, q[j].id, qty) == q[j := q[j].(qty := qty)]
  {
    RequantifyAt(q, j, qty);
  }

  // ---------- one match ----------

  lemma {:induction false} RemoveNodeRep(k: MapBook, b: Book, o: Order)
    requires Represents(k, b) && b.Has(o) && Keyed(b) && DistinctIds(b.bids) && DistinctIds(b.asks)
    ensures Represents(RemoveNode(k, o), Taken(b, o))
  {
    hide Shaped, FlatOf, Remove, At, DistinctIds, RemoveNode;
    var side := if o in b.bids then Buy else Sell;
    var i, j := Locate(k, o, side);
    RemoveNodeLevels(k, o, i, j);
    forall x ensures Taken(b, o).Has(x) <==> b.Has(x) && x != o {
      RemoveHas(b.On(o.side), o.id, x);
      if o in b.On(Opposite(o.side)) {
        var i', j' := Locate(k, o, Opposite(o.side));
      }
    }
    RemoveOwner(k, RemoveNode(k, o), b, Taken(b, o), o);
  }

  lemma {:induction false} RemoveOwner(k: MapBook, m: MapBook, b: Book, c: Book, o: Order)
    requires Owned(k, b) && b.Has(o) && m.owners == (RemoveNode(k, o)).owners
    requires forall x :: c.Has(x) <==> b.Has(x) && x != o
    ensures Owned(m, c)
  {
    assert m.owners == k.owners - {o.owner};
  }

  lemma {:induction false} WriteQtyRep(k: MapBook, b: Book, o: Order, qty: nat)
    requires Represents(k, b) && b.Has(o) && DistinctIds(b.bids) && DistinctIds(b.asks)
    requires forall x | b.Has(x) && x.id == o.id :: x == o
    ensures Represents(WriteQty(k, o, qty), Resized(b, o, qty))
    ensures Resized(b, o, qty).Has(o.(qty := qty))
  {
    hide Shaped, FlatOf, Requantify, DistinctIds, WriteQty;
    var side := if o in b.bids then Buy else Sell;
    var i, j := Locate(k, o, side);
    WriteQtyLevels(k, o, i, j, qty);
    var m, c, small := WriteQty(k, o, qty), Resized(b, o, qty), o.(qty := qty);
    forall x ensures c.Has(x) <==> (b.Has(x) && x != o) || x == small {
      RequantifyHas(b.On(o.side), o.id, qty, x);
      if o in b.On(Opposite(o.side)) {
        var i', j' := Locate(k, o, Opposite(o.side));
      }
    }
    WriteOwner(k, m, b, c, o, qty);
  }

  lemma {:induction false} WriteOwner(k: MapBook, m: MapBook, b: Book, c: Book, o: Order, qty: nat)
    requires Owned(k, b) && b.Has(o) && o.price in k.levels && m.owners == WriteQty(k, o, qty).owners
    requires forall x :: c.Has(x) <==> (b.Has(x) && x != o) || x == o.(qty := qty)
    ensures Owned(m, c)
  {
    assert m.owners == k.owners[o.owner := o.(qty := qty)];
  }

  lemma {:induction false} BestIs(k: MapBook, b: Book, side: Side)
    requires Represents(k, b) && side != NoSide
    ensures Best(k, side) == if b.On(side) == [] then None else Some(b.On(side)[0])
  {
    hide Owned;
    var ls := LevelsOf(k, side);
    if ls != [] {
      FlattenHead(ls);
    }
  }

  /** One match, in the keyed book and in the flat one. */
  lemma {:induction false} MatchedRep(cfg: Config, k: MapBook, x: XBook, side: Side, leaves: nat)
    requires cfg.Valid() && Sound(cfg, x) && Represents(k, x.book) && side != NoSide && 0 < leaves
    requires x.book.On(side) != []
    ensures var opp := x.book.On(side);
            Represents(Matched(k, opp[0], leaves), x.book.With(side, AfterMatch(opp, leaves)))
  {
    hide Represents, Sound, Keyed, DistinctIds, AfterMatch, Resized, Taken;
    var opp := x.book.On(side);
    var o, q := opp[0], opp[0].qty - Min(leaves, opp[0].qty);
    SoundSide(cfg, x, Buy);
    SoundSide(cfg, x, Sell);
    SoundKeyed(cfg, x);
    assert o in opp;
    MatchedBook(x.book, side, leaves);
    WriteQtyRep(k, x.book, o, q);
    if q == 0 {
      var c := Resized(x.book, o, 0);
      assert o !in x.book.On(Opposite(o.side));
      ResizedKeyed(x.book, o, 0);
      RemoveNodeRep(WriteQty(k, o, 0), c, o.(qty := 0));
    }
  }

  lemma {:induction false} SoundKeyed(cfg: Config, x: XBook)
    requires cfg.Valid() && Sound(cfg, x)
    ensures Keyed(x.book)
    ensures forall o, p | x.book.Has(o) && x.book.Has(p) && o.id == p.id :: o == p
  {
  }

  lemma {:induction false} ResizedKeyed(b: Book, o: Order, qty: nat)
    requires Keyed(b) && o in b.On(o.side) && o.side != NoSide && o !in b.On(Opposite(o.side))
    ensures Keyed(Resized(b, o, qty)) && Resized(b, o, qty).On(Opposite(o.side)) == b.On(Opposite(o.side))
  {
    hide Requantify;
    var c, small := Resized(b, o, qty), o.(qty := qty);
    assert b.Has(o);
    forall x | c.Has(x) ensures x == small || (b.Has(x) && x.id != o.id && x.owner != o.owner) {
      RequantifyHas(b.On(o.side), o.id, qty, x);
      if y :| y in b.On(o.side) && x == y.(qty := qty) && x.id == o.id {
        assert b.Has(y);
      }
      assert b.Has(x) && x != o ==> x.id != o.id && x.owner != o.owner;
    }
  }

  // ---------- whole requests ----------

  lemma {:induction false} SweepRep(cfg: Config, t: Taker, k: MapBook, x: XBook, leaves: nat)
    requires cfg.Valid() && Sound(cfg, x) && Represents(k, x.book) && t.side != NoSide
    ensures var s, z := SweepKeyed(t, k, leaves), Sweep(t, x.book.On(Opposite(t.side)), leaves);
            && s.leaves == z.leaves && s.effects == z.effects && s.k.nextId == k.nextId
            && Represents(s.k, x.book.With(Opposite(t.side), z.rest))
    decreases leaves
  {
    hide Represents, Sound, AfterMatch, MatchEffects, Best, Matched;
    var side := Opposite(t.side);
    var opp := x.book.On(side);
    BestIs(k, x.book, side);
    SoundSide(cfg, x, side);
    if leaves == 0 || opp == [] || !Crosses(t.side, t.price, opp[0].price) {
      assert x.book.With(side, opp) == x.book;
    } else {
      assert opp[0] in opp;
      MatchedRep(cfg, k, x, side, leaves);
      MatchedSound(cfg, x, side, leaves);
      MatchedId(k, opp[0], leaves);
      var y := x.(book := x.book.With(side, AfterMatch(opp, leaves)));
      SweepStep(t, opp, leaves);
      SweepRep(cfg, t, Matched(k, opp[0], leaves), y, leaves - Min(leaves, opp[0].qty));
    }
  }

  lemma {:induction false} MatchedId(k: MapBook, o: Order, leaves: nat)
    ensures Matched(k, o, leaves).nextId == k.nextId
  {
  }

  /** The keyed and the direct-mapped book are in the same state. */
  ghost predicate Twins(cfg: Config, k: MapBook, x: XBook)
    requires cfg.Valid()
  {
    Sound(cfg, x) && Represents(k, x.book) && k.nextId == x.nextId
  }

  /** An order for the next priority at its price. */
  lemma {:induction false} PriorityIs(k: MapBook, b: Book, side: Side, price: nat)
    requires Represents(k, b) && side != NoSide && (price in k.levels ==> k.levels[price].side == side)
    ensures PriorityAt(k, price) == NextPriority(b.On(side), price)
  {
    hide Owned, NextPriority, Flatten, Graded;
    var ls := LevelsOf(k, side);
    if price in k.levels {
      var i :| 0 <= i < |k.Prices(side)| && k.Prices(side)[i] == price;
      NextPriorityLevel(side, ls, i);
      GradedAt(side, ls, i);
    } else {
      NotThere(side, ls, price);
      NextPriorityFresh(ls, price);
    }
  }

  lemma {:induction false} GradedAt(side: Side, ls: seq<Level>, i: nat)
    requires Graded(side, ls) && i < |ls|
    ensures ls[i].orders != []
  {
  }

  lemma {:induction false} NotThere(side: Side, ls: seq<Level>, price: nat)
    requires Graded(side, ls) && forall i | 0 <= i < |ls| :: ls[i].price != price
    ensures forall y | y in Flatten(ls) :: y.price != price
  {
    hide Flatten;
    forall y | y in Flatten(ls) ensures y.price != price {
      FlattenHas(ls, y);
    }
  }

  /** If all orders at a price are on one side, so is the level there. */
  lemma {:induction false} LevelSide(k: MapBook, b: Book, side: Side, price: nat)
    requires Represents(k, b) && side != NoSide && price in k.levels
    requires forall y | b.Has(y) && y.price == price :: y.side == side
    ensures k.levels[price].side == side
  {
    hide Owned;
    var s := k.levels[price].side;
    var ls := LevelsOf(k, s);
    var i :| 0 <= i < |k.Prices(s)| && k.Prices(s)[i] == price;
    var y := ls[i].orders[0];
    assert y in ls[i].orders;
    FlattenHas(ls, y);
  }

  lemma {:induction false} RenumberRep(k: MapBook, b: Book, n: nat)
    requires Represents(k, b)
    ensures Represents(k.(nextId := n), b)
  {
    var j := k.(nextId := n);
    assert Listed(j, Buy) && Listed(j, Sell);
    assert LevelsOf(j, Buy) == LevelsOf(k, Buy) && LevelsOf(j, Sell) == LevelsOf(k, Sell);
  }

  /** Every request that the direct-mapped book admits has the same outcome in both. */
  lemma {:induction false} AddTwins(cfg: Config, k: MapBook, x: XBook, ticker: nat, owner: Owner, side: Side,
          price: nat, qty: nat)
    requires cfg.Valid() && Twins(cfg, k, x) && side != NoSide && Admits(cfg, x.book, owner, price)
    ensures var a, c := AddKeyed(k, ticker, owner, side, price, qty), AddOrder(cfg, x, ticker, owner, side, price, qty);
            a.effects == c.effects && Twins(cfg, a.k, c.x)
  {
    hide Represents, Sound, Sweep, SweepKeyed, Admits, AddNode, PriorityAt, NextPriority, Rested;
    var t := Taker(ticker, owner, x.nextId, side, price);
    var j := k.(nextId := k.nextId + 1);
    RenumberRep(k, x.book, k.nextId + 1);
    SweepRep(cfg, t, j, x, qty);
    AddKeepsSound(cfg, x, ticker, owner, side, price, qty);
    var z := Sweep(t, x.book.On(Opposite(side)), qty);
    if z.leaves > 0 {
      RemainderFits(cfg, x, t, qty);
      RestTwins(cfg, SweepKeyed(t, j, qty).k, x.book.With(Opposite(side), z.rest), t, z.leaves);
    }
  }

  lemma {:induction false} RestTwins(cfg: Config, k: MapBook, c: Book, t: Taker, leaves: nat)
    requires cfg.Valid() && Represents(k, c) && t.side != NoSide && Admits(cfg, c, t.owner, t.price)
    requires forall y | c.Has(y) && y.price % cfg.priceLevels == t.price % cfg.priceLevels ::
             y.price == t.price && y.side == t.side
    ensures PriorityAt(k, t.price) == NextPriority(c.On(t.side), t.price)
    ensures var o := Remainder(t, c, leaves);
            Represents(AddNode(k, o), Rested(c, o)) && AddNode(k, o).nextId == k.nextId
  {
    hide Represents, NextPriority, PriorityAt;
    if t.price in k.levels {
      LevelSide(k, c, t.side, t.price);
    }
    PriorityIs(k, c, t.side, t.price);
    forall y | c.Has(y) ensures y.owner != t.owner {
    }
    AddNodeRep(k, c, Remainder(t, c, leaves));
  }

  lemma {:induction false} CancelTwins(cfg: Config, k: MapBook, x: XBook, ticker: nat, owner: Owner)
    requires cfg.Valid() && Twins(cfg, k, x)
    ensures var a, c := CancelKeyed(k, ticker, owner), CancelOrder(x, ticker, owner);
            a.effects == c.effects && Twins(cfg, a.k, c.x)
  {
    hide Sound, Shaped, FlatOf, Keyed, DistinctIds, RemoveNode, Taken, Lookup;
    LookupHas(x.book, owner);
    CancelKeepsSound(cfg, x, ticker, owner);
    SoundKeyed(cfg, x);
    SoundSide(cfg, x, Buy);
    SoundSide(cfg, x, Sell);
    if owner in k.owners {
      var o := k.owners[owner];
      assert Lookup(x.book, owner) == Some(o);
      CanceledBook(x, ticker, owner, o);
      RemoveNodeRep(k, x.book, o);
      RemoveId(k, o);
    }
  }

  lemma {:induction false} RemoveId(k: MapBook, o: Order)
    ensures RemoveNode(k, o).nextId == k.nextId
  {
  }

  // ---------- runs ----------

  /** What reaches one book: NEW with a side, or CANCEL. */
  predicate Plain(r: Request) {
    (r.kind == NewRequest && r.side != NoSide) || r.kind == CancelRequest
  }

  function ServeKeyed(k: MapBook, r: Request): KeyedOutcome {
    var owner := Owner(r.client, r.orderId);
    if r.kind == NewRequest then AddKeyed(k, r.ticker, owner, r.side, r.price, r.qty)
    else CancelKeyed(k, r.ticker, owner)
  }

  function Serve(cfg: Config, x: XBook, r: Request): Outcome
    requires cfg.Valid()
  {
    var owner := Owner(r.client, r.orderId);
    if r.kind == NewRequest then AddOrder(cfg, x, r.ticker, owner, r.side, r.price, r.qty)
    else CancelOrder(x, r.ticker, owner)
  }

  function RunKeyed(rs: seq<Request>): KeyedOutcome {
    if rs == [] then KeyedOutcome(FRESH_KEYED, QUIET)
    else
      var before := RunKeyed(rs[..|rs| - 1]);
      var out := ServeKeyed(before.k, rs[|rs| - 1]);
      KeyedOutcome(out.k, before.effects.Then(out.effects))
  }

  function RunDirect(cfg: Config, rs: seq<Request>): Outcome
    requires cfg.Valid()
  {
    if rs == [] then Outcome(FRESH_XBOOK, QUIET)
    else
      var before := RunDirect(cfg, rs[..|rs| - 1]);
      var out := Serve(cfg, before.x, rs[|rs| - 1]);
      Outcome(out.x, before.effects.Then(out.effects))
  }

  ghost predicate NoneRejected(e: Effects) {
    forall r | r in e.responses :: r.kind != Rejected
  }

  lemma {:induction false} SweepNeverRejects(t: Taker, k: MapBook, leaves: nat)
    ensures NoneRejected(SweepKeyed(t, k, leaves).effects)
    decreases leaves
  {
    hide Matched, Best;
    var best := Best(k, Opposite(t.side));
    if !(leaves == 0 || best.None? || !Crosses(t.side, t.price, best.value.price) || best.value.qty == 0) {
      SweepNeverRejects(t, Matched(k, best.value, leaves), leaves - Min(leaves, best.value.qty));
    }
  }

  lemma {:induction false} KeyedNeverRejects(rs: seq<Request>)
    ensures NoneRejected(RunKeyed(rs).effects)
  {
    hide SweepKeyed, RemoveNode, AddNode, PriorityAt;
    if rs != [] {
      var before, r := RunKeyed(rs[..|rs| - 1]), rs[|rs| - 1];
      KeyedNeverRejects(rs[..|rs| - 1]);
      if r.kind == NewRequest {
        var t := Taker(r.ticker, Owner(r.client, r.orderId), before.k.nextId, r.side, r.price);
        SweepNeverRejects(t, before.k.(nextId := before.k.nextId + 1), r.qty);
      }
    }
  }

  /** A NEW request that is not admitted is answered by a rejection. */
  lemma {:induction false} RefusalShows(cfg: Config, x: XBook, r: Request)
    requires cfg.Valid() && r.kind == NewRequest && !Admits(cfg, x.book, Owner(r.client, r.orderId), r.price)
    ensures !NoneRejected(Serve(cfg, x, r).effects)
  {
    hide Admits;
    assert Serve(cfg, x, r).effects.responses[0] in Serve(cfg, x, r).effects.responses;
  }

  lemma {:induction false} ServeTwins(cfg: Config, k: MapBook, x: XBook, r: Request)
    requires cfg.Valid() && Twins(cfg, k, x) && Plain(r) && NoneRejected(Serve(cfg, x, r).effects)
    ensures ServeKeyed(k, r).effects == Serve(cfg, x, r).effects && Twins(cfg, ServeKeyed(k, r).k, Serve(cfg, x, r).x)
  {
    hide Twins, Admits, AddKeyed, CancelKeyed, CancelOrder, Settle;
    var owner := Owner(r.client, r.orderId);
    if r.kind == NewRequest {
      if !Admits(cfg, x.book, owner, r.price) {
        RefusalShows(cfg, x, r);
      }
      AddTwins(cfg, k, x, r.ticker, owner, r.side, r.price, r.qty);
    } else {
      CancelTwins(cfg, k, x, r.ticker, owner);
    }
  }

  lemma {:induction false} RunTwins(cfg: Config, rs: seq<Request>)
    requires cfg.Valid() && (forall r | r in rs :: Plain(r)) && NoneRejected(RunDirect(cfg, rs).effects)
    ensures RunKeyed(rs).effects == RunDirect(cfg, rs).effects && Twins(cfg, RunKeyed(rs).k, RunDirect(cfg, rs).x)
  {
    hide Twins, Serve, ServeKeyed, Plain;
    if rs == [] {
      FreshTwins(cfg);
    } else {
      var init, r := rs[..|rs| - 1], rs[|rs| - 1];
      var before := RunDirect(cfg, init);
      var out := Serve(cfg, before.x, r);
      assert NoneRejected(before.effects) && NoneRejected(out.effects) by {
        assert forall q | q in before.effects.responses :: q in RunDirect(cfg, rs).effects.responses;
        assert forall q | q in out.effects.responses :: q in RunDirect(cfg, rs).effects.responses;
      }
      RunTwins(cfg, init);
      ServeTwins(cfg, RunKeyed(init).k, before.x, r);
    }
  }

  lemma {:induction false} FreshTwins(cfg: Config)
    requires cfg.Valid()
    ensures Twins(cfg, FRESH_KEYED, FRESH_XBOOK)
  {
    EmptySound(cfg);
    assert LevelsOf(FRESH_KEYED, Buy) == [] && LevelsOf(FRESH_KEYED, Sell) == [];
  }

  /** On any run of requests the two books answer and publish alike exactly if the
    * direct-mapped one rejects nothing; and then they end in the same state.
    */
  lemma {:induction false} SameUnlessRejected(cfg: Config, rs: seq<Request>)
    requires cfg.Valid() && forall r | r in rs :: Plain(r)
    ensures RunKeyed(rs).effects == RunDirect(cfg, rs).effects <==> NoneRejected(RunDirect(cfg, rs).effects)
    ensures NoneRejected(RunDirect(cfg, rs).effects) ==> Represents(RunKeyed(rs).k, RunDirect(cfg, rs).x.book)
  {
    hide Represents, Sound, RunKeyed, RunDirect, NoneRejected;
    KeyedNeverRejects(rs);
    if NoneRejected(RunDirect(cfg, rs).effects) {
      RunTwins(cfg, rs);
    }
  }
}
