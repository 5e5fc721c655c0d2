/** Price-time priority, reduced to its essence: each side of a book is one
  * sequence of orders, best first. Price levels and their FIFO queues are the
  * maximal runs of equal price in it (module Levels makes that precise).
  */
module PriceTime {
  import opened Types

  /** The client that placed an order, and its own id for it. Market data hides both. */
  datatype Owner = Owner(client: nat, orderId: nat)

  const ANONYMOUS := Owner(INVALID_32, INVALID_64)

  datatype Order = Order(owner: Owner, id: nat, side: Side, price: nat, qty: nat, priority: nat)

  datatype Book = Book(bids: seq<Order>, asks: seq<Order>) {
    function On(side: Side): seq<Order> {
      if side == Buy then bids else asks
    }

    function With(side: Side, orders: seq<Order>): Book {
      if side == Buy then this.(bids := orders) else this.(asks := orders)
    }

    predicate Has(o: Order) {
      o in bids || o in asks
    }
  }

  const EMPTY_BOOK := Book([], [])

  /** `p` is strictly more aggressive than `q` on the given side. */
  predicate Better(side: Side, p: nat, q: nat) {
    if side == Buy then p > q else p < q
  }

  /** An incoming order of this side and limit trades against a resting price. */
  predicate Crosses(side: Side, limit: nat, resting: nat) {
    if side == Buy then limit >= resting else limit <= resting
  }

  /** Price first, then arrival. */
  predicate Before(side: Side, a: Order, b: Order) {
    Better(side, a.price, b.price) || (a.price == b.price && a.id < b.id)
  }

  ghost predicate Sorted(side: Side, s: seq<Order>) {
    && (forall i | 0 <= i < |s| :: s[i].side == side)
    && (forall i, j | 0 <= i < j < |s| :: Before(side, s[i], s[j]))
  }

  // ---------- the three mutations ----------

  /** Queues `o` behind every order at its price or better. */
  function Insert(s: seq<Order>, o: Order): seq<Order> {
    if s == [] || Better(o.side, o.price, s[0].price) then [o] + s else [s[0]] + Insert(s[1..], o)
  }

  function Remove(s: seq<Order>, id: nat): seq<Order> {
    if s == [] then [] else (if s[0].id == id then [] else [s[0]]) + Remove(s[1..], id)
  }

  function Requantify(s: seq<Order>, id: nat, qty: nat): seq<Order> {
    if s == [] then []
    else [if s[0].id == id then s[0].(qty := qty) else s[0]] + Requantify(s[1..], id, qty)
  }

  /** `o` queued on its side of a book. */
  function Rested(b: Book, o: Order): Book {
    b.With(o.side, Insert(b.On(o.side), o))
  }

  /** A book without `o`. */
  function Taken(b: Book, o: Order): Book {
    b.With(o.side, Remove(b.On(o.side), o.id))
  }

  /** A book with the quantity of `o` changed. */
  function Resized(b: Book, o: Order, qty: nat): Book {
    b.With(o.side, Requantify(b.On(o.side), o.id, qty))
  }

  /** The priority the next order at this price gets: one more than the last one there. */
  function NextPriority(s: seq<Order>, price: nat): nat {
    if s == [] then 1
    else if s[|s| - 1].price == price then s[|s| - 1].priority + 1
    else NextPriority(s[..|s| - 1], price)
  }

  /** Some resting order sits in the slot of `price` at another price. */
  predicate Aliased(priceLevels: nat, s: seq<Order>, price: nat)
    requires 0 < priceLevels
  {
    exists o | o in s :: o.price % priceLevels == price % priceLevels && o.price != price
  }

  /** How many orders rest. */
  function Resting(b: Book): nat {
    |b.bids| + |b.asks|
  }

  function TotalQty(s: seq<Order>): nat {
    if s == [] then 0 else s[0].qty + TotalQty(s[1..])
  }

  // ---------- what they keep ----------

  lemma {:induction false} InsertHas(s: seq<Order>, o: Order, x: Order)
    ensures x in Insert(s, o) <==> x == o || x in s
  {
    if s != [] && !Better(o.side, o.price, s[0].price) {
      InsertHas(s[1..], o, x);
    }
  }

  lemma {:induction false} RemoveHas(s: seq<Order>, id: nat, x: Order)
    ensures x in Remove(s, id) <==> x in s && x.id != id
  {
    if s != [] {
      RemoveHas(s[1..], id, x);
    }
  }

  lemma {:induction false} RequantifyHas(s: seq<Order>, id: nat, qty: nat, x: Order)
    ensures x in Requantify(s, id, qty) <==>
            (x in s && x.id != id) || (x.id == id && x.qty == qty && exists y :: y in s && x == y.(qty := qty))
  {
    if s != [] {
      RequantifyHas(s[1..], id, qty, x);
      if x == s[0].(qty := qty) {
        assert s[0] in s;
      }
    }
  }

  lemma {:induction false} RemoveAbsent(s: seq<Order>, id: nat)
    requires forall o | o in s :: o.id != id
    ensures Remove(s, id) == s
  {
    if s != [] {
      RemoveAbsent(s[1..], id);
      assert s[0] in s;
    }
  }

  lemma {:induction false} RequantifyAbsent(s: seq<Order>, id: nat, qty: nat)
    requires forall o | o in s :: o.id != id
    ensures Requantify(s, id, qty) == s
  {
    if s != [] {
      RequantifyAbsent(s[1..], id, qty);
      assert s[0] in s;
    }
  }

  /** Consecutive order already gives the pairwise order of the tail to the head. */
  lemma {:induction false} SortedCons(side: Side, o: Order, s: seq<Order>)
    requires o.side == side && Sorted(side, s)
    requires forall x | x in s :: Before(side, o, x)
    ensures Sorted(side, [o] + s)
  {
    var t := [o] + s;
    forall i, j | 0 <= i < j < |t| ensures Before(side, t[i], t[j]) {
      assert t[j] == s[j - 1] && s[j - 1] in s;
      if i > 0 {
        assert t[i] == s[i - 1];
      }
    }
  }

  lemma {:induction false} SortedTail(side: Side, s: seq<Order>)
    requires Sorted(side, s) && s != []
    ensures Sorted(side, s[1..])
    ensures forall x | x in s[1..] :: Before(side, s[0], x)
    ensures s[0] !in s[1..]
    ensures forall x :: x in s[1..] <==> x in s && x != s[0]
  {
    assert s == [s[0]] + s[1..];
    forall x | x in s[1..] ensures Before(side, s[0], x) {
      var i :| 0 <= i < |s[1..]| && s[1..][i] == x;
      assert x == s[i + 1];
    }
  }

  /** A newcomer younger than everything at its price keeps price-time order. */
  lemma {:induction false} InsertSorted(side: Side, s: seq<Order>, o: Order)
    requires Sorted(side, s) && o.side == side
    requires forall x | x in s && x.price == o.price :: x.id < o.id
    ensures Sorted(side, Insert(s, o))
  {
    if s == [] {
    } else if Better(side, o.price, s[0].price) {
      SortedTail(side, s);
      SortedCons(side, o, s);
    } else {
      SortedTail(side, s);
      InsertSorted(side, s[1..], o);
      forall x | x in Insert(s[1..], o) ensures Before(side, s[0], x) {
        InsertHas(s[1..], o, x);
      }
      SortedCons(side, s[0], Insert(s[1..], o));
    }
  }

  lemma {:induction false} RemoveSorted(side: Side, s: seq<Order>, id: nat)
    requires Sorted(side, s)
    ensures Sorted(side, Remove(s, id))
  {
    if s != [] {
      SortedTail(side, s);
      RemoveSorted(side, s[1..], id);
      if s[0].id != id {
        forall x | x in Remove(s[1..], id) ensures Before(side, s[0], x) {
          RemoveHas(s[1..], id, x);
        }
        SortedCons(side, s[0], Remove(s[1..], id));
      } else {
        assert Remove(s, id) == Remove(s[1..], id);
      }
    }
  }

  lemma {:induction false} RequantifySorted(side: Side, s: seq<Order>, id: nat, qty: nat)
    requires Sorted(side, s)
    ensures Sorted(side, Requantify(s, id, qty))
  {
    if s != [] {
      SortedTail(side, s);
      RequantifySorted(side, s[1..], id, qty);
      forall x | x in Requantify(s[1..], id, qty) ensures Before(side, s[0], x) {
        RequantifyHas(s[1..], id, qty, x);
      }
      SortedCons(side, if s[0].id == id then s[0].(qty := qty) else s[0], Requantify(s[1..], id, qty));
    }
  }

  /** Price-time order is canonical: a side is determined by the orders it holds. */
  lemma {:induction false} Canonical(side: Side, s: seq<Order>, t: seq<Order>)
    requires Sorted(side, s) && Sorted(side, t)
    requires forall x :: x in s <==> x in t
    ensures s == t
  {
    assert t != [] ==> t[0] in t;
    if s != [] {
      assert s[0] in s;
      assert t != [];
      SortedTail(side, s);
      SortedTail(side, t);
      assert s[0] == t[0];
      Canonical(side, s[1..], t[1..]);
      assert s == [s[0]] + s[1..] && t == [t[0]] + t[1..];
    }
  }

  lemma {:induction false} TotalQtyAppend(s: seq<Order>, o: Order)
    ensures TotalQty(s + [o]) == TotalQty(s) + o.qty
  {
    if s == [] {
      assert s + [o] == [o];
    } else {
      assert (s + [o])[1..] == s[1..] + [o];
      TotalQtyAppend(s[1..], o);
    }
  }
}
