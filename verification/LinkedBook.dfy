/** The structure both order books are built on: price levels in a circular list
  * per side, orders in a circular FIFO list per level, a table from price slots
  * to levels, and a pool for either kind of node. A pointer is the number of the
  * pool block it points into.
  */
module LinkedBooks {
  import opened Types
  import opened PriceTime
  import opened Levels
  import opened MemPools

  datatype OrderNode = OrderNode(order: Order, prev: int, next: int)

  datatype LevelNode = LevelNode(side: Side, price: nat, first: int, prev: int, next: int)

  /** The memory: slot table, blocks of both pools, and the heads of the two sides. */
  datatype Store = Store(slots: seq<int>, levels: seq<LevelNode>, orders: seq<OrderNode>, bids: int, asks: int) {
    function Head(side: Side): int {
      if side == Buy then bids else asks
    }

    function WithHead(side: Side, head: int): Store {
      if side == Buy then this.(bids := head) else this.(asks := head)
    }
  }

  /** How the memory is meant: the level blocks of each side from the head on, the
    * order blocks of every level from the first on, and each order block's level.
    */
  datatype Shape = Shape(bids: seq<nat>, asks: seq<nat>, fifos: seq<seq<nat>>, home: seq<int>) {
    function Ring(side: Side): seq<nat> {
      if side == Buy then bids else asks
    }

    function WithRing(side: Side, ring: seq<nat>): Shape {
      if side == Buy then this.(bids := ring) else this.(asks := ring)
    }
  }

  // ---------- rings ----------

  ghost predicate Distinct(s: seq<nat>, n: nat) {
    && (forall i | 0 <= i < |s| :: s[i] < n)
    && (forall i, j | 0 <= i < j < |s| :: s[i] != s[j])
  }

  /** The blocks `r` form a ring, both ways, in this order. */
  ghost predicate Ring(next: seq<int>, prev: seq<int>, r: seq<nat>) {
    && |next| == |prev| && Distinct(r, |next|)
    && (forall i, j | 0 <= i < |r| && 0 <= j < |r| && j == Wrap(i, |r|) :: next[r[i]] == r[j] && prev[r[j]] == r[i])
  }

  function Inserted<T>(r: seq<T>, k: nat, x: T): (t: seq<T>)
    requires k <= |r|
    ensures |t| == |r| + 1 && t[k] == x
    ensures forall i | 0 <= i < |t| && i != k :: t[i] == r[if i < k then i else i - 1]
  {
    r[..k] + [x] + r[k..]
  }

  function Dropped<T>(r: seq<T>, k: nat): (t: seq<T>)
    requires k < |r|
    ensures |t| == |r| - 1
    ensures forall i | 0 <= i < |t| :: t[i] == r[if i < k then i else i + 1]
  {
    r[..k] + r[k + 1..]
  }

  /** The four link assignments that put `x` in at place `k` of `r`. */
  ghost predicate Spliced(next: seq<int>, prev: seq<int>, next': seq<int>, prev': seq<int>, r: seq<nat>, k: nat, x: nat)
    requires |prev| == |next| == |next'| == |prev'| && Distinct(r, |next|) && r != [] && k <= |r| && x < |next|
  {
    var b := if k == 0 then |r| - 1 else k - 1;
    var a := if k == |r| then 0 else k;
    && next'[r[b]] == x && prev'[x] == r[b] && next'[x] == r[a] && prev'[r[a]] == x
    && (forall i | 0 <= i < |r| && i != b :: next'[r[i]] == next[r[i]])
    && (forall i | 0 <= i < |r| && i != a :: prev'[r[i]] == prev[r[i]])
  }

  /** Putting `x` between two neighbours. */
  lemma {:induction false} RingInsert(next: seq<int>, prev: seq<int>, next': seq<int>, prev': seq<int>, r: seq<nat>,
          k: nat, x: nat)
    requires Ring(next, prev, r) && r != [] && k <= |r| && x < |next| && x !in r && |next'| == |prev'| == |next|
    requires Spliced(next, prev, next', prev', r, k, x)
    ensures Ring(next', prev', Inserted(r, k, x))
  {
    hide Inserted, Distinct, Spliced;
    InsertedHas(r, |next|, k, x);
    var t := Inserted(r, k, x);
    forall i, j | 0 <= i < |t| && 0 <= j < |t| && j == Wrap(i, |t|) ensures next'[t[i]] == t[j] && prev'[t[j]] == t[i] {
      LinkInserted(next, prev, next', prev', r, k, x, i);
      assert t[i] == InsertedAt(r, k, x, i) && t[j] == InsertedAt(r, k, x, j);
    }
  }

  lemma {:induction false} RingLink(next: seq<int>, prev: seq<int>, r: seq<nat>, i: nat)
    requires Ring(next, prev, r) && i < |r|
    ensures var j := Wrap(i, |r|);
            r[i] < |next| && r[j] < |next| && next[r[i]] == r[j] && prev[r[j]] == r[i]
  {
  }

  /** The element at `i` once `x` is put in at `k`. */
  function InsertedAt(r: seq<nat>, k: nat, x: nat, i: nat): nat
    requires k <= |r| && i <= |r|
  {
    if i < k then r[i] else if i == k then x else r[i - 1]
  }

  /** One link of the ring with `x` in it. */
  lemma {:induction false} LinkInserted(next: seq<int>, prev: seq<int>, next': seq<int>, prev': seq<int>, r: seq<nat>,
                                        k: nat, x: nat, i: nat)
    requires Ring(next, prev, r) && r != [] && k <= |r| && x < |next| && |next'| == |prev'| == |next|
    requires Spliced(next, prev, next', prev', r, k, x)
    requires i <= |r|
    ensures var u, v := InsertedAt(r, k, x, i), InsertedAt(r, k, x, Wrap(i, |r| + 1));
            u < |next| && v < |next| && next'[u] == v && prev'[v] == u
  {
    var n, b := |r|, if k == 0 then |r| - 1 else k - 1;
    RingLink(next, prev, r, b);
    hide Ring;
    if i != k && Wrap(i, n + 1) != k {
      RingLink(next, prev, r, if i < k then i else i - 1);
    }
  }

  /** Taking the `k`-th block out of a ring of at least two. */
  lemma {:induction false} RingRemove(next: seq<int>, prev: seq<int>, next': seq<int>, prev': seq<int>, r: seq<nat>,
          k: nat)
    requires Ring(next, prev, r) && 2 <= |r| && k < |r| && |next'| == |prev'| == |next|
    requires var b := if k == 0 then |r| - 1 else k - 1;
             var a := Wrap(k, |r|);
             && next'[r[b]] == r[a] && prev'[r[a]] == r[b]
             && (forall i | 0 <= i < |r| && i != b && i != k :: next'[r[i]] == next[r[i]])
             && (forall i | 0 <= i < |r| && i != a && i != k :: prev'[r[i]] == prev[r[i]])
    ensures Ring(next', prev', Dropped(r, k))
  {
    hide Dropped;
    var t, n := Dropped(r, k), |r|;
    var b := if k == 0 then n - 1 else k - 1;
    forall i, j | 0 <= i < |t| && 0 <= j < |t| && j == Wrap(i, |t|) ensures next'[t[i]] == t[j] && prev'[t[j]] == t[i] {
      var i', j' := if i < k then i else i + 1, if j < k then j else j + 1;
      assert t[i] == r[i'] && t[j] == r[j'];
      if i' != b {
        assert j' == Wrap(i', n);
      } else {
        assert j' == Wrap(k, n);
      }
    }
  }

  ghost function OrderNexts(orders: seq<OrderNode>): (s: seq<int>)
    ensures |s| == |orders| && forall i | 0 <= i < |s| :: s[i] == orders[i].next
  {
    seq(|orders|, i requires 0 <= i < |orders| => orders[i].next)
  }

  ghost function OrderPrevs(orders: seq<OrderNode>): (s: seq<int>)
    ensures |s| == |orders| && forall i | 0 <= i < |s| :: s[i] == orders[i].prev
  {
    seq(|orders|, i requires 0 <= i < |orders| => orders[i].prev)
  }

  ghost function LevelNexts(levels: seq<LevelNode>): (s: seq<int>)
    ensures |s| == |levels| && forall i | 0 <= i < |s| :: s[i] == levels[i].next
  {
    seq(|levels|, i requires 0 <= i < |levels| => levels[i].next)
  }

  ghost function LevelPrevs(levels: seq<LevelNode>): (s: seq<int>)
    ensures |s| == |levels| && forall i | 0 <= i < |s| :: s[i] == levels[i].prev
  {
    seq(|levels|, i requires 0 <= i < |levels| => levels[i].prev)
  }

  ghost predicate OrderRing(orders: seq<OrderNode>, f: seq<nat>) {
    Ring(OrderNexts(orders), OrderPrevs(orders), f)
  }

  ghost predicate LevelRing(levels: seq<LevelNode>, r: seq<nat>) {
    Ring(LevelNexts(levels), LevelPrevs(levels), r)
  }

  /** A ring whose links did not change is still a ring. */
  lemma {:induction false} RingSame(next: seq<int>, prev: seq<int>, next': seq<int>, prev': seq<int>, r: seq<nat>)
    requires Ring(next, prev, r) && |next'| == |prev'| == |next|
    requires forall i | 0 <= i < |r| :: next'[r[i]] == next[r[i]] && prev'[r[i]] == prev[r[i]]
    ensures Ring(next', prev', r)
  {
  }

  // ---------- the invariant ----------

  ghost predicate Sized(m: Store, h: Shape, priceLevels: nat) {
    && 0 < priceLevels == |m.slots| == |m.levels| == |h.fifos|
    && |m.orders| == |h.home|
    && Distinct(h.bids, |m.levels|) && Distinct(h.asks, |m.levels|)
  }

  /** A live level: a ring of orders of its side and price, each of which knows it. */
  ghost predicate LevelOk(m: Store, h: Shape, side: Side, b: nat) {
    && b < |m.levels| && b < |h.fifos| && |m.orders| == |h.home|
    && var l, f := m.levels[b], h.fifos[b];
       && l.side == side && f != [] && l.first == f[0]
       && OrderRing(m.orders, f)
       && (forall j | 0 <= j < |f| ::
             h.home[f[j]] == b && m.orders[f[j]].order.side == side && m.orders[f[j]].order.price == l.price)
  }

  /** A side: live levels in a ring, best price first. */
  ghost predicate SideOk(m: Store, h: Shape, side: Side) {
    var r := h.Ring(side);
    && LevelRing(m.levels, r)
    && m.Head(side) == (if r == [] then NULL else r[0])
    && (forall i | 0 <= i < |r| :: LevelOk(m, h, side, r[i]))
    && Descending(m.levels, side, r)
  }

  /** Prices in strict order of aggressiveness. */
  ghost predicate Descending(levels: seq<LevelNode>, side: Side, r: seq<nat>) {
    && (forall i | 0 <= i < |r| :: r[i] < |levels|)
    && (forall i, j | 0 <= i < j < |r| :: Better(side, levels[r[i]].price, levels[r[j]].price))
  }

  /** The direct-mapped slot of a price. */
  function SlotIndex(price: nat, priceLevels: nat): (i: nat)
    requires 0 < priceLevels
    ensures i < priceLevels
  {
    price % priceLevels
  }

  /** The slot table knows exactly the live levels. */
  ghost predicate SlotsOk(m: Store, h: Shape, priceLevels: nat)
    requires Sized(m, h, priceLevels)
  {
    && (forall b | b in h.bids :: m.slots[SlotIndex(m.levels[b].price, priceLevels)] == b)
    && (forall b | b in h.asks :: m.slots[SlotIndex(m.levels[b].price, priceLevels)] == b)
    && (forall i | 0 <= i < |m.slots| && m.slots[i] != NULL ::
          && (m.slots[i] in h.bids || m.slots[i] in h.asks)
          && SlotIndex(m.levels[m.slots[i]].price, priceLevels) == i)
  }

  /** A used order block is in the queue of a live level. */
  ghost predicate HomesOk(m: Store, h: Shape, priceLevels: nat)
    requires Sized(m, h, priceLevels)
  {
    forall o | 0 <= o < |h.home| && h.home[o] != NULL ::
      && 0 <= h.home[o] < |h.fifos|
      && (h.home[o] in h.bids || h.home[o] in h.asks)
      && o in h.fifos[h.home[o]]
  }

  ghost predicate Linked(m: Store, h: Shape, priceLevels: nat) {
    && Sized(m, h, priceLevels)
    && SideOk(m, h, Buy) && SideOk(m, h, Sell)
    && SlotsOk(m, h, priceLevels) && HomesOk(m, h, priceLevels)
  }

  // ---------- what it represents ----------

  ghost function Queue(m: Store, f: seq<nat>): (s: seq<Order>)
    requires Distinct(f, |m.orders|)
    ensures |s| == |f| && forall j | 0 <= j < |f| :: s[j] == m.orders[f[j]].order
  {
    seq(|f|, j requires 0 <= j < |f| => m.orders[f[j]].order)
  }

  ghost function LevelsOf(m: Store, h: Shape, side: Side): (s: seq<Level>)
    requires SideOk(m, h, side)
    ensures |s| == |h.Ring(side)|
    ensures forall i | 0 <= i < |s| ::
              s[i] == Level(m.levels[h.Ring(side)[i]].price, Queue(m, h.fifos[h.Ring(side)[i]]))
  {
    var r := h.Ring(side);
    seq(|r|, i requires 0 <= i < |r| =>
      assert LevelOk(m, h, side, r[i]);
      Level(m.levels[r[i]].price, Queue(m, h.fifos[r[i]])))
  }

  lemma {:induction false} LevelsGraded(m: Store, h: Shape, side: Side)
    requires SideOk(m, h, side)
    ensures Graded(side, LevelsOf(m, h, side))
  {
    var s, r := LevelsOf(m, h, side), h.Ring(side);
    forall i, j | 0 <= i < |s| && 0 <= j < |s[i].orders|
      ensures s[i].orders[j].price == s[i].price && s[i].orders[j].side == side {
      assert LevelOk(m, h, side, r[i]);
    }
    forall i | 0 <= i < |s| ensures s[i].orders != [] {
      assert LevelOk(m, h, side, r[i]);
    }
  }

  // ---------- what a change leaves alone ----------

  /** A level whose own data and orders are the same is as it was. */
  lemma {:induction false} LevelSame(m: Store, h: Shape, n: Store, g: Shape, side: Side, b: nat)
    requires LevelOk(m, h, side, b)
    requires |n.levels| == |m.levels| && |g.fifos| == |h.fifos| && |n.orders| == |m.orders| == |g.home|
    requires n.levels[b].side == m.levels[b].side && n.levels[b].price == m.levels[b].price
    requires n.levels[b].first == m.levels[b].first && g.fifos[b] == h.fifos[b]
    requires forall j | 0 <= j < |h.fifos[b]| ::
               var o := h.fifos[b][j]; n.orders[o] == m.orders[o] && g.home[o] == h.home[o]
    ensures LevelOk(n, g, side, b)
    ensures Queue(n, g.fifos[b]) == Queue(m, h.fifos[b])
  {
    RingSame(OrderNexts(m.orders), OrderPrevs(m.orders), OrderNexts(n.orders), OrderPrevs(n.orders), h.fifos[b]);
  }

  /** The orders a change may touch: those at home in one of the given levels. */
  ghost predicate OrdersSameOutside(m: Store, h: Shape, n: Store, g: Shape, b: int) {
    && |n.levels| == |m.levels| && |g.fifos| == |h.fifos| && |n.orders| == |m.orders| == |g.home| == |h.home|
    && (forall o | 0 <= o < |m.orders| && h.home[o] != b && h.home[o] != NULL ::
          n.orders[o] == m.orders[o] && g.home[o] == h.home[o])
  }

  /** The data of a level, without its links. */
  ghost predicate SameData(m: Store, h: Shape, n: Store, g: Shape, c: nat)
    requires c < |m.levels| == |n.levels| && c < |h.fifos| == |g.fifos|
  {
    && n.levels[c].side == m.levels[c].side && n.levels[c].price == m.levels[c].price
    && n.levels[c].first == m.levels[c].first && g.fifos[c] == h.fifos[c]
  }

  /** Every level of a side but `b` is as it was. */
  lemma {:induction false} OthersSame(m: Store, h: Shape, n: Store, g: Shape, side: Side, b: int)
    requires SideOk(m, h, side) && OrdersSameOutside(m, h, n, g, b)
    requires forall c | c in h.Ring(side) && c != b :: c < |h.fifos| && SameData(m, h, n, g, c)
    ensures forall c | c in h.Ring(side) && c != b ::
              LevelOk(n, g, side, c) && Queue(n, g.fifos[c]) == Queue(m, h.fifos[c])
  {
    var r := h.Ring(side);
    forall c | c in r && c != b
      ensures LevelOk(n, g, side, c) && Queue(n, g.fifos[c]) == Queue(m, h.fifos[c]) {
      var i :| 0 <= i < |r| && r[i] == c;
      assert LevelOk(m, h, side, r[i]);
      LevelSame(m, h, n, g, side, c);
    }
  }

  /** Same ring, same data: the same levels. */
  lemma {:induction false} SameLevelsOf(m: Store, h: Shape, n: Store, g: Shape, side: Side)
    requires SideOk(m, h, side) && SideOk(n, g, side) && g.Ring(side) == h.Ring(side)
    requires |n.levels| == |m.levels| && |h.fifos| == |g.fifos|
    requires forall c | c in h.Ring(side) :: c < |h.fifos| && SameData(m, h, n, g, c)
    requires forall c | c in h.Ring(side) :: LevelOk(m, h, side, c) && LevelOk(n, g, side, c)
                                             && Queue(n, g.fifos[c]) == Queue(m, h.fifos[c])
    ensures LevelsOf(n, g, side) == LevelsOf(m, h, side)
  {
    hide LevelOk, LevelRing, Queue;
    var r := h.Ring(side);
    assert forall i | 0 <= i < |r| :: r[i] in r;
  }

  ghost predicate AllLevelsOk(m: Store, h: Shape, side: Side) {
    forall c | c in h.Ring(side) :: LevelOk(m, h, side, c)
  }

  lemma {:induction false} LevelsOk(m: Store, h: Shape, side: Side)
    requires SideOk(m, h, side)
    ensures AllLevelsOk(m, h, side)
  {
    var r := h.Ring(side);
    forall c | c in r ensures LevelOk(m, h, side, c) {
      var i :| 0 <= i < |r| && r[i] == c;
      assert LevelOk(m, h, side, r[i]);
    }
  }

  /** A side from its parts. */
  lemma {:induction false} SideFrom(n: Store, g: Shape, side: Side)
    requires var r := g.Ring(side);
             && LevelRing(n.levels, r) && n.Head(side) == (if r == [] then NULL else r[0])
             && AllLevelsOk(n, g, side) && Descending(n.levels, side, r)
    ensures SideOk(n, g, side)
  {
    hide LevelOk, LevelRing;
    assert forall i | 0 <= i < |g.Ring(side)| :: g.Ring(side)[i] in g.Ring(side);
  }

  /** A side whose levels, ring and orders are untouched stays as it was. */
  lemma {:induction false} SideSame(m: Store, h: Shape, n: Store, g: Shape, side: Side, b: int)
    requires SideOk(m, h, side) && OrdersSameOutside(m, h, n, g, b)
    requires g.Ring(side) == h.Ring(side) && n.Head(side) == m.Head(side)
    requires forall c | c in h.Ring(side) ::
             c != b && c < |h.fifos| && n.levels[c] == m.levels[c] && g.fifos[c] == h.fifos[c]
    ensures SideOk(n, g, side) && LevelsOf(n, g, side) == LevelsOf(m, h, side)
  {
    hide LevelOk, Queue, LevelRing, Descending, SideOk, LevelsOf;
    var r := h.Ring(side);
    SideParts(m, h, side);
    RingStays(m.levels, n.levels, side, r);
    OthersSame(m, h, n, g, side, b);
    SideFrom(n, g, side);
    SideSameLevels(m, h, n, g, side, b);
  }

  lemma {:induction false} SideParts(m: Store, h: Shape, side: Side)
    requires SideOk(m, h, side)
    ensures var r := h.Ring(side);
            && LevelRing(m.levels, r) && Descending(m.levels, side, r) && Distinct(r, |m.levels|)
            && m.Head(side) == (if r == [] then NULL else r[0])
  {
  }

  /** A ring of levels none of which changed. */
  lemma {:induction false} RingStays(ls: seq<LevelNode>, ms: seq<LevelNode>, side: Side, r: seq<nat>)
    requires LevelRing(ls, r) && Descending(ls, side, r) && |ms| == |ls|
    requires forall c | c in r ::
               c < |ls| && ms[c].price == ls[c].price && ms[c].next == ls[c].next && ms[c].prev == ls[c].prev
    ensures LevelRing(ms, r) && Descending(ms, side, r)
  {
    assert forall i | 0 <= i < |r| :: r[i] in r;
    RingSame(LevelNexts(ls), LevelPrevs(ls), LevelNexts(ms), LevelPrevs(ms), r);
  }

  lemma {:induction false} SideSameLevels(m: Store, h: Shape, n: Store, g: Shape, side: Side, b: int)
    requires SideOk(m, h, side) && SideOk(n, g, side) && OrdersSameOutside(m, h, n, g, b)
    requires g.Ring(side) == h.Ring(side)
    requires forall c | c in h.Ring(side) ::
             c != b && c < |h.fifos| && n.levels[c] == m.levels[c] && g.fifos[c] == h.fifos[c]
    ensures LevelsOf(n, g, side) == LevelsOf(m, h, side)
  {
    OthersSame(m, h, n, g, side, b);
    LevelsOk(m, h, side);
    hide LevelOk, Queue, Ring;
    SameLevelsOf(m, h, n, g, side);
  }

  /** The two sides share no level. */
  lemma {:induction false} SidesApart(m: Store, h: Shape, side: Side)
    requires SideOk(m, h, Buy) && SideOk(m, h, Sell) && side != NoSide
    ensures forall c | c in h.Ring(side) :: c !in h.Ring(Opposite(side))
  {
    LevelsOk(m, h, Buy);
    LevelsOk(m, h, Sell);
  }

  // ---------- one queue changes ----------

  /** Nothing but the queue of level `b`, the `k`-th of its side, is different. */
  ghost predicate OnlyQueue(m: Store, h: Shape, n: Store, g: Shape, side: Side, k: nat) {
    && k < |h.Ring(side)| && |n.levels| == |m.levels| && |g.fifos| == |h.fifos| == |m.levels|
    && g.bids == h.bids && g.asks == h.asks && n.slots == m.slots && n.bids == m.bids && n.asks == m.asks
    && var b := h.Ring(side)[k];
       && b < |m.levels|
       && (forall c | 0 <= c < |m.levels| && c != b :: n.levels[c] == m.levels[c] && g.fifos[c] == h.fifos[c])
       && n.levels[b] == m.levels[b].(first := n.levels[b].first)
       && OrdersSameOutside(m, h, n, g, b)
       && LevelOk(n, g, side, b)
       && (forall o | 0 <= o < |g.home| && g.home[o] != NULL ::
             if g.home[o] == b then o in g.fifos[b] else h.home[o] == g.home[o])
  }

  lemma {:induction false} QueueSide(m: Store, h: Shape, n: Store, g: Shape, side: Side, k: nat)
    requires SideOk(m, h, side) && OnlyQueue(m, h, n, g, side, k)
    ensures SideOk(n, g, side)
  {
    hide LevelOk, Queue, LevelRing, Descending, SideOk, OrdersSameOutside;
    var r, b := h.Ring(side), h.Ring(side)[k];
    SideParts(m, h, side);
    assert forall c | c in r :: c < |m.levels| by {
      hide *;
      DistinctBelow(r, |m.levels|);
    }
    RingStays(m.levels, n.levels, side, r);
    OthersSame(m, h, n, g, side, b);
    SideFrom(n, g, side);
  }

  lemma {:induction false} DistinctBelow(r: seq<nat>, n: nat)
    requires Distinct(r, n)
    ensures forall c | c in r :: c < n
  {
  }

  /** Same ring, same data but for the `k`-th level. */
  lemma {:induction false} LevelsUpdated(m: Store, h: Shape, n: Store, g: Shape, side: Side, k: nat)
    requires SideOk(m, h, side) && SideOk(n, g, side) && k < |h.Ring(side)| && g.Ring(side) == h.Ring(side)
    requires forall i | 0 <= i < |h.Ring(side)| && i != k ::
               LevelsOf(n, g, side)[i] == LevelsOf(m, h, side)[i]
    ensures LevelsOf(n, g, side) == LevelsOf(m, h, side)[k := LevelsOf(n, g, side)[k]]
  {
    hide SideOk;
  }

  lemma {:induction false} QueueLevels(m: Store, h: Shape, n: Store, g: Shape, side: Side, k: nat)
    requires SideOk(m, h, side) && SideOk(n, g, side) && OnlyQueue(m, h, n, g, side, k)
    ensures LevelOk(n, g, side, h.Ring(side)[k])
    ensures var b := h.Ring(side)[k];
            LevelsOf(n, g, side) == LevelsOf(m, h, side)[k := Level(m.levels[b].price, Queue(n, g.fifos[b]))]
  {
    var r, b := h.Ring(side), h.Ring(side)[k];
    assert Distinct(r, |m.levels|) && g.Ring(side) == r && b < |m.levels| && n.levels[b].price == m.levels[b].price;
    assert LevelOk(n, g, side, b) && b < |g.fifos| && Distinct(g.fifos[b], |n.orders|);
    forall i | 0 <= i < |r| && i != k ensures LevelsOf(n, g, side)[i] == LevelsOf(m, h, side)[i] {
      QueueOtherLevel(m, h, n, g, side, k, i);
    }
    hide LevelOk, Ring, Queue, OnlyQueue, SideOk, Distinct;
    LevelsUpdated(m, h, n, g, side, k);
  }

  lemma {:induction false} QueueOtherLevel(m: Store, h: Shape, n: Store, g: Shape, side: Side, k: nat, i: nat)
    requires SideOk(m, h, side) && SideOk(n, g, side) && OnlyQueue(m, h, n, g, side, k)
    requires i < |h.Ring(side)| && i != k
    ensures LevelsOf(n, g, side)[i] == LevelsOf(m, h, side)[i]
  {
    var r := h.Ring(side);
    var c := r[i];
    assert c != r[k] && n.levels[c] == m.levels[c] && g.fifos[c] == h.fifos[c];
    assert LevelOk(m, h, side, c) && OrdersSameOutside(m, h, n, g, r[k]);
    hide SideOk, OnlyQueue;
    LevelSame(m, h, n, g, side, c);
  }

  lemma {:induction false} QueueOther(m: Store, h: Shape, n: Store, g: Shape, side: Side, k: nat)
    requires SideOk(m, h, Buy) && SideOk(m, h, Sell) && side != NoSide && OnlyQueue(m, h, n, g, side, k)
    ensures SideOk(n, g, Opposite(side))
    ensures LevelsOf(n, g, Opposite(side)) == LevelsOf(m, h, Opposite(side))
  {
    var b := h.Ring(side)[k];
    assert b in h.Ring(side);
    SidesApart(m, h, side);
    LevelsOk(m, h, Opposite(side));
    assert forall c | c in h.Ring(Opposite(side)) :: c < |h.fifos| && c != b;
    hide LevelOk, Ring, Queue, Descending, LevelRing, SideOk, LevelsOf;
    SideSame(m, h, n, g, Opposite(side), b);
  }

  lemma {:induction false} QueueTables(m: Store, h: Shape, n: Store, g: Shape, priceLevels: nat, side: Side, k: nat)
    requires Sized(m, h, priceLevels) && SlotsOk(m, h, priceLevels) && HomesOk(m, h, priceLevels)
    requires side != NoSide && OnlyQueue(m, h, n, g, side, k)
    ensures Sized(n, g, priceLevels) && SlotsOk(n, g, priceLevels) && HomesOk(n, g, priceLevels)
  {
    hide LevelOk;
    var b := h.Ring(side)[k];
    assert b in h.Ring(side);
    assert forall c | 0 <= c < |m.levels| :: n.levels[c].price == m.levels[c].price;
  }

  lemma {:induction false} QueueOk(m: Store, h: Shape, n: Store, g: Shape, priceLevels: nat, side: Side, k: nat)
    requires Linked(m, h, priceLevels) && side != NoSide && OnlyQueue(m, h, n, g, side, k)
    ensures Linked(n, g, priceLevels)
    ensures var b := h.Ring(side)[k];
            LevelsOf(n, g, side) == LevelsOf(m, h, side)[k := Level(m.levels[b].price, Queue(n, g.fifos[b]))]
    ensures LevelsOf(n, g, Opposite(side)) == LevelsOf(m, h, Opposite(side))
  {
    assert g.Ring(side) == h.Ring(side) && |h.Ring(side)| == |LevelsOf(m, h, side)|;
    assert LevelOk(n, g, side, h.Ring(side)[k]) && Distinct(g.fifos[h.Ring(side)[k]], |n.orders|);
    assert h.Ring(side)[k] < |m.levels| && k < |h.Ring(side)| && h.Ring(side)[k] < |g.fifos|;
    hide SideOk, LevelsOf, Queue, SlotsOk, HomesOk, Sized, OnlyQueue, Distinct;
    QueueSide(m, h, n, g, side, k);
    QueueLevels(m, h, n, g, side, k);
    QueueOther(m, h, n, g, side, k);
    QueueTables(m, h, n, g, priceLevels, side, k);
  }

  // ---------- joining a level ----------

  /** The memory after `o` was linked in behind the last order of level `b`. */
  ghost predicate Appended(m: Store, h: Shape, n: Store, b: nat, o: nat)
    requires b < |h.fifos| && h.fifos[b] != [] && Distinct(h.fifos[b], |m.orders|)
  {
    var f := h.fifos[b];
    var first, last := f[0], f[|f| - 1];
    && n == m.(orders := n.orders) && |n.orders| == |m.orders| && o < |n.orders|
    && n.orders[last].next == o && n.orders[o].prev == last && n.orders[o].next == first && n.orders[first].prev == o
    && (forall x | 0 <= x < |m.orders| && x != o :: n.orders[x].order == m.orders[x].order)
    && (forall x | 0 <= x < |m.orders| && x != o && x != last :: n.orders[x].next == m.orders[x].next)
    && (forall x | 0 <= x < |m.orders| && x != o && x != first :: n.orders[x].prev == m.orders[x].prev)
  }

  lemma {:induction false} AppendedLevel(m: Store, h: Shape, n: Store, g: Shape, side: Side, b: nat, o: nat)
    requires LevelOk(m, h, side, b) && o < |m.orders| && h.home[o] == NULL && Appended(m, h, n, b, o)
    requires n.orders[o].order.side == side && n.orders[o].order.price == m.levels[b].price
    requires g == h.(fifos := h.fifos[b := h.fifos[b] + [o]], home := h.home[o := b])
    ensures LevelOk(n, g, side, b)
    ensures Queue(n, g.fifos[b]) == Queue(m, h.fifos[b]) + [n.orders[o].order]
    ensures OrdersSameOutside(m, h, n, g, b)
  {
    var f := h.fifos[b];
    assert o !in f;
    RingInsert(OrderNexts(m.orders), OrderPrevs(m.orders), OrderNexts(n.orders), OrderPrevs(n.orders), f, |f|, o);
    assert Inserted(f, |f|, o) == f + [o];
    forall x | 0 <= x < |m.orders| && h.home[x] != b && h.home[x] != NULL ensures n.orders[x] == m.orders[x] {
      assert x != f[0] && x != f[|f| - 1];
    }
  }

  lemma {:induction false} AppendOnly(m: Store, h: Shape, n: Store, g: Shape, side: Side, k: nat, o: nat)
    requires k < |h.Ring(side)| && |h.fifos| == |m.levels| && |h.home| == |m.orders| && o < |m.orders|
             && h.home[o] == NULL
    requires var b := h.Ring(side)[k];
             && LevelOk(m, h, side, b) && Appended(m, h, n, b, o)
             && g == h.(fifos := h.fifos[b := h.fifos[b] + [o]], home := h.home[o := b])
             && LevelOk(n, g, side, b) && OrdersSameOutside(m, h, n, g, b)
    requires forall x | 0 <= x < |h.home| && h.home[x] == h.Ring(side)[k] :: x in h.fifos[h.Ring(side)[k]]
    ensures OnlyQueue(m, h, n, g, side, k)
  {
    hide OrdersSameOutside, Queue;
    var b := h.Ring(side)[k];
    assert m.levels[b].first == n.levels[b].first;
    assert o in g.fifos[b] && forall x | x in h.fifos[b] :: x in g.fifos[b];
    hide LevelOk;
  }

  /** Appending to the queue is joining the level. */
  lemma {:induction false} AppendOk(m: Store, h: Shape, n: Store, g: Shape, priceLevels: nat, side: Side, k: nat,
          o: nat)
    requires Linked(m, h, priceLevels) && side != NoSide && k < |h.Ring(side)|
    requires o < |m.orders| && h.home[o] == NULL
    requires LevelOk(m, h, side, h.Ring(side)[k]) && Appended(m, h, n, h.Ring(side)[k], o)
    requires n.orders[o].order.side == side && n.orders[o].order.price == m.levels[h.Ring(side)[k]].price
    requires var b := h.Ring(side)[k];
             g == h.(fifos := h.fifos[b := h.fifos[b] + [o]], home := h.home[o := b])
    ensures Linked(n, g, priceLevels)
    ensures LevelsOf(n, g, side) == Joined(LevelsOf(m, h, side), k, n.orders[o].order)
    ensures LevelsOf(n, g, Opposite(side)) == LevelsOf(m, h, Opposite(side))
  {
    var b := h.Ring(side)[k];
    AppendedLevel(m, h, n, g, side, b, o);
    AppendOnly(m, h, n, g, side, k, o);
    assert |LevelsOf(m, h, side)| == |h.Ring(side)|
           && LevelsOf(m, h, side)[k] == Level(m.levels[b].price, Queue(m, h.fifos[b]));
    assert b < |m.levels| && b < |h.fifos| && Distinct(h.fifos[b], |m.orders|) && Distinct(g.fifos[b], |n.orders|);
    hide SideOk, LevelOk, Queue, Linked, OnlyQueue, LevelsOf, Distinct, Appended, OrdersSameOutside;
    QueueOk(m, h, n, g, priceLevels, side, k);
  }

  // ---------- leaving a level ----------

  /** The memory after `o`, the `j`-th of at least two orders of level `b`, was linked out. */
  ghost predicate Unqueued(m: Store, h: Shape, n: Store, b: nat, j: nat)
    requires b < |m.levels| && b < |h.fifos| && 2 <= |h.fifos[b]| && j < |h.fifos[b]|
    requires Distinct(h.fifos[b], |m.orders|)
  {
    var f := h.fifos[b];
    var o, p, q := f[j], f[if j == 0 then |f| - 1 else j - 1], f[Wrap(j, |f|)];
    && n == m.(orders := n.orders, levels := n.levels) && |n.orders| == |m.orders|
    && n.levels == m.levels[b := m.levels[b].(first := if j == 0 then q else m.levels[b].first)]
    && n.orders[p].next == q && n.orders[q].prev == p
    && (forall x | 0 <= x < |m.orders| :: n.orders[x].order == m.orders[x].order)
    && (forall x | 0 <= x < |m.orders| && x != o && x != p :: n.orders[x].next == m.orders[x].next)
    && (forall x | 0 <= x < |m.orders| && x != o && x != q :: n.orders[x].prev == m.orders[x].prev)
  }

  lemma {:induction false} UnqueuedLevel(m: Store, h: Shape, n: Store, g: Shape, side: Side, b: nat, j: nat)
    requires LevelOk(m, h, side, b) && 2 <= |h.fifos[b]| && j < |h.fifos[b]| && Unqueued(m, h, n, b, j)
    requires g == h.(fifos := h.fifos[b := Dropped(h.fifos[b], j)], home := h.home[h.fifos[b][j] := NULL])
    ensures LevelOk(n, g, side, b)
  {
    var f := h.fifos[b];
    RingRemove(OrderNexts(m.orders), OrderPrevs(m.orders), OrderNexts(n.orders), OrderPrevs(n.orders), f, j);
    hide Ring, OrderNexts, OrderPrevs;
    var t := g.fifos[b];
    forall i | 0 <= i < |t|
      ensures g.home[t[i]] == b && n.orders[t[i]].order.side == side
              && n.orders[t[i]].order.price == m.levels[b].price {
      assert t[i] == f[if i < j then i else i + 1] && t[i] != f[j];
    }
  }

  lemma {:induction false} UnqueuedQueue(m: Store, h: Shape, n: Store, side: Side, b: nat, j: nat)
    requires LevelOk(m, h, side, b) && 2 <= |h.fifos[b]| && j < |h.fifos[b]| && Unqueued(m, h, n, b, j)
    ensures Distinct(Dropped(h.fifos[b], j), |n.orders|)
    ensures Queue(n, Dropped(h.fifos[b], j)) == Without(Queue(m, h.fifos[b]), j)
  {
    hide OrderRing;
    var f := h.fifos[b];
    LevelDistinct(m, h, side, b);
    hide LevelOk;
    var s, t := Queue(n, Dropped(f, j)), Without(Queue(m, f), j);
    forall i | 0 <= i < |t| ensures s[i] == t[i] {
      assert t[i] == Queue(m, f)[if i < j then i else i + 1];
    }
  }

  lemma {:induction false} LevelDistinct(m: Store, h: Shape, side: Side, b: nat)
    requires LevelOk(m, h, side, b)
    ensures b < |m.levels| && b < |h.fifos| && Distinct(h.fifos[b], |m.orders|)
  {
  }

  lemma {:induction false} UnqueuedOthers(m: Store, h: Shape, n: Store, g: Shape, side: Side, b: nat, j: nat)
    requires LevelOk(m, h, side, b) && 2 <= |h.fifos[b]| && j < |h.fifos[b]| && Unqueued(m, h, n, b, j)
    requires g == h.(fifos := h.fifos[b := Dropped(h.fifos[b], j)], home := h.home[h.fifos[b][j] := NULL])
    ensures OrdersSameOutside(m, h, n, g, b)
  {
    hide OrderRing, Dropped;
    var f := h.fifos[b];
    LevelDistinct(m, h, side, b);
    forall x | 0 <= x < |m.orders| && h.home[x] != b && h.home[x] != NULL ensures n.orders[x] == m.orders[x] {
      assert x != f[j] && x != f[if j == 0 then |f| - 1 else j - 1] && x != f[Wrap(j, |f|)];
    }
  }

  lemma {:induction false} UnqueuedOnly(m: Store, h: Shape, n: Store, g: Shape, side: Side, k: nat, j: nat)
    requires k < |h.Ring(side)| && |h.fifos| == |m.levels| && |h.home| == |m.orders|
    requires var b := h.Ring(side)[k];
             && LevelOk(m, h, side, b) && 2 <= |h.fifos[b]| && j < |h.fifos[b]| && Unqueued(m, h, n, b, j)
             && g == h.(fifos := h.fifos[b := Dropped(h.fifos[b], j)], home := h.home[h.fifos[b][j] := NULL])
             && LevelOk(n, g, side, b) && OrdersSameOutside(m, h, n, g, b)
    requires forall x | 0 <= x < |h.home| && h.home[x] == h.Ring(side)[k] :: x in h.fifos[h.Ring(side)[k]]
    ensures OnlyQueue(m, h, n, g, side, k)
  {
    hide OrdersSameOutside, Queue, OrderRing;
    var b := h.Ring(side)[k];
    LevelDistinct(m, h, side, b);
    DroppedHas(h.fifos[b], |m.orders|, j);
    assert n.levels[b] == m.levels[b].(first := n.levels[b].first);
    hide LevelOk, Dropped, Distinct;
  }

  lemma {:induction false} DroppedHas(f: seq<nat>, n: nat, j: nat)
    requires Distinct(f, n) && j < |f|
    ensures Distinct(Dropped(f, j), n)
    ensures forall x :: x in Dropped(f, j) <==> x in f && x != f[j]
  {
    var t := Dropped(f, j);
    forall x | x in f && x != f[j] ensures x in t {
      var i :| 0 <= i < |f| && f[i] == x;
      assert t[if i < j then i else i - 1] == x;
    }
  }

  /** Leaving a queue of at least two is taking the order out of its level. */
  lemma {:induction false} UnqueueOk(m: Store, h: Shape, n: Store, g: Shape, priceLevels: nat, side: Side, k: nat,
          j: nat)
    requires Linked(m, h, priceLevels) && side != NoSide && k < |h.Ring(side)|
    requires var b := h.Ring(side)[k];
             && LevelOk(m, h, side, b) && 2 <= |h.fifos[b]| && j < |h.fifos[b]| && Unqueued(m, h, n, b, j)
             && g == h.(fifos := h.fifos[b := Dropped(h.fifos[b], j)], home := h.home[h.fifos[b][j] := NULL])
    ensures Linked(n, g, priceLevels)
    ensures j < |LevelsOf(m, h, side)[k].orders|
    ensures LevelsOf(n, g, side) == TakeOut(LevelsOf(m, h, side), k, j)
    ensures LevelsOf(n, g, Opposite(side)) == LevelsOf(m, h, Opposite(side))
  {
    var b := h.Ring(side)[k];
    UnqueuedLevel(m, h, n, g, side, b, j);
    UnqueuedQueue(m, h, n, side, b, j);
    UnqueuedOthers(m, h, n, g, side, b, j);
    UnqueuedOnly(m, h, n, g, side, k, j);
    assert |LevelsOf(m, h, side)| == |h.Ring(side)|
           && LevelsOf(m, h, side)[k] == Level(m.levels[b].price, Queue(m, h.fifos[b]));
    assert b < |m.levels| && b < |h.fifos| && Distinct(h.fifos[b], |m.orders|) && Distinct(g.fifos[b], |n.orders|);
    hide SideOk, LevelOk, Queue, Linked, OnlyQueue, LevelsOf, Distinct, Unqueued, OrdersSameOutside, Dropped;
    QueueOk(m, h, n, g, priceLevels, side, k);
  }

  // ---------- changing a quantity ----------

  /** A smaller quantity in place changes nothing else. */
  lemma {:induction false} ResizeOk(m: Store, h: Shape, n: Store, priceLevels: nat, side: Side, k: nat, j: nat,
          qty: nat)
    requires Linked(m, h, priceLevels) && side != NoSide && k < |h.Ring(side)|
    requires LevelOk(m, h, side, h.Ring(side)[k]) && j < |h.fifos[h.Ring(side)[k]]|
    requires var o := h.fifos[h.Ring(side)[k]][j];
             n == m.(orders := m.orders[o := m.orders[o].(order := m.orders[o].order.(qty := qty))])
    ensures Linked(n, h, priceLevels)
    ensures j < |LevelsOf(m, h, side)[k].orders|
    ensures LevelsOf(n, h, side) == Resize(LevelsOf(m, h, side), k, j, qty)
    ensures LevelsOf(n, h, Opposite(side)) == LevelsOf(m, h, Opposite(side))
  {
    var b := h.Ring(side)[k];
    ResizeOnly(m, h, n, side, k, j, qty);
    assert |LevelsOf(m, h, side)| == |h.Ring(side)|
           && LevelsOf(m, h, side)[k] == Level(m.levels[b].price, Queue(m, h.fifos[b]));
    assert b < |m.levels| && b < |h.fifos| && Distinct(h.fifos[b], |m.orders|);
    assert |n.orders| == |m.orders|;
    hide SideOk, LevelOk, Queue, Linked, OnlyQueue, LevelsOf, Distinct;
    QueueOk(m, h, n, h, priceLevels, side, k);
  }

  lemma {:induction false} ResizeOnly(m: Store, h: Shape, n: Store, side: Side, k: nat, j: nat, qty: nat)
    requires k < |h.Ring(side)| && |h.fifos| == |m.levels| && |h.home| == |m.orders|
    requires LevelOk(m, h, side, h.Ring(side)[k]) && j < |h.fifos[h.Ring(side)[k]]|
    requires forall x | 0 <= x < |h.home| && h.home[x] == h.Ring(side)[k] :: x in h.fifos[h.Ring(side)[k]]
    requires var o := h.fifos[h.Ring(side)[k]][j];
             n == m.(orders := m.orders[o := m.orders[o].(order := m.orders[o].order.(qty := qty))])
    ensures OnlyQueue(m, h, n, h, side, k)
    ensures var f := h.fifos[h.Ring(side)[k]];
            Queue(n, f) == Queue(m, f)[j := Queue(m, f)[j].(qty := qty)]
  {
    var f := h.fifos[h.Ring(side)[k]];
    RingSame(OrderNexts(m.orders), OrderPrevs(m.orders), OrderNexts(n.orders), OrderPrevs(n.orders), f);
    assert OrdersSameOutside(m, h, n, h, h.Ring(side)[k]);
  }

  // ---------- a level comes or goes ----------

  /** Nothing but level `b` and the ring of its side is different. */
  ghost predicate OnlyRing(m: Store, h: Shape, n: Store, g: Shape, side: Side, b: nat) {
    && |n.levels| == |m.levels| == |h.fifos| == |g.fifos| && |n.slots| == |m.slots|
    && g.Ring(Opposite(side)) == h.Ring(Opposite(side)) && n.Head(Opposite(side)) == m.Head(Opposite(side))
    && LevelRing(n.levels, g.Ring(side)) && n.Head(side) == (if g.Ring(side) == [] then NULL else g.Ring(side)[0])
    && (forall c | 0 <= c < |m.levels| && c != b :: SameData(m, h, n, g, c))
    && (forall c | 0 <= c < |m.levels| && c != b && c !in h.Ring(side) :: n.levels[c] == m.levels[c])
    && OrdersSameOutside(m, h, n, g, b)
  }

  lemma {:induction false} RingOther(m: Store, h: Shape, n: Store, g: Shape, side: Side, b: nat)
    requires SideOk(m, h, Buy) && SideOk(m, h, Sell) && side != NoSide && OnlyRing(m, h, n, g, side, b)
    requires b !in h.Ring(Opposite(side))
    ensures SideOk(n, g, Opposite(side))
    ensures LevelsOf(n, g, Opposite(side)) == LevelsOf(m, h, Opposite(side))
  {
    SidesApart(m, h, side);
    LevelsOk(m, h, Opposite(side));
    assert forall c | c in h.Ring(Opposite(side)) ::
      c != b && c < |h.fifos| && SameData(m, h, n, g, c) && n.levels[c] == m.levels[c] && c !in h.Ring(side);
    hide LevelOk, Ring, Queue, Descending, LevelRing, SideOk, LevelsOf;
    SideSame(m, h, n, g, Opposite(side), b);
  }

  /** Where a level of this price belongs in a ring. */
  ghost predicate Place(levels: seq<LevelNode>, side: Side, r: seq<nat>, price: nat, k: nat) {
    && k <= |r| && (forall i | 0 <= i < |r| :: r[i] < |levels|)
    && (forall i | 0 <= i < k :: Better(side, levels[r[i]].price, price))
    && (forall i | k <= i < |r| :: Better(side, price, levels[r[i]].price))
  }

  lemma {:induction false} SeatSide(m: Store, h: Shape, n: Store, g: Shape, side: Side, k: nat, b: nat)
    requires SideOk(m, h, side) && side != NoSide && OnlyRing(m, h, n, g, side, b) && b !in h.Ring(side)
    requires LevelOk(n, g, side, b) && Place(m.levels, side, h.Ring(side), n.levels[b].price, k)
    requires g.Ring(side) == Inserted(h.Ring(side), k, b)
    ensures SideOk(n, g, side)
  {
    var r, t := h.Ring(side), g.Ring(side);
    OthersSame(m, h, n, g, side, b);
    forall c | c in t ensures LevelOk(n, g, side, c) {
      var i :| 0 <= i < |t| && t[i] == c;
      assert i != k ==> c == r[if i < k then i else i - 1];
    }
    hide LevelOk, LevelRing, Inserted, Queue;
    assert forall i | 0 <= i < |r| :: r[i] in r && n.levels[r[i]].price == m.levels[r[i]].price;
    SeatOrder(m, n, side, r, t, k, b);
    SideFrom(n, g, side);
  }

  lemma {:induction false} SeatOrder(m: Store, n: Store, side: Side, r: seq<nat>, t: seq<nat>, k: nat, b: nat)
    requires Descending(m.levels, side, r) && side != NoSide && b < |n.levels| == |m.levels|
    requires Place(m.levels, side, r, n.levels[b].price, k) && t == Inserted(r, k, b)
    requires forall i | 0 <= i < |r| :: n.levels[r[i]].price == m.levels[r[i]].price
    ensures Descending(n.levels, side, t)
  {
    hide Inserted;
    forall i, j | 0 <= i < j < |t| ensures Better(side, n.levels[t[i]].price, n.levels[t[j]].price) {
      var i', j' := if i < k then i else i - 1, if j < k then j else j - 1;
    }
  }

  lemma {:induction false} SeatLevels(m: Store, h: Shape, n: Store, g: Shape, side: Side, k: nat, b: nat)
    requires SideOk(m, h, side) && SideOk(n, g, side) && OnlyRing(m, h, n, g, side, b) && b !in h.Ring(side)
    requires LevelOk(n, g, side, b) && k <= |h.Ring(side)| && g.Ring(side) == Inserted(h.Ring(side), k, b)
    ensures var s := LevelsOf(m, h, side);
            LevelsOf(n, g, side) == s[..k] + [Level(n.levels[b].price, Queue(n, g.fifos[b]))] + s[k..]
  {
    hide SideOk, LevelsOf, OnlyRing, Inserted, LevelOk, Queue;
    LevelsCount(m, h, side);
    LevelsCount(n, g, side);
    LevelDistinct(n, g, side, b);
    var s, u := LevelsOf(m, h, side), LevelsOf(n, g, side);
    var l := Level(n.levels[b].price, Queue(n, g.fifos[b]));
    SeatedNew(n, g, side, h.Ring(side), k, b);
    forall i | 0 <= i < |u| ensures u[i] == (s[..k] + [l] + s[k..])[i] {
      if i != k {
        SeatOld(m, h, n, g, side, k, b, i, if i < k then i else i - 1);
      }
    }
  }

  /** The new level is at its place. */
  lemma {:induction false} SeatedNew(n: Store, g: Shape, side: Side, r: seq<nat>, k: nat, b: nat)
    requires SideOk(n, g, side) && k <= |r| && g.Ring(side) == Inserted(r, k, b) && b < |n.levels| && b < |g.fifos|
    requires Distinct(g.fifos[b], |n.orders|)
    ensures |LevelsOf(n, g, side)| == |r| + 1
    ensures LevelsOf(n, g, side)[k] == Level(n.levels[b].price, Queue(n, g.fifos[b]))
  {
    hide Inserted, Queue;
  }

  /** A level other than the new one is the same on both sides. */
  lemma {:induction false} SeatOld(m: Store, h: Shape, n: Store, g: Shape, side: Side, k: nat, b: nat, i: nat, j: nat)
    requires SideOk(m, h, side) && SideOk(n, g, side) && OnlyRing(m, h, n, g, side, b) && b !in h.Ring(side)
    requires k <= |h.Ring(side)| && g.Ring(side) == Inserted(h.Ring(side), k, b)
    requires i < |g.Ring(side)| && i != k && j == if i < k then i else i - 1
    ensures |LevelsOf(n, g, side)| == |g.Ring(side)| && |LevelsOf(m, h, side)| == |h.Ring(side)|
    ensures LevelsOf(n, g, side)[i] == LevelsOf(m, h, side)[j]
  {
    hide LevelRing, Inserted, Queue;
    var r := h.Ring(side);
    OthersSame(m, h, n, g, side, b);
    LevelsOk(m, h, side);
    hide LevelOk, SideOk, Descending;
    assert g.Ring(side)[i] == r[j] && r[j] in r;
    assert SameData(m, h, n, g, r[j]);
  }

  /** Level `b` with the single order `o` is in its place. */
  ghost predicate Seated(m: Store, h: Shape, n: Store, g: Shape, priceLevels: nat, side: Side, k: nat, b: nat, o: nat)
    requires Sized(m, h, priceLevels)
  {
    && b < |m.levels| == |n.levels| && o < |m.orders| == |n.orders|
    && b !in h.bids && b !in h.asks && h.home[o] == NULL
    && g == h.WithRing(side, Inserted(h.Ring(side), if k <= |h.Ring(side)| then k else 0, b))
             .(fifos := h.fifos[b := [o]], home := h.home[o := b])
    && n.orders == m.orders[o := n.orders[o]] && n.orders[o].prev == o == n.orders[o].next
    && n.levels[b].side == side == n.orders[o].order.side
    && n.levels[b].first == o && n.levels[b].price == n.orders[o].order.price
    && m.slots[SlotIndex(n.levels[b].price, priceLevels)] == NULL
    && n.slots == m.slots[SlotIndex(n.levels[b].price, priceLevels) := b]
    && Place(m.levels, side, h.Ring(side), n.levels[b].price, k)
    && n.Head(Opposite(side)) == m.Head(Opposite(side)) && n.Head(side) == g.Ring(side)[0]
    && LevelRing(n.levels, g.Ring(side))
    && (forall c | 0 <= c < |m.levels| && c != b ::
          n.levels[c] == m.levels[c].(prev := n.levels[c].prev, next := n.levels[c].next))
    && (forall c | 0 <= c < |m.levels| && c != b && c !in h.Ring(side) :: n.levels[c] == m.levels[c])
  }

  lemma {:induction false} SeatedOnly(m: Store, h: Shape, n: Store, g: Shape, priceLevels: nat, side: Side, k: nat,
          b: nat, o: nat)
    requires Sized(m, h, priceLevels) && side != NoSide && Seated(m, h, n, g, priceLevels, side, k, b, o)
    ensures OnlyRing(m, h, n, g, side, b)
  {
    hide LevelRing, Place, Inserted, SlotIndex, Distinct;
    assert g.fifos == h.fifos[b := [o]] && g.home == h.home[o := b];
    assert OrdersSameOutside(m, h, n, g, b);
    hide OrdersSameOutside;
    assert forall c | 0 <= c < |m.levels| && c != b :: SameData(m, h, n, g, c);
  }

  lemma {:induction false} SeatedLevel(m: Store, h: Shape, n: Store, g: Shape, priceLevels: nat, side: Side, k: nat,
          b: nat, o: nat)
    requires Sized(m, h, priceLevels) && side != NoSide && Seated(m, h, n, g, priceLevels, side, k, b, o)
    ensures LevelOk(n, g, side, b) && g.fifos[b] == [o]
    ensures Queue(n, g.fifos[b]) == [n.orders[o].order]
    ensures b !in h.Ring(side) && b !in h.Ring(Opposite(side)) && k <= |h.Ring(side)|
    ensures g.Ring(side) == Inserted(h.Ring(side), k, b) && Place(m.levels, side, h.Ring(side), n.levels[b].price, k)
  {
    hide LevelRing, Inserted, SlotIndex, Distinct;
    assert k <= |h.Ring(side)|;
    assert g.fifos[b] == [o] && g.home[o] == b;
    assert OrderRing(n.orders, [o]) by { RingOne(n.orders, o); }
    hide Place, OrderRing;
  }

  lemma {:induction false} RingOne(orders: seq<OrderNode>, o: nat)
    requires o < |orders| && orders[o].prev == o == orders[o].next
    ensures OrderRing(orders, [o]) && Distinct([o], |orders|)
  {
  }

  lemma {:induction false} SeatedTables(m: Store, h: Shape, n: Store, g: Shape, priceLevels: nat, side: Side, k: nat,
          b: nat, o: nat)
    requires Sized(m, h, priceLevels) && SlotsOk(m, h, priceLevels) && HomesOk(m, h, priceLevels)
    requires side != NoSide && Seated(m, h, n, g, priceLevels, side, k, b, o)
    ensures Sized(n, g, priceLevels) && SlotsOk(n, g, priceLevels) && HomesOk(n, g, priceLevels)
  {
    var r, t := h.Ring(side), g.Ring(side);
    InsertedHas(r, |m.levels|, k, b);
    hide LevelRing, Inserted, Distinct;
    assert forall x :: x in t <==> x in r || x == b;
    assert forall c | 0 <= c < |m.levels| && c != b ::
           n.levels[c].price == m.levels[c].price && g.fifos[c] == h.fifos[c];
    SeatedSlots(m, h, n, g, priceLevels, side, b);
  }

  lemma {:induction false} InsertedHas(r: seq<nat>, n: nat, k: nat, x: nat)
    requires k <= |r| && Distinct(r, n) && x !in r && x < n
    ensures Distinct(Inserted(r, k, x), n)
    ensures forall y :: y in Inserted(r, k, x) <==> y in r || y == x
  {
    var t := Inserted(r, k, x);
    forall i, j | 0 <= i < j < |t| ensures t[i] != t[j] {
      assert i == k || j == k || t[i] != t[j];
    }
    forall y | y in r ensures y in t {
      var i :| 0 <= i < |r| && r[i] == y;
      assert t[if i < k then i else i + 1] == y;
    }
  }

  lemma {:induction false} SeatedSlots(m: Store, h: Shape, n: Store, g: Shape, priceLevels: nat, side: Side, b: nat)
    requires Sized(m, h, priceLevels) && SlotsOk(m, h, priceLevels) && Sized(n, g, priceLevels) && side != NoSide
    requires b < |m.levels| && m.slots[SlotIndex(n.levels[b].price, priceLevels)] == NULL
    requires n.slots == m.slots[SlotIndex(n.levels[b].price, priceLevels) := b]
    requires forall c | 0 <= c < |m.levels| && c != b :: n.levels[c].price == m.levels[c].price
    requires g.Ring(Opposite(side)) == h.Ring(Opposite(side)) && b !in h.bids && b !in h.asks
    requires forall x :: x in g.Ring(side) <==> x in h.Ring(side) || x == b
    ensures SlotsOk(n, g, priceLevels)
  {
    assert |n.levels| == |m.levels| && |n.slots| == priceLevels;
    assert forall c | c in g.bids || c in g.asks :: 0 <= c < |m.levels|;
    assert g.Ring(Buy) == g.bids && g.Ring(Sell) == g.asks && h.Ring(Buy) == h.bids && h.Ring(Sell) == h.asks;
    hide Distinct, SlotIndex;
    assert b in g.Ring(side);
    forall c | c in g.bids || c in g.asks ensures n.slots[SlotIndex(n.levels[c].price, priceLevels)] == c {
      assert c == b || c in h.bids || c in h.asks;
    }
  }

  /** A new level in its place: the side gains exactly that level. */
  lemma {:induction false} SeatedOk(m: Store, h: Shape, n: Store, g: Shape, priceLevels: nat, side: Side, k: nat,
          b: nat, o: nat)
    requires Linked(m, h, priceLevels) && side != NoSide && Seated(m, h, n, g, priceLevels, side, k, b, o)
    ensures Linked(n, g, priceLevels) && k <= |LevelsOf(m, h, side)|
    ensures var s := LevelsOf(m, h, side);
            LevelsOf(n, g, side) == s[..k] + [Level(n.levels[b].price, [n.orders[o].order])] + s[k..]
    ensures LevelsOf(n, g, Opposite(side)) == LevelsOf(m, h, Opposite(side))
  {
    assert SideOk(m, h, side);
    assert |LevelsOf(m, h, side)| == |h.Ring(side)|;
    hide SideOk, Queue, OnlyRing, LevelsOf, Distinct, Seated, Inserted, Place, Sized, SlotsOk, HomesOk, LevelOk;
    SeatedOnly(m, h, n, g, priceLevels, side, k, b, o);
    SeatedLevel(m, h, n, g, priceLevels, side, k, b, o);
    SeatedTables(m, h, n, g, priceLevels, side, k, b, o);
    RingOther(m, h, n, g, side, b);
    SeatSide(m, h, n, g, side, k, b);
    SeatLevels(m, h, n, g, side, k, b);
  }

  /** The level at place `k`, whose last order was `o`, is gone. */
  ghost predicate Unseated(m: Store, h: Shape, n: Store, g: Shape, priceLevels: nat, side: Side, k: nat, o: nat)
    requires Sized(m, h, priceLevels) && k < |h.Ring(side)|
  {
    var b := h.Ring(side)[k];
    && o < |m.orders| == |n.orders| && |n.levels| == |m.levels| && h.fifos[b] == [o] && h.home[o] == b
    && g == h.WithRing(side, Dropped(h.Ring(side), k)).(fifos := h.fifos[b := []], home := h.home[o := NULL])
    && n.orders == m.orders[o := n.orders[o]]
    && n.slots == m.slots[SlotIndex(m.levels[b].price, priceLevels) := NULL]
    && n.Head(Opposite(side)) == m.Head(Opposite(side))
    && n.Head(side) == (if g.Ring(side) == [] then NULL else g.Ring(side)[0])
    && LevelRing(n.levels, g.Ring(side))
    && (forall c | 0 <= c < |m.levels| ::
          n.levels[c] == m.levels[c].(prev := n.levels[c].prev, next := n.levels[c].next))
    && (forall c | 0 <= c < |m.levels| && c !in h.Ring(side) :: n.levels[c] == m.levels[c])
  }

  lemma {:induction false} UnseatSide(m: Store, h: Shape, n: Store, g: Shape, side: Side, k: nat)
    requires SideOk(m, h, side) && k < |h.Ring(side)| && OnlyRing(m, h, n, g, side, h.Ring(side)[k])
    requires g.Ring(side) == Dropped(h.Ring(side), k)
    ensures SideOk(n, g, side)
  {
    hide LevelOk, Queue, LevelRing, Descending, SideOk, OrdersSameOutside, Distinct, Dropped;
    var r, b := h.Ring(side), h.Ring(side)[k];
    SideParts(m, h, side);
    DistinctBelow(r, |m.levels|);
    DroppedHas(r, |m.levels|, k);
    OthersSame(m, h, n, g, side, b);
    assert AllLevelsOk(n, g, side);
    DroppedOrder(m.levels, n.levels, side, r, k);
    SideFrom(n, g, side);
  }

  lemma {:induction false} DroppedOrder(ls: seq<LevelNode>, ms: seq<LevelNode>, side: Side, r: seq<nat>, k: nat)
    requires Descending(ls, side, r) && k < |r| && |ms| == |ls|
    requires forall c | c in r && c != r[k] :: c < |ls| && ms[c].price == ls[c].price
    requires Distinct(r, |ls|)
    ensures Descending(ms, side, Dropped(r, k))
  {
    hide Dropped;
    var t := Dropped(r, k);
    forall i | 0 <= i < |t| ensures t[i] < |ms| && ms[t[i]].price == ls[r[if i < k then i else i + 1]].price {
      assert t[i] == r[if i < k then i else i + 1] && t[i] in r && t[i] != r[k];
    }
  }

  lemma {:induction false} UnseatLevels(m: Store, h: Shape, n: Store, g: Shape, side: Side, k: nat)
    requires SideOk(m, h, side) && SideOk(n, g, side) && k < |h.Ring(side)|
             && OnlyRing(m, h, n, g, side, h.Ring(side)[k])
    requires g.Ring(side) == Dropped(h.Ring(side), k)
    ensures var s := LevelsOf(m, h, side); LevelsOf(n, g, side) == s[..k] + s[k + 1..]
  {
    hide SideOk, LevelsOf, OnlyRing, Dropped;
    LevelsCount(m, h, side);
    LevelsCount(n, g, side);
    var s, u := LevelsOf(m, h, side), LevelsOf(n, g, side);
    forall i | 0 <= i < |u| ensures u[i] == (s[..k] + s[k + 1..])[i] {
      UnseatLevel(m, h, n, g, side, k, i, if i < k then i else i + 1);
    }
  }

  lemma {:induction false} LevelsCount(m: Store, h: Shape, side: Side)
    requires SideOk(m, h, side)
    ensures |LevelsOf(m, h, side)| == |h.Ring(side)|
  {
  }

  /** A level other than the dropped one is the same on both sides. */
  lemma {:induction false} UnseatLevel(m: Store, h: Shape, n: Store, g: Shape, side: Side, k: nat, i: nat, j: nat)
    requires SideOk(m, h, side) && SideOk(n, g, side) && k < |h.Ring(side)|
             && OnlyRing(m, h, n, g, side, h.Ring(side)[k])
    requires g.Ring(side) == Dropped(h.Ring(side), k)
    requires i < |g.Ring(side)| && j == if i < k then i else i + 1
    ensures |LevelsOf(n, g, side)| == |g.Ring(side)| && |LevelsOf(m, h, side)| == |h.Ring(side)|
    ensures LevelsOf(n, g, side)[i] == LevelsOf(m, h, side)[j]
  {
    hide LevelRing, Queue;
    var r, b := h.Ring(side), h.Ring(side)[k];
    assert Distinct(r, |m.levels|) by { RingDistinct(m, h, side); }
    OthersSame(m, h, n, g, side, b);
    LevelsOk(m, h, side);
    hide LevelOk, SideOk, Descending;
    assert g.Ring(side)[i] == r[j] && r[j] in r && r[j] != b;
    assert SameData(m, h, n, g, r[j]);
  }

  lemma {:induction false} RingDistinct(m: Store, h: Shape, side: Side)
    requires SideOk(m, h, side)
    ensures Distinct(h.Ring(side), |m.levels|)
  {
  }

  lemma {:induction false} UnseatedOnly(m: Store, h: Shape, n: Store, g: Shape, priceLevels: nat, side: Side, k: nat,
          o: nat)
    requires Sized(m, h, priceLevels) && k < |h.Ring(side)| && side != NoSide
    requires Unseated(m, h, n, g, priceLevels, side, k, o)
    ensures OnlyRing(m, h, n, g, side, h.Ring(side)[k])
  {
    hide LevelRing, Dropped;
  }

  lemma {:induction false} UnseatedTables(m: Store, h: Shape, n: Store, g: Shape, priceLevels: nat, side: Side,
          k: nat, o: nat)
    requires Sized(m, h, priceLevels) && SlotsOk(m, h, priceLevels) && HomesOk(m, h, priceLevels)
    requires k < |h.Ring(side)| && side != NoSide && h.Ring(side)[k] !in h.Ring(Opposite(side))
    requires Unseated(m, h, n, g, priceLevels, side, k, o)
    ensures Sized(n, g, priceLevels) && SlotsOk(n, g, priceLevels) && HomesOk(n, g, priceLevels)
  {
    var r, t, b := h.Ring(side), g.Ring(side), h.Ring(side)[k];
    DroppedHas(r, |m.levels|, k);
    hide LevelRing, Dropped, SlotIndex;
    assert b in r && forall x :: x in t <==> x in r && x != b;
    assert forall c | 0 <= c < |m.levels| :: n.levels[c].price == m.levels[c].price;
    assert g.Ring(Buy) == g.bids && g.Ring(Sell) == g.asks && h.Ring(Buy) == h.bids && h.Ring(Sell) == h.asks;
    assert g.Ring(Opposite(side)) == h.Ring(Opposite(side));
    assert forall c :: c in g.bids || c in g.asks <==> (c in h.bids || c in h.asks) && c != b;
    hide Distinct;
    UnseatedHomes(m, h, n, g, priceLevels, b, o);
    hide HomesOk, Unseated;
    UnseatedSlots(m, h, n, g, priceLevels, b);
  }

  lemma {:induction false} UnseatedHomes(m: Store, h: Shape, n: Store, g: Shape, priceLevels: nat, b: nat, o: nat)
    requires Sized(m, h, priceLevels) && HomesOk(m, h, priceLevels) && Sized(n, g, priceLevels)
    requires b < |h.fifos| && o < |h.home| && h.fifos[b] == [o] && h.home[o] == b
    requires g.fifos == h.fifos[b := []] && g.home == h.home[o := NULL]
    requires forall c :: c in g.bids || c in g.asks <==> (c in h.bids || c in h.asks) && c != b
    ensures HomesOk(n, g, priceLevels)
  {
    hide Distinct;
    forall x | 0 <= x < |g.home| && g.home[x] != NULL
      ensures 0 <= g.home[x] < |g.fifos| && (g.home[x] in g.bids || g.home[x] in g.asks) && x in g.fifos[g.home[x]] {
      assert x != o && g.home[x] == h.home[x] && x in h.fifos[h.home[x]];
    }
  }

  lemma {:induction false} UnseatedSlots(m: Store, h: Shape, n: Store, g: Shape, priceLevels: nat, b: nat)
    requires Sized(m, h, priceLevels) && SlotsOk(m, h, priceLevels) && Sized(n, g, priceLevels)
    requires b in h.bids || b in h.asks
    requires n.slots == m.slots[SlotIndex(m.levels[b].price, priceLevels) := NULL]
    requires forall c | 0 <= c < |m.levels| :: n.levels[c].price == m.levels[c].price
    requires forall c :: c in g.bids || c in g.asks <==> (c in h.bids || c in h.asks) && c != b
    ensures SlotsOk(n, g, priceLevels)
  {
    assert forall c | c in h.bids || c in h.asks :: c < |m.levels|;
    hide Distinct, SlotIndex;
    assert m.slots[SlotIndex(m.levels[b].price, priceLevels)] == b;
    forall c | c in g.bids || c in g.asks ensures n.slots[SlotIndex(n.levels[c].price, priceLevels)] == c {
      assert c in h.bids || c in h.asks;
    }
  }

  /** The last order of a level takes the level with it. */
  lemma {:induction false} UnseatedOk(m: Store, h: Shape, n: Store, g: Shape, priceLevels: nat, side: Side, k: nat,
          o: nat)
    requires Linked(m, h, priceLevels) && side != NoSide && k < |h.Ring(side)|
    requires Unseated(m, h, n, g, priceLevels, side, k, o)
    ensures Linked(n, g, priceLevels)
    ensures |LevelsOf(m, h, side)[k].orders| == 1
    ensures LevelsOf(n, g, side) == TakeOut(LevelsOf(m, h, side), k, 0)
    ensures LevelsOf(n, g, Opposite(side)) == LevelsOf(m, h, Opposite(side))
  {
    var b := h.Ring(side)[k];
    SidesApart(m, h, side);
    assert b in h.Ring(side);
    UnseatedOnly(m, h, n, g, priceLevels, side, k, o);
    UnseatedTables(m, h, n, g, priceLevels, side, k, o);
    assert g.Ring(side) == Dropped(h.Ring(side), k) && b !in h.Ring(Opposite(side));
    assert |LevelsOf(m, h, side)| == |h.Ring(side)| && |LevelsOf(m, h, side)[k].orders| == |h.fifos[b]|;
    assert h.fifos[b] == [o];
    hide SideOk, LevelOk, Queue, OnlyRing, LevelsOf, Distinct, Unseated, Dropped, Sized, SlotsOk, HomesOk;
    RingOther(m, h, n, g, side, b);
    UnseatSide(m, h, n, g, side, k);
    UnseatLevels(m, h, n, g, side, k);
  }
}
