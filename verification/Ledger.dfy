/** Quantity accounting from the outside: an observer who sees only the responses
  * knows, for every client order, exactly how much of it is still in the book.
  */
module Ledger {
  import opened Types
  import opened PriceTime
  import opened Exchange
  import opened Soundness

  /** What the responses so far say about one client order id of one ticker. A
    * response that contradicts them leads to `Fault`.
    */
  datatype Account = Closed | Open(id: nat, side: Side, qty: nat) | Fault

  function Holding(id: nat, side: Side, qty: nat): Account {
    if qty == 0 then Closed else Open(id, side, qty)
  }

  predicate Concerns(r: Response, ticker: nat, owner: Owner) {
    r.ticker == ticker && r.client == owner.client && r.clientOrderId == owner.orderId
  }

  /** ACCEPTED opens an account, FILLED must report the exact remainder, CANCELED
    * closes it, and a cancel is rejected only when nothing is open.
    */
  function Note(a: Account, r: Response): Account {
    match r.kind
    case Accepted =>
      if a.Closed? && r.execQty == 0 then Holding(r.marketOrderId, r.side, r.leavesQty) else Fault
    case Filled =>
      if && a.Open? && a.id == r.marketOrderId && a.side == r.side
         && 0 < r.execQty && r.execQty + r.leavesQty == a.qty
      then Holding(a.id, a.side, r.leavesQty) else Fault
    case Canceled =>
      if a.Open? && a.id == r.marketOrderId && a.side == r.side then Closed else Fault
    case CancelRejected => if a.Closed? then a else Fault
    case Rejected => a
  }

  function Replay(ticker: nat, owner: Owner, a: Account, rs: seq<Response>): Account {
    if rs == [] then a
    else
      var before := Replay(ticker, owner, a, rs[..|rs| - 1]);
      var r := rs[|rs| - 1];
      if Concerns(r, ticker, owner) then Note(before, r) else before
  }

  lemma {:induction false} ReplayConcat(ticker: nat, owner: Owner, a: Account, rs: seq<Response>, qs: seq<Response>)
    ensures Replay(ticker, owner, a, rs + qs) == Replay(ticker, owner, Replay(ticker, owner, a, rs), qs)
  {
    if qs == [] {
      assert rs + qs == rs;
    } else {
      ReplayConcat(ticker, owner, a, rs, qs[..|qs| - 1]);
      assert (rs + qs)[..|rs + qs| - 1] == rs + qs[..|qs| - 1];
    }
  }

  lemma {:induction false} ReplayUnconcerned(ticker: nat, owner: Owner, a: Account, rs: seq<Response>)
    requires forall r | r in rs :: !Concerns(r, ticker, owner)
    ensures Replay(ticker, owner, a, rs) == a
  {
    if rs != [] {
      ReplayUnconcerned(ticker, owner, a, rs[..|rs| - 1]);
    }
  }

  /** What the book itself holds for an owner. */
  function AccountIn(o: Option<Order>): Account {
    if o.Some? then Open(o.value.id, o.value.side, o.value.qty) else Closed
  }

  function AccountOf(b: Book, owner: Owner): Account {
    AccountIn(Lookup(b, owner))
  }

  lemma {:induction false} LookupIs(b: Book, owner: Owner, o: Option<Order>)
    requires Keyed(b)
    requires if o.Some? then b.Has(o.value) && o.value.owner == owner else forall p | b.Has(p) :: p.owner != owner
    ensures Lookup(b, owner) == o
  {
    LookupHas(b, owner);
  }

  // ---------- the sweep ----------

  ghost predicate DistinctOwners(s: seq<Order>) {
    forall i, j | 0 <= i < j < |s| :: s[i].owner != s[j].owner
  }

  lemma {:induction false} FindOwnerNone(s: seq<Order>, owner: Owner)
    requires forall o | o in s :: o.owner != owner
    ensures FindOwner(s, owner) == None
  {
    FindOwnerHas(s, owner);
  }

  lemma {:induction false} ReplayMatch(t: Taker, maker: Order, leaves: nat, owner: Owner, a: Account)
    ensures Replay(t.ticker, owner, a, MatchEffects(t, maker, leaves).responses) ==
            var fill := Min(leaves, maker.qty);
            var b := if t.owner == owner then Note(a, TakerFill(t, maker.price, fill, leaves - fill)) else a;
            if maker.owner == owner then Note(b, MakerFill(t.ticker, maker, fill, maker.qty - fill)) else b
  {
    var rs := MatchEffects(t, maker, leaves).responses;
    assert rs[..1] == [rs[0]] && rs[..1][..0] == [];
    assert Replay(t.ticker, owner, a, rs[..1]) == if t.owner == owner then Note(a, rs[0]) else a;
  }

  lemma {:induction false} AfterMatchFind(opp: seq<Order>, leaves: nat, owner: Owner)
    requires opp != [] && DistinctOwners(opp)
    ensures DistinctOwners(AfterMatch(opp, leaves))
    ensures FindOwner(AfterMatch(opp, leaves), owner) ==
            if opp[0].owner != owner then FindOwner(opp, owner)
            else if opp[0].qty <= leaves then None
            else Some(opp[0].(qty := opp[0].qty - leaves))
  {
    if opp[0].owner == owner && opp[0].qty <= leaves {
      forall o | o in opp[1..] ensures o.owner != owner {
        var i :| 0 <= i < |opp[1..]| && opp[1..][i] == o;
        assert o == opp[i + 1];
      }
      FindOwnerNone(opp[1..], owner);
    }
  }

  lemma {:induction false} MatchTaker(t: Taker, maker: Order, leaves: nat)
    requires 0 < leaves && 0 < maker.qty && maker.owner != t.owner
    ensures Replay(t.ticker, t.owner, Holding(t.id, t.side, leaves), MatchEffects(t, maker, leaves).responses)
            == Holding(t.id, t.side, leaves - Min(leaves, maker.qty))
  {
    ReplayMatch(t, maker, leaves, t.owner, Holding(t.id, t.side, leaves));
  }

  /** The taker sees its own remainder shrink by exactly each execution. */
  lemma {:induction false} SweepTaker(t: Taker, opp: seq<Order>, leaves: nat)
    requires forall o | o in opp :: 0 < o.qty && o.owner != t.owner
    ensures var s := Sweep(t, opp, leaves);
            Replay(t.ticker, t.owner, Holding(t.id, t.side, leaves), s.effects.responses)
            == Holding(t.id, t.side, s.leaves)
    decreases leaves + |opp|
  {
    if 0 < leaves && opp != [] && Crosses(t.side, t.price, opp[0].price) {
      var rest, left := AfterMatch(opp, leaves), leaves - Min(leaves, opp[0].qty);
      assert opp[0] in opp;
      assert forall o | o in opp[1..] :: o in opp;
      SweepTaker(t, rest, left);
      MatchTaker(t, opp[0], leaves);
      ReplayConcat(t.ticker, t.owner, Holding(t.id, t.side, leaves), MatchEffects(t, opp[0], leaves).responses,
                   Sweep(t, rest, left).effects.responses);
    }
  }

  lemma {:induction false} MatchMaker(t: Taker, opp: seq<Order>, leaves: nat, owner: Owner)
    requires owner != t.owner && opp != [] && DistinctOwners(opp) && 0 < opp[0].qty && 0 < leaves
    ensures Replay(t.ticker, owner, AccountIn(FindOwner(opp, owner)), MatchEffects(t, opp[0], leaves).responses)
            == AccountIn(FindOwner(AfterMatch(opp, leaves), owner))
  {
    AfterMatchFind(opp, leaves, owner);
    ReplayMatch(t, opp[0], leaves, owner, AccountIn(FindOwner(opp, owner)));
  }

  /** So does every maker. */
  lemma {:induction false} SweepMaker(t: Taker, opp: seq<Order>, leaves: nat, owner: Owner)
    requires owner != t.owner && DistinctOwners(opp)
    requires forall o | o in opp :: 0 < o.qty
    ensures var s := Sweep(t, opp, leaves);
            Replay(t.ticker, owner, AccountIn(FindOwner(opp, owner)), s.effects.responses)
            == AccountIn(FindOwner(s.rest, owner))
    decreases leaves + |opp|
  {
    if leaves == 0 || opp == [] || !Crosses(t.side, t.price, opp[0].price) {
    } else {
      var rest, left := AfterMatch(opp, leaves), leaves - Min(leaves, opp[0].qty);
      assert opp[0] in opp;
      assert forall o | o in opp[1..] :: o in opp;
      MatchMaker(t, opp, leaves, owner);
      AfterMatchFind(opp, leaves, owner);
      ReplayConcat(t.ticker, owner, AccountIn(FindOwner(opp, owner)), MatchEffects(t, opp[0], leaves).responses,
                   Sweep(t, rest, left).effects.responses);
      SweepMaker(t, rest, left, owner);
    }
  }

  /** And nobody else sees anything. */
  lemma {:induction false} SweepUntouched(t: Taker, opp: seq<Order>, leaves: nat, owner: Owner, a: Account)
    requires owner != t.owner && FindOwner(opp, owner) == None
    ensures var s := Sweep(t, opp, leaves);
            FindOwner(s.rest, owner) == None && Replay(t.ticker, owner, a, s.effects.responses) == a
    decreases leaves + |opp|
  {
    if leaves == 0 || opp == [] || !Crosses(t.side, t.price, opp[0].price) {
    } else {
      var rest, left := AfterMatch(opp, leaves), leaves - Min(leaves, opp[0].qty);
      ReplayMatch(t, opp[0], leaves, owner, a);
      ReplayConcat(t.ticker, owner, a, MatchEffects(t, opp[0], leaves).responses,
          Sweep(t, rest, left).effects.responses);
      SweepUntouched(t, rest, left, owner, a);
    }
  }

  // ---------- the two requests ----------

  lemma {:induction false} OneSideDistinct(side: Side, b: Book)
    requires TwoSided(b) && Keyed(b) && side != NoSide
    ensures DistinctOwners(b.On(side))
  {
    var s := b.On(side);
    forall i, j | 0 <= i < j < |s| ensures s[i].owner != s[j].owner {
      assert b.Has(s[i]) && b.Has(s[j]);
      assert Before(side, s[i], s[j]);
    }
  }

  /** An owner found on one side is not on the other. */
  lemma {:induction false} LookupBySide(b: Book, owner: Owner, side: Side)
    requires TwoSided(b) && Keyed(b) && side != NoSide
    ensures FindOwner(b.On(side), owner).Some? ==> FindOwner(b.On(Opposite(side)), owner) == None
    ensures Lookup(b, owner) == if FindOwner(b.On(side), owner).Some? then FindOwner(b.On(side), owner)
                                else FindOwner(b.On(Opposite(side)), owner)
  {
    FindOwnerHas(b.bids, owner);
    FindOwnerHas(b.asks, owner);
  }

  /** The book after the sweep agrees with what the makers were told. */
  lemma {:induction false} SweptLedger(t: Taker, b: Book, qty: nat, who: Owner)
    requires TwoSided(b) && Keyed(b) && t.side != NoSide && who != t.owner
    requires forall o | b.Has(o) :: 0 < o.qty
    ensures var s := Sweep(t, b.On(Opposite(t.side)), qty);
            Replay(t.ticker, who, AccountOf(b, who), s.effects.responses)
            == AccountOf(b.With(Opposite(t.side), s.rest), who)
  {
    var side := Opposite(t.side);
    var opp := b.On(side);
    assert forall o | o in opp :: b.Has(o);
    OneSideDistinct(side, b);
    LookupBySide(b, who, side);
    if FindOwner(opp, who).Some? {
      SweepMaker(t, opp, qty, who);
    } else {
      SweepUntouched(t, opp, qty, who, AccountOf(b, who));
    }
  }

  /** Resting an order adds exactly its own account. */
  lemma {:induction false} RestLookup(b: Book, o: Order, who: Owner)
    requires o.side != NoSide && Keyed(Rested(b, o))
    requires forall y | b.Has(y) :: y.owner != o.owner
    ensures Lookup(Rested(b, o), who) == if who == o.owner then Some(o) else Lookup(b, who)
  {
    var s, c := b.On(o.side), Rested(b, o);
    forall y ensures y in Insert(s, o) <==> y == o || y in s { InsertHas(s, o, y); }
    assert forall y :: c.Has(y) <==> y == o || b.Has(y);
    LookupHas(b, who);
    LookupIs(c, who, if who == o.owner then Some(o) else Lookup(b, who));
  }

  lemma {:induction false} AcceptedLedger(t: Taker, b: Book, qty: nat, who: Owner)
    requires TwoSided(b) && Keyed(b) && t.side != NoSide
    requires forall o | b.Has(o) :: 0 < o.qty && o.owner != t.owner
    ensures var s := Sweep(t, b.On(Opposite(t.side)), qty);
            Replay(t.ticker, who, AccountOf(b, who), [Acceptance(t, qty)] + s.effects.responses)
            == if who == t.owner then Holding(t.id, t.side, s.leaves)
               else AccountOf(b.With(Opposite(t.side), s.rest), who)
  {
    var opp := b.On(Opposite(t.side));
    var s := Sweep(t, opp, qty);
    assert [Acceptance(t, qty)][..0] == [];
    ReplayConcat(t.ticker, who, AccountOf(b, who), [Acceptance(t, qty)], s.effects.responses);
    LookupHas(b, who);
    if who == t.owner {
      assert forall o | o in opp :: b.Has(o);
      SweepTaker(t, opp, qty);
    } else {
      SweptLedger(t, b, qty, who);
    }
  }

  /** The settled book holds the taker's remainder and what the sweep left of the rest. */
  lemma {:induction false} SettleLookup(cfg: Config, x: XBook, t: Taker, qty: nat, s: Swept, who: Owner)
    requires cfg.Valid() && Sound(cfg, x) && t.side != NoSide && t.id == x.nextId
    requires Admits(cfg, x.book, t.owner, t.price)
    requires Survivors(t, x.book.On(Opposite(t.side)), qty, s)
    ensures AccountOf(Settle(x.book, t, qty, s).x.book, who) ==
            if who == t.owner then Holding(t.id, t.side, s.leaves)
            else AccountOf(x.book.With(Opposite(t.side), s.rest), who)
  {
    var opp := Opposite(t.side);
    var swept := x.book.With(opp, s.rest);
    SettleSound(cfg, x, t, qty, s);
    AdmitsShrunk(cfg, x.book, opp, s.rest, t.owner, t.price);
    if s.leaves > 0 {
      RestLookup(swept, Remainder(t, swept, s.leaves), who);
    } else {
      LookupHas(swept, who);
    }
  }

  lemma {:induction false} AddLedger(cfg: Config, x: XBook, ticker: nat, owner: Owner, side: Side, price: nat,
          qty: nat, who: Owner)
    requires cfg.Valid() && Sound(cfg, x) && side != NoSide
    ensures var out := AddOrder(cfg, x, ticker, owner, side, price, qty);
            Replay(ticker, who, AccountOf(x.book, who), out.effects.responses) == AccountOf(out.x.book, who)
  {
    var rs := AddOrder(cfg, x, ticker, owner, side, price, qty).effects.responses;
    if !Admits(cfg, x.book, owner, price) {
      assert rs[..0] == [];
    } else {
      var t := Taker(ticker, owner, x.nextId, side, price);
      var s := Sweep(t, x.book.On(Opposite(side)), qty);
      BookSurvivors(cfg, x, t, qty);
      SettleLookup(cfg, x, t, qty, s, who);
      AcceptedLedger(t, x.book, qty, who);
      assert rs == [Acceptance(t, qty)] + s.effects.responses;
    }
  }

  /** A withdrawal closes exactly its own account. */
  lemma {:induction false} WithdrawnLookup(b: Book, o: Order, who: Owner)
    requires TwoSided(b) && Keyed(b) && b.Has(o)
    requires Keyed(b.With(o.side, Remove(b.On(o.side), o.id)))
    ensures Lookup(b.With(o.side, Remove(b.On(o.side), o.id)), who) == if who == o.owner then None else Lookup(b, who)
  {
    var s := b.On(o.side);
    var c := b.With(o.side, Remove(s, o.id));
    forall y ensures y in Remove(s, o.id) <==> y in s && y.id != o.id { RemoveHas(s, o.id, y); }
    assert forall y :: c.Has(y) <==> b.Has(y) && y != o;
    LookupHas(b, who);
    LookupIs(c, who, if who == o.owner then None else Lookup(b, who));
  }

  lemma {:induction false} CancelLedger(cfg: Config, x: XBook, ticker: nat, owner: Owner, who: Owner)
    requires cfg.Valid() && Sound(cfg, x)
    ensures var out := CancelOrder(x, ticker, owner);
            Replay(ticker, who, AccountOf(x.book, who), out.effects.responses) == AccountOf(out.x.book, who)
  {
    var out := CancelOrder(x, ticker, owner);
    CancelKeepsSound(cfg, x, ticker, owner);
    CancelAccount(x, ticker, owner, who, out);
  }

  lemma {:induction false} CancelAccount(x: XBook, ticker: nat, owner: Owner, who: Owner, out: Outcome)
    requires TwoSided(x.book) && Keyed(x.book) && Keyed(out.x.book) && out == CancelOrder(x, ticker, owner)
    ensures Replay(ticker, who, AccountOf(x.book, who), out.effects.responses) == AccountOf(out.x.book, who)
  {
    var rs := out.effects.responses;
    assert rs[..0] == [];
    LookupHas(x.book, owner);
    match Lookup(x.book, owner)
    case None =>
    case Some(o) =>
      LookupIs(x.book, owner, Some(o));
      WithdrawnLookup(x.book, o, who);
  }

  // ---------- runs ----------

  lemma {:induction false} SweepResponseTicker(t: Taker, opp: seq<Order>, leaves: nat)
    ensures forall r | r in Sweep(t, opp, leaves).effects.responses :: r.ticker == t.ticker && r.kind == Filled
    decreases leaves + |opp|
  {
    if leaves == 0 || opp == [] || !Crosses(t.side, t.price, opp[0].price) {
    } else {
      SweepResponseTicker(t, AfterMatch(opp, leaves), leaves - Min(leaves, opp[0].qty));
    }
  }

  /** Responses speak only about the request's ticker; the only acceptance is of the
    * request itself, for its full quantity.
    */
  lemma {:induction false} ProcessResponses(cfg: Config, books: seq<XBook>, r: Request)
    requires cfg.Valid() && |books| == cfg.tickers
    ensures var rs := Process(cfg, books, r).effects.responses;
            && (forall i | 0 <= i < |rs| :: rs[i].ticker == r.ticker && (i > 0 ==> rs[i].kind == Filled))
            && (forall p | p in rs && p.kind == Accepted ::
                  && r.kind == NewRequest
                  && p.client == r.client && p.clientOrderId == r.orderId
                  && p.side == r.side && p.price == r.price && p.leavesQty == r.qty)
  {
    if r.ticker < cfg.tickers && r.kind == NewRequest {
      var x, owner := books[r.ticker], Owner(r.client, r.orderId);
      if Admits(cfg, x.book, owner, r.price) {
        var t := Taker(r.ticker, owner, x.nextId, r.side, r.price);
        SweepResponseTicker(t, x.book.On(Opposite(r.side)), r.qty);
        var s := Sweep(t, x.book.On(Opposite(r.side)), r.qty).effects.responses;
        var rs := Process(cfg, books, r).effects.responses;
        assert rs == [Acceptance(t, r.qty)] + s;
        assert forall i | 0 < i < |rs| :: rs[i] == s[i - 1] && s[i - 1] in s;
      }
    }
  }

  lemma {:induction false} ProcessLedger(cfg: Config, books: seq<XBook>, r: Request, ticker: nat, who: Owner)
    requires cfg.Valid() && EngineSound(cfg, books) && Sided(r) && ticker < cfg.tickers
    ensures var out := Process(cfg, books, r);
            Replay(ticker, who, AccountOf(books[ticker].book, who), out.effects.responses) ==
            AccountOf(out.books[ticker].book, who)
  {
    var owner := Owner(r.client, r.orderId);
    var out := Process(cfg, books, r);
    if r.ticker != ticker {
      ProcessResponses(cfg, books, r);
      ReplayUnconcerned(ticker, who, AccountOf(books[ticker].book, who), out.effects.responses);
    } else if r.kind == NewRequest {
      AddLedger(cfg, books[ticker], ticker, owner, r.side, r.price, r.qty, who);
    } else if r.kind == CancelRequest {
      CancelLedger(cfg, books[ticker], ticker, owner, who);
    } else {
      assert out.effects.responses[..0] == [];
    }
  }

  /** Over every run, replaying the responses about an order gives exactly what the
    * book holds of it: nothing is filled twice, lost, or reported wrongly.
    */
  lemma {:induction false} RunLedger(cfg: Config, rs: seq<Request>, ticker: nat, who: Owner)
    requires cfg.Valid() && (forall r | r in rs :: Sided(r)) && ticker < cfg.tickers
    ensures var out := Run(cfg, rs);
            Replay(ticker, who, Closed, out.effects.responses) == AccountOf(out.books[ticker].book, who)
  {
    if rs != [] {
      var init, r := rs[..|rs| - 1], rs[|rs| - 1];
      RunLedger(cfg, init, ticker, who);
      RunSound(cfg, init);
      ProcessLedger(cfg, Run(cfg, init).books, r, ticker, who);
      ReplayConcat(ticker, who, Closed, Run(cfg, init).effects.responses,
                   Process(cfg, Run(cfg, init).books, r).effects.responses);
    }
  }

  // ---------- balance ----------

  /** Quantity executed under one client order id. */
  function Executed(ticker: nat, owner: Owner, rs: seq<Response>): nat {
    if rs == [] then 0
    else
      var r := rs[|rs| - 1];
      Executed(ticker, owner, rs[..|rs| - 1]) +
      if Concerns(r, ticker, owner) && r.kind == Filled then r.execQty else 0
  }

  function Traded(side: Side, rs: seq<Response>): nat {
    if rs == [] then 0
    else Traded(side, rs[..|rs| - 1]) +
         var r := rs[|rs| - 1]; if r.kind == Filled && r.side == side then r.execQty else 0
  }

  function Printed(us: seq<MarketUpdate>): nat {
    if us == [] then 0
    else Printed(us[..|us| - 1]) + var u := us[|us| - 1]; if u.kind == Trade then u.qty else 0
  }

  lemma {:induction false} TradedConcat(side: Side, rs: seq<Response>, qs: seq<Response>)
    ensures Traded(side, rs + qs) == Traded(side, rs) + Traded(side, qs)
  {
    if qs == [] {
      assert rs + qs == rs;
    } else {
      assert (rs + qs)[..|rs + qs| - 1] == rs + qs[..|qs| - 1];
      TradedConcat(side, rs, qs[..|qs| - 1]);
    }
  }

  lemma {:induction false} PrintedConcat(us: seq<MarketUpdate>, vs: seq<MarketUpdate>)
    ensures Printed(us + vs) == Printed(us) + Printed(vs)
  {
    if vs == [] {
      assert us + vs == us;
    } else {
      assert (us + vs)[..|us + vs| - 1] == us + vs[..|vs| - 1];
      PrintedConcat(us, vs[..|vs| - 1]);
    }
  }

  ghost predicate Balanced(e: Effects) {
    Traded(Buy, e.responses) == Traded(Sell, e.responses) == Printed(e.updates)
  }

  lemma {:induction false} BalancedThen(e: Effects, f: Effects)
    requires Balanced(e) && Balanced(f)
    ensures Balanced(e.Then(f))
  {
    TradedConcat(Buy, e.responses, f.responses);
    TradedConcat(Sell, e.responses, f.responses);
    PrintedConcat(e.updates, f.updates);
  }

  lemma {:induction false} MatchBalanced(t: Taker, maker: Order, leaves: nat)
    requires t.side != NoSide && maker.side == Opposite(t.side)
    ensures Balanced(MatchEffects(t, maker, leaves))
  {
    var e := MatchEffects(t, maker, leaves);
    var r0, r1, u0, u1 := e.responses[0], e.responses[1], e.updates[0], e.updates[1];
    assert e.responses == [r0] + [r1] && e.updates == [u0] + [u1];
    TradedConcat(Buy, [r0], [r1]);
    TradedConcat(Sell, [r0], [r1]);
    PrintedConcat([u0], [u1]);
    assert [r0][..0] == [] && [r1][..0] == [] && [u0][..0] == [] && [u1][..0] == [];
  }

  lemma {:induction false} SweepBalanced(t: Taker, opp: seq<Order>, leaves: nat)
    requires t.side != NoSide && forall o | o in opp :: o.side == Opposite(t.side)
    ensures Balanced(Sweep(t, opp, leaves).effects)
    decreases leaves + |opp|
  {
    if leaves == 0 || opp == [] || !Crosses(t.side, t.price, opp[0].price) {
    } else {
      var rest := AfterMatch(opp, leaves);
      assert opp[0] in opp;
      assert forall o | o in opp[1..] :: o in opp;
      MatchBalanced(t, opp[0], leaves);
      SweepBalanced(t, rest, leaves - Min(leaves, opp[0].qty));
      BalancedThen(MatchEffects(t, opp[0], leaves), Sweep(t, rest, leaves - Min(leaves, opp[0].qty)).effects);
    }
  }

  /** Messages other than fills and trade prints do not disturb the balance. */
  lemma {:induction false} QuietBalanced(e: Effects)
    requires |e.responses| <= 1 && |e.updates| <= 1
    requires forall r | r in e.responses :: r.kind != Filled
    requires forall u | u in e.updates :: u.kind != Trade
    ensures Balanced(e)
  {
    assert e.responses != [] ==> e.responses[..0] == [];
    assert e.updates != [] ==> e.updates[..0] == [];
  }

  lemma {:induction false} SettleBalanced(b: Book, t: Taker, qty: nat, s: Swept)
    requires Balanced(s.effects)
    ensures Balanced(Settle(b, t, qty, s).effects)
  {
    var accepted := Effects([Acceptance(t, qty)], []);
    QuietBalanced(accepted);
    BalancedThen(accepted, s.effects);
    if s.leaves > 0 {
      var add := Effects([], [OrderUpdate(Add, t.ticker, Remainder(t, b.With(Opposite(t.side), s.rest), s.leaves))]);
      QuietBalanced(add);
      BalancedThen(accepted.Then(s.effects), add);
    }
  }

  lemma {:induction false} ProcessBalanced(cfg: Config, books: seq<XBook>, r: Request)
    requires cfg.Valid() && EngineSound(cfg, books) && Sided(r)
    ensures Balanced(Process(cfg, books, r).effects)
  {
    var owner := Owner(r.client, r.orderId);
    var e := Process(cfg, books, r).effects;
    if r.ticker < cfg.tickers && r.kind == NewRequest && Admits(cfg, books[r.ticker].book, owner, r.price) {
      var x := books[r.ticker];
      var t := Taker(r.ticker, owner, x.nextId, r.side, r.price);
      var opp := x.book.On(Opposite(r.side));
      SweepBalanced(t, opp, r.qty);
      SettleBalanced(x.book, t, r.qty, Sweep(t, opp, r.qty));
    } else {
      QuietBalanced(e);
    }
  }

  /** Over every run: bought, sold and printed quantities are the same. */
  lemma {:induction false} RunBalanced(cfg: Config, rs: seq<Request>)
    requires cfg.Valid() && forall r | r in rs :: Sided(r)
    ensures Balanced(Run(cfg, rs).effects)
  {
    if rs != [] {
      var init := rs[..|rs| - 1];
      RunBalanced(cfg, init);
      RunSound(cfg, init);
      ProcessBalanced(cfg, Run(cfg, init).books, rs[|rs| - 1]);
      BalancedThen(Run(cfg, init).effects, Process(cfg, Run(cfg, init).books, rs[|rs| - 1]).effects);
    }
  }
}
