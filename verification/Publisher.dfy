/** The exchange's end of the market data: the publisher that numbers the engine's
  * updates, and the synthesizer that keeps a table of live orders and serialises
  * it as snapshot cycles.
  */
module Publishers {
  import opened Types
  import opened MemPools
  import opened Snapshot

  /** A numbered message of either stream. */
  datatype Message = Message(seqNum: nat, update: MarketUpdate)

  /** The messages of a stream, from number `first` on. */
  function Numbered(first: nat, us: seq<MarketUpdate>): (r: seq<Message>)
    ensures |r| == |us| && forall i | 0 <= i < |r| :: r[i] == Message(first + i, us[i])
  {
    seq(|us|, i requires 0 <= i < |us| => Message(first + i, us[i]))
  }

  class MarketDataPublisher {
    var incoming: seq<MarketUpdate>
    var nextSeq: nat
    var wire: seq<Message>
    var toSynthesizer: seq<Message>

    constructor ()
      ensures incoming == [] && nextSeq == 1 && wire == toSynthesizer == []
    {
      incoming, nextSeq, wire, toSynthesizer := [], 1, [], [];
    }

    /** `poll`: everything queued goes out numbered, once, in order, and is forwarded
      * under the same number before its slot is released.
      */
    method Poll()
      modifies this
      ensures incoming == [] && nextSeq == old(nextSeq) + |old(incoming)|
      ensures wire == old(wire) + Numbered(old(nextSeq), old(incoming))
      ensures toSynthesizer == old(toSynthesizer) + Numbered(old(nextSeq), old(incoming))
    {
      ghost var all, first, done := incoming, nextSeq, [];
      assert wire == old(wire) + Numbered(first, []) && toSynthesizer == old(toSynthesizer) + Numbered(first, []);
      while incoming != []
        invariant done + incoming == all && nextSeq == first + |done|
        invariant wire == old(wire) + Numbered(first, done)
        invariant toSynthesizer == old(toSynthesizer) + Numbered(first, done)
        decreases |incoming|
      {
        var update := incoming[0];
        wire := wire + [Message(nextSeq, update)];
        toSynthesizer := toSynthesizer + [Message(nextSeq, update)];
        incoming := incoming[1..];
        nextSeq := nextSeq + 1;
        assert Numbered(first, done + [update]) == Numbered(first, done) + [Message(first + |done|, update)];
        done := done + [update];
      }
    }
  }

  class SnapshotSynthesizer {
    const cfg: Config
    const table: array2<int>
    const blocks: array<MarketUpdate>
    const pool: MemPool
    var lastSeq: nat
    var nextSnapSeq: nat
    var sent: seq<Message>
    ghost var owner: seq<(nat, nat)>  // whose entry points to a block

    ghost function Repr(): set<object> {
      {this, table, blocks, pool, pool.isFree}
    }

    /** Every entry of the table is a block. */
    ghost predicate Tabled()
      reads table
    {
      && table.Length0 == cfg.tickers && table.Length1 == cfg.orderIds
      && (forall t, i | 0 <= t < table.Length0 && 0 <= i < table.Length1 && table[t, i] != NULL ::
            0 <= table[t, i] < blocks.Length)
    }

    /** Every entry of the table owns an allocated block of its own. */
    ghost predicate Pooled()
      reads this`owner, table, pool, pool.isFree
    {
      && |owner| == pool.isFree.Length
      && (forall t, i | 0 <= t < table.Length0 && 0 <= i < table.Length1 && table[t, i] != NULL ::
            0 <= table[t, i] < |owner| && !pool.isFree[table[t, i]] && owner[table[t, i]] == (t, i))
    }

    ghost predicate Valid()
      reads Repr()
    {
      && cfg.Valid() && pool.Valid() && pool.isFree.Length == blocks.Length && 0 < nextSnapSeq
      && Tabled() && Pooled()
    }

    /** One ticker's row as a map. */
    ghost function Row(t: nat): map<nat, MarketUpdate>
      requires Tabled() && t < cfg.tickers
      reads table, blocks
    {
      map i: nat | 0 <= i < cfg.orderIds && table[t, i] != NULL :: blocks[table[t, i]]
    }

    ghost function Rows(): (r: seq<map<nat, MarketUpdate>>)
      requires Tabled()
      reads table, blocks
      ensures |r| == cfg.tickers && forall t | 0 <= t < cfg.tickers :: r[t] == Row(t)
    {
      seq(cfg.tickers, t requires 0 <= t < cfg.tickers reads table, blocks requires Tabled() => Row(t))
    }

    ghost function Abs(): (s: Synth)
      requires Tabled()
      reads this, table, blocks
      ensures |s.orders| == cfg.tickers
    {
      Synth(lastSeq, Rows())
    }

    constructor (cfg: Config, capacity: nat)
      requires cfg.Valid()
      ensures Valid() && this.cfg == cfg && Abs() == EmptySynth(cfg) && sent == [] && nextSnapSeq == 1 && fresh(Repr())
    {
      this.cfg := cfg;
      table := new int[cfg.tickers, cfg.orderIds]((_, _) => NULL);
      blocks := new MarketUpdate[capacity](_ => Marker(UnknownUpdate, 0));
      pool := new MemPool(capacity);
      lastSeq, nextSnapSeq, sent, owner := 0, 1, [], seq(capacity, _ => (0, 0));
      new;
      assert forall t | 0 <= t < cfg.tickers :: Row(t) == map[];
    }

    /** `addToSnapshot`: the table absorbs one update of the incremental stream. It
      * fails exactly when an ADD it takes in finds the pool used up, which is fatal in
      * the original.
      */
    method AddToSnapshot(m: Message) returns (ok: bool)
      requires Valid()
      modifies Repr()
      ensures var u := m.update;
              ok <==> !(u.kind == Add && u.ticker < cfg.tickers && u.orderId < cfg.orderIds && old(pool.freeCount) == 0)
      ensures sent == old(sent) && nextSnapSeq == old(nextSnapSeq)
      ensures ok ==> Valid() && Abs() == Absorb(cfg, old(Abs()), m.seqNum, m.update)
    {
      hide Row, Pooled;
      var u := m.update;
      lastSeq := m.seqNum;
      ok := true;
      if IndexesBook(u) && (u.ticker >= cfg.tickers || u.orderId >= cfg.orderIds) {
        return;
      }
      match u.kind {
        case Add =>
          ok := IndexAdd(u);
        case Modify =>
          IndexModify(u);
        case Cancel =>
          IndexCancel(u);
        case _ =>
      }
    }

    /** An ADD takes a new block and enters it in the table. */
    method IndexAdd(u: MarketUpdate) returns (ok: bool)
      requires Valid() && u.kind == Add && u.ticker < cfg.tickers && u.orderId < cfg.orderIds
      modifies this`owner, table, blocks, pool, pool.isFree
      ensures ok == (old(pool.freeCount) > 0)
      ensures ok ==> Valid() && Rows() == old(Rows())[u.ticker := Absorb1(old(Rows())[u.ticker], u)]
    {
      hide Row, Absorb1;
      var block: nat;
      ok, block := pool.Allocate();
      if ok {
        Enter(block, u);
        owner := owner[block := (u.ticker, u.orderId)];
      }
    }

    /** A block that no entry names is filled in and named. */
    method Enter(block: nat, u: MarketUpdate)
      requires Tabled() && u.kind == Add && u.ticker < cfg.tickers && u.orderId < cfg.orderIds && block < blocks.Length
      requires forall t, i | 0 <= t < table.Length0 && 0 <= i < table.Length1 :: table[t, i] != block
      modifies table, blocks
      ensures Tabled() && Rows() == old(Rows())[u.ticker := Absorb1(old(Rows())[u.ticker], u)]
      ensures forall t, i | 0 <= t < table.Length0 && 0 <= i < table.Length1 ::
                table[t, i] == if t == u.ticker && i == u.orderId then block else old(table[t, i])
    {
      hide Absorb1;
      ghost var rows := Rows();
      blocks[block] := u;
      table[u.ticker, u.orderId] := block;
      AbsorbedRow(rows[u.ticker], Row(u.ticker), u);
      assert forall t | 0 <= t < cfg.tickers && t != u.ticker :: Row(t) == rows[t];
    }

    /** A MODIFY changes the quantity of a known order in its block. */
    method IndexModify(u: MarketUpdate)
      requires Valid() && u.kind == Modify && u.ticker < cfg.tickers && u.orderId < cfg.orderIds
      modifies blocks
      ensures Valid() && Rows() == old(Rows())[u.ticker := Absorb1(old(Rows())[u.ticker], u)]
    {
      hide Absorb1;
      ghost var rows := Rows();
      var block := table[u.ticker, u.orderId];
      if block != NULL {
        blocks[block] := blocks[block].(qty := u.qty);
      }
      AbsorbedRow(rows[u.ticker], Row(u.ticker), u);
      assert forall t | 0 <= t < cfg.tickers && t != u.ticker :: Row(t) == rows[t];
    }

    /** A CANCEL gives the block of a known order back. */
    method IndexCancel(u: MarketUpdate)
      requires Valid() && u.kind == Cancel && u.ticker < cfg.tickers && u.orderId < cfg.orderIds
      modifies table, pool, pool.isFree
      ensures Valid() && Rows() == old(Rows())[u.ticker := Absorb1(old(Rows())[u.ticker], u)]
    {
      hide Row, Absorb1;
      var block := table[u.ticker, u.orderId];
      if block != NULL {
        pool.Deallocate(block);
      }
      Erase(u);
    }

    /** The entry of a canceled order is cleared. */
    method Erase(u: MarketUpdate)
      requires Tabled() && u.kind == Cancel && u.ticker < cfg.tickers && u.orderId < cfg.orderIds
      modifies table
      ensures Tabled() && Rows() == old(Rows())[u.ticker := Absorb1(old(Rows())[u.ticker], u)]
      ensures forall t, i | 0 <= t < table.Length0 && 0 <= i < table.Length1 ::
                table[t, i] == if t == u.ticker && i == u.orderId then NULL else old(table[t, i])
    {
      hide Absorb1;
      ghost var rows := Rows();
      if table[u.ticker, u.orderId] != NULL {
        table[u.ticker, u.orderId] := NULL;
      }
      AbsorbedRow(rows[u.ticker], Row(u.ticker), u);
      assert forall t | 0 <= t < cfg.tickers && t != u.ticker :: Row(t) == rows[t];
    }

    method Send(u: MarketUpdate)
      modifies this`sent, this`nextSnapSeq
      ensures sent == old(sent) + [Message(old(nextSnapSeq), u)] && nextSnapSeq == old(nextSnapSeq) + 1
    {
      sent := sent + [Message(nextSnapSeq, u)];
      nextSnapSeq := nextSnapSeq + 1;
    }

    /** `publishSnapshot`: CLEAR, SNAPSHOT_START, an ADD for every table entry by ticker
      * and order id, and SNAPSHOT_END with the number absorbed last.
      */
    method PublishSnapshot()
      requires Valid()
      modifies this`sent, this`nextSnapSeq
      ensures Valid() && Abs() == old(Abs())
      ensures sent == old(sent) + Numbered(old(nextSnapSeq), Cycle(cfg, Abs()))
      ensures nextSnapSeq == old(nextSnapSeq) + |Cycle(cfg, Abs())|
    {
      hide Cycle, AllAdds;
      ghost var s, was, first := Abs(), sent, nextSnapSeq;
      Send(Marker(Clear, INVALID_64));
      Send(Marker(SnapshotStart, INVALID_64));
      ghost var done := [Marker(Clear, INVALID_64), Marker(SnapshotStart, INVALID_64)];
      var ticker := 0;
      CycleStart(cfg, s);
      while ticker < cfg.tickers
        invariant 0 <= ticker <= cfg.tickers && Valid() && Abs() == s
        invariant done == CycleSoFar(cfg, s, ticker)
        invariant sent == was + Numbered(first, done) && nextSnapSeq == first + |done|
      {
        done := PublishTicker(ticker, was, first, done);
        CycleNext(cfg, s, ticker);
        ticker := ticker + 1;
      }
      CycleEnd(cfg, s);
      NumberedAppend(first, done, Marker(SnapshotEnd, lastSeq));
      Send(Marker(SnapshotEnd, lastSeq));
    }

    /** The inner loop: the entries of one ticker. */
    method PublishTicker(ticker: nat, ghost was: seq<Message>, ghost first: nat, ghost done: seq<MarketUpdate>)
      returns (ghost r: seq<MarketUpdate>)
      requires Valid() && ticker < cfg.tickers
      requires sent == was + Numbered(first, done) && nextSnapSeq == first + |done|
      modifies this`sent, this`nextSnapSeq
      ensures Valid() && Abs() == old(Abs())
      ensures r == done + AddsBelow(Abs().orders[ticker], cfg.orderIds)
      ensures sent == was + Numbered(first, r) && nextSnapSeq == first + |r|
    {
      ghost var row := Row(ticker);
      var oid := 0;
      r := done;
      while oid < cfg.orderIds
        invariant 0 <= oid <= cfg.orderIds && Valid() && Abs() == old(Abs()) && Row(ticker) == row
        invariant r == done + AddsBelow(row, oid)
        invariant sent == was + Numbered(first, r) && nextSnapSeq == first + |r|
      {
        if table[ticker, oid] != NULL {
          var add := blocks[table[ticker, oid]].(kind := Add);
          NumberedAppend(first, r, add);
          Send(add);
          r := r + [add];
        }
        oid := oid + 1;
      }
    }
  }

  lemma {:induction false} AbsorbedRow(m: map<nat, MarketUpdate>, n: map<nat, MarketUpdate>, u: MarketUpdate)
    requires IndexesBook(u)
    requires forall i | i != u.orderId :: (i in n <==> i in m) && (i in m ==> n[i] == m[i])
    requires u.kind == Add ==> u.orderId in n && n[u.orderId] == u
    requires u.kind == Cancel ==> u.orderId !in n
    requires u.kind == Modify ==>
               && (u.orderId in n <==> u.orderId in m)
               && (u.orderId in m ==> n[u.orderId] == m[u.orderId].(qty := u.qty))
    ensures n == Absorb1(m, u)
  {
  }

  lemma {:induction false} NumberedAppend(first: nat, us: seq<MarketUpdate>, u: MarketUpdate)
    ensures Numbered(first, us + [u]) == Numbered(first, us) + [Message(first + |us|, u)]
  {
  }

  /** The part of a cycle that precedes ticker `k`. */
  ghost function CycleSoFar(cfg: Config, s: Synth, k: nat): seq<MarketUpdate>
    requires |s.orders| == cfg.tickers && k <= cfg.tickers
  {
    [Marker(Clear, INVALID_64), Marker(SnapshotStart, INVALID_64)] + AllAdds(cfg.orderIds, s.orders, k)
  }

  lemma {:induction false} CycleStart(cfg: Config, s: Synth)
    requires |s.orders| == cfg.tickers
    ensures CycleSoFar(cfg, s, 0) == [Marker(Clear, INVALID_64), Marker(SnapshotStart, INVALID_64)]
  {
  }

  lemma {:induction false} CycleNext(cfg: Config, s: Synth, k: nat)
    requires |s.orders| == cfg.tickers && k < cfg.tickers
    ensures CycleSoFar(cfg, s, k + 1) == CycleSoFar(cfg, s, k) + AddsBelow(s.orders[k], cfg.orderIds)
  {
  }

  lemma {:induction false} CycleEnd(cfg: Config, s: Synth)
    requires |s.orders| == cfg.tickers
    ensures Cycle(cfg, s) == CycleSoFar(cfg, s, cfg.tickers) + [Marker(SnapshotEnd, s.lastSeq)]
  {
  }
}
