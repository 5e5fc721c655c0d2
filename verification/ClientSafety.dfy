/** What the client's books may rely on: whatever the two networks do to the market
  * data, no update the consumer forwards, in recovery or out of it, can corrupt a
  * book or be dropped by it.
  */
module ClientSafety {
  import opened Types
  import opened PriceTime
  import opened Exchange
  import opened Soundness
  import opened Replica
  import opened Snapshot
  import opened Consumer
  import opened Replication
  import MarketBooks

  /** An in-range ADD is younger than its book and meets no alias or opposite-side level; an
    * in-range MODIFY or CANCEL is about an order of its book.
    */
  ghost predicate Lawful(cfg: Config, books: seq<Book>, u: MarketUpdate)
    requires cfg.Valid() && |books| == cfg.tickers
  {
    u.ticker < cfg.tickers && u.orderId < cfg.orderIds ==>
      && (u.kind == Add ==> WellPlaced(cfg, books[u.ticker], u))
      && (u.kind == Modify || u.kind == Cancel ==> Refers(books[u.ticker], u))
  }

  /** Every update of a forwarded stream, markers included, finds its book ready for it. */
  ghost predicate Lands(cfg: Config, us: seq<MarketUpdate>)
    requires cfg.Valid()
  {
    forall i | 0 <= i < |us| :: Lawful(cfg, Fold(cfg, us[..i]), us[i])
  }

  lemma {:induction false} LandsAppend(cfg: Config, us: seq<MarketUpdate>, u: MarketUpdate)
    requires cfg.Valid() && Lands(cfg, us) && Lawful(cfg, Fold(cfg, us), u)
    ensures Lands(cfg, us + [u])
  {
    hide Lawful, Fold;
    var all := us + [u];
    forall i | 0 <= i < |all| ensures Lawful(cfg, Fold(cfg, all[..i]), all[i]) {
      if i < |us| {
        assert all[..i] == us[..i];
      } else {
        assert all[..i] == us;
      }
    }
  }

  /** The next incremental is lawful for books that are the fold of those before it. */
  lemma {:induction false} NextLawful(cfg: Config, published: seq<MarketUpdate>, out: seq<MarketUpdate>, n: nat)
    requires cfg.Valid() && ValidStream(cfg, published) && 1 <= n <= |published|
    requires CaughtUpTo(cfg, published, out, n)
    ensures Lawful(cfg, Fold(cfg, out), published[n - 1])
  {
    hide DispatchAll;
    assert Admissible(cfg, DispatchAll(cfg, EmptyBooks(cfg), published[..n - 1]), published[n - 1]);
  }

  lemma {:induction false} DrainLands(cfg: Config, published: seq<MarketUpdate>, f: Feed)
    requires cfg.Valid() && ValidStream(cfg, published) && Genuine(published, f.buf)
    requires CaughtUpTo(cfg, published, f.out, f.next) && Lands(cfg, f.out)
    ensures Lands(cfg, Drain(f).out)
    decreases |f.buf|
  {
    hide Fold, ValidFrom, Lands;
    if First(f.buf, f.next) {
      NextLawful(cfg, published, f.out, f.next);
      LandsAppend(cfg, f.out, f.buf[f.next]);
      CaughtUpStep(cfg, published, f.out, f.next);
      DrainLands(cfg, published, f.(next := f.next + 1, buf := f.buf - {f.next}, out := f.out + [f.buf[f.next]]));
    }
  }

  lemma {:induction false} IncrementalLands(cfg: Config, published: seq<MarketUpdate>, snaps: seq<MarketUpdate>,
          f: Feed, n: nat)
    requires cfg.Valid() && ValidStream(cfg, published) && FeedOk(cfg, published, snaps, f) && 1 <= n <= |published|
    requires Lands(cfg, f.out)
    ensures Lands(cfg, OnIncremental(f, n, published[n - 1]).out)
  {
    hide Fold, ValidFrom, Lands;
    if !f.inRecovery && n == f.next {
      NextLawful(cfg, published, f.out, n);
      LandsAppend(cfg, f.out, published[n - 1]);
      CaughtUpStep(cfg, published, f.out, n);
      DrainLands(cfg, published, f.(next := f.next + 1, out := f.out + [published[n - 1]]));
    }
  }

  // ---------- the snapshot stream ----------

  /** Whatever looks like the beginning of a cycle is a clean stream from its first ADD on. */
  ghost predicate CleanOpenings(cfg: Config, snaps: seq<MarketUpdate>)
    requires cfg.Valid()
  {
    forall a: nat, e: nat | Opened(snaps, a, e) :: ValidStream(cfg, snaps[a + 2..e])
  }

  /** An opening that reaches into the last cycle is an opening of that cycle. */
  lemma {:induction false} OpeningInLast(snaps: seq<MarketUpdate>, c: seq<MarketUpdate>, a: nat, e: nat)
    requires |c| >= 3 && c[0].kind == Clear && c[1].kind == SnapshotStart && c[|c| - 1].kind == SnapshotEnd
    requires forall i | 2 <= i < |c| - 1 :: c[i].kind == Add
    requires snaps == [] || snaps[|snaps| - 1].kind == SnapshotEnd
    requires Opened(snaps + c, a, e) && e > |snaps|
    ensures a == |snaps| && e < |snaps| + |c|
  {
    var all := snaps + c;
    assert all[|snaps|] == c[0] && all[|snaps| + |c| - 1] == c[|c| - 1];
    assert snaps != [] ==> all[|snaps| - 1] == snaps[|snaps| - 1];
    assert a >= |snaps|;
    assert all[a] == c[a - |snaps|];
  }

  lemma {:induction false} CycleClean(cfg: Config, snaps: seq<MarketUpdate>, s: Synth)
    requires cfg.Valid() && |s.orders| == cfg.tickers && CleanOpenings(cfg, snaps)
    requires snaps == [] || snaps[|snaps| - 1].kind == SnapshotEnd
    requires ValidStream(cfg, AllAdds(cfg.orderIds, s.orders, cfg.tickers))
    ensures CleanOpenings(cfg, snaps + Cycle(cfg, s))
  {
    hide ValidStream, AllAdds;
    var c := Cycle(cfg, s);
    var all, adds := snaps + c, AllAdds(cfg.orderIds, s.orders, cfg.tickers);
    CycleShape(cfg, s, c);
    hide Cycle;
    forall a: nat, e: nat | Opened(all, a, e) ensures ValidStream(cfg, all[a + 2..e]) {
      if e <= |snaps| {
        assert forall i | 0 <= i < e :: all[i] == snaps[i];
        assert Opened(snaps, a, e) && all[a + 2..e] == snaps[a + 2..e];
      } else {
        OpeningInLast(snaps, c, a, e);
        var k := e - a - 2;
        assert all[a + 2..e] == c[2..|c| - 1][..k];
        ValidPrefix(cfg, adds, k);
      }
    }
  }

  /** The next ADD of the cycle being reassembled is lawful for what was forwarded of it. */
  lemma {:induction false} AddLawful(cfg: Config, snaps: seq<MarketUpdate>, f: Feed, a: nat, n: nat)
    requires cfg.Valid() && CleanOpenings(cfg, snaps) && Reassembling(snaps, f, a)
    requires n == f.lastSeen + 1 && n <= |snaps| && snaps[n - 1].kind == Add
    requires snaps[a] == Marker(Clear, INVALID_64)
    ensures Lawful(cfg, Fold(cfg, f.out), snaps[n - 1])
  {
    hide DispatchAll;
    var before :| f.out == before + [snaps[a]] + snaps[a + 2..f.lastSeen];
    FoldAfterClear(cfg, before, snaps[a], snaps[a + 2..f.lastSeen]);
    assert Opened(snaps, a, n);
    var us := snaps[a + 2..n];
    assert us[..|us| - 1] == snaps[a + 2..f.lastSeen] && us[|us| - 1] == snaps[n - 1];
    assert Admissible(cfg, DispatchAll(cfg, EmptyBooks(cfg), us[..|us| - 1]), us[|us| - 1]);
  }

  lemma {:induction false} SnapshotLands(cfg: Config, published: seq<MarketUpdate>, snaps: seq<MarketUpdate>,
          f: Feed, n: nat)
    requires cfg.Valid() && ValidStream(cfg, published) && FeedOk(cfg, published, snaps, f)
    requires Faithful(cfg, published, snaps) && CleanOpenings(cfg, snaps) && 1 <= n <= |snaps| && Lands(cfg, f.out)
    ensures Lands(cfg, OnSnapshot(f, n, snaps[n - 1]).out)
  {
    hide Fold, ValidStream, Lands, CleanOpenings, Rebuilds;
    var u := snaps[n - 1];
    if f.inRecovery && u.kind == Clear {
      LandsAppend(cfg, f.out, u);
    } else if f.inRecovery && f.inSnapshot && n == f.lastSeen + 1 {
      var a: nat :| Reassembling(snaps, f, a);
      if u.kind == Add {
        AddLawful(cfg, snaps, f, a, n);
        LandsAppend(cfg, f.out, u);
      } else if u.kind == SnapshotEnd {
        var g := f.(lastSeen := n);
        FinishOk(cfg, published, snaps, g, a, n - 1);
        var h := g.(next := u.orderId + 1);
        DrainLands(cfg, published, h.(buf := Since(h.buf, h.next)));
      }
    }
  }

  // ---------- every reachable state ----------

  ghost predicate Safe(cfg: Config, w: World)
    requires cfg.Valid()
  {
    Lands(cfg, w.feed.out) && CleanOpenings(cfg, w.snaps)
  }

  lemma {:induction false} SafeStep(cfg: Config, w: World, e: Event)
    requires cfg.Valid() && WellFormed(cfg, w) && WorldOk(cfg, w) && Safe(cfg, w)
    ensures Safe(cfg, Next(cfg, w, e))
  {
    hide FeedOk, Faithful, Lands, CleanOpenings, ValidStream, EngineSound, Fold, Views, Process, Rebuilds, Cycle,
         AbsorbAll;
    var published := w.emitted[..w.published];
    ValidPrefix(cfg, w.emitted, w.published);
    match e
    case Trading(r) =>
    case Publish =>
    case AbsorbNext =>
    case SendSnapshot =>
      SynthFaithful(cfg, w.emitted, w.published, w.absorbed, w.synth);
      RebuildsClean(cfg, AllAdds(cfg.orderIds, w.synth.orders, cfg.tickers), Fold(cfg, published[..w.absorbed]));
      CycleClean(cfg, w.snaps, w.synth);
    case DeliverIncremental(n) =>
      if 1 <= n <= w.published {
        IncrementalLands(cfg, published, w.snaps, w.feed, n);
      }
    case DeliverSnapshot(n) =>
      if 1 <= n <= |w.snaps| {
        SnapshotLands(cfg, published, w.snaps, w.feed, n);
      }
  }

  lemma {:induction false} RebuildsClean(cfg: Config, us: seq<MarketUpdate>, books: seq<Book>)
    requires cfg.Valid() && Rebuilds(cfg, us, books)
    ensures ValidStream(cfg, us)
  {
  }

  lemma {:induction false} ReachSafe(cfg: Config, events: seq<Event>)
    requires cfg.Valid() && forall e | e in events :: FairEvent(e)
    ensures Safe(cfg, Reach(cfg, events))
  {
    hide WorldOk, Next;
    if events == [] {
      hide *;
      StartSafe(cfg);
    } else {
      ReachSafe(cfg, events[..|events| - 1]);
      ReachOk(cfg, events[..|events| - 1]);
      SafeStep(cfg, Reach(cfg, events[..|events| - 1]), events[|events| - 1]);
    }
  }

  lemma {:induction false} StartSafe(cfg: Config)
    requires cfg.Valid()
    ensures Reach(cfg, []) == Start(cfg) && Safe(cfg, Start(cfg))
  {
  }

  /** Every update forwarded downstream meets the demands of the client's book for its
    * ticker, and every in-range ADD takes effect: it is queued, never dropped.
    */
  lemma {:induction false} ForwardedIsLandable(cfg: Config, events: seq<Event>, i: nat)
    requires cfg.Valid() && forall e | e in events :: FairEvent(e)
    requires i < |Reach(cfg, events).feed.out|
    requires var u := Reach(cfg, events).feed.out[i];
             u.kind == Add && u.ticker < cfg.tickers && u.orderId < cfg.orderIds
    ensures var out := Reach(cfg, events).feed.out;
            var b := Fold(cfg, out[..i])[out[i].ticker];
            && MarketBooks.Landable(cfg, b, out[i])
            && Apply(cfg, b, out[i]) == Rested(b, ToOrder(out[i]))
  {
    hide Fold, Next;
    ReachSafe(cfg, events);
    var out := Reach(cfg, events).feed.out;
    assert Lawful(cfg, Fold(cfg, out[..i]), out[i]);
  }

  /** Every forwarded in-range MODIFY and CANCEL finds its order in the client's book, with the
    * side, price and priority it states; a MODIFY lowers the quantity, a CANCEL states it.
    */
  lemma {:induction false} ForwardedRefers(cfg: Config, events: seq<Event>, i: nat) returns (o: Order)
    requires cfg.Valid() && forall e | e in events :: FairEvent(e)
    requires i < |Reach(cfg, events).feed.out|
    requires var u := Reach(cfg, events).feed.out[i];
             (u.kind == Modify || u.kind == Cancel) && u.ticker < cfg.tickers && u.orderId < cfg.orderIds
    ensures var out := Reach(cfg, events).feed.out;
            Fold(cfg, out[..i])[out[i].ticker].Has(o) && Describes(out[i], o)
  {
    hide Fold, Next, Describes;
    ReachSafe(cfg, events);
    var out := Reach(cfg, events).feed.out;
    assert Lawful(cfg, Fold(cfg, out[..i]), out[i]);
    o :| Fold(cfg, out[..i])[out[i].ticker].Has(o) && Describes(out[i], o);
  }
}
