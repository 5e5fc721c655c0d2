/** Catching up: whatever the networks did before, one whole snapshot cycle delivered in order, or
  * outside recovery the incrementals in order, bring the client level with the exchange.
  */
module CatchUp {
  import opened Types
  import opened Exchange
  import opened Soundness
  import opened Replica
  import opened Consumer
  import opened Replication
  import opened Snapshot

  // ---------- what the engine is handed ----------

  /** The requests traded, in order. */
  function Traded(events: seq<Event>): (rs: seq<Request>)
  {
    if events == [] then []
    else
      var init, e := Traded(events[..|events| - 1]), events[|events| - 1];
      if e.Trading? then init + [e.request] else init
  }

  /** Whatever happens on the networks, books and emitted updates are those of the run of the
    * requests traded.
    */
  lemma {:induction false} EmitsRun(cfg: Config, events: seq<Event>)
    requires cfg.Valid()
    ensures var w, run := Reach(cfg, events), Run(cfg, Traded(events));
            w.books == run.books && w.emitted == run.effects.updates
  {
    hide Process, OnIncremental, OnSnapshot, Absorb, Cycle;
    if events != [] {
      var init, e := events[..|events| - 1], events[|events| - 1];
      EmitsRun(cfg, init);
      if e.Trading? {
        RunAppend(cfg, Traded(init), e.request);
      }
    }
  }

  lemma {:induction false} RunAppend(cfg: Config, rs: seq<Request>, r: Request)
    requires cfg.Valid()
    ensures var before, after := Run(cfg, rs), Run(cfg, rs + [r]);
            var out := Process(cfg, before.books, r);
            after.books == out.books && after.effects.updates == before.effects.updates + out.effects.updates
  {
    hide Process;
    assert (rs + [r])[..|rs|] == rs;
  }

  // ---------- deliveries ----------

  /** The deliveries of snapshot messages `a`, ..., `a + k - 1`. */
  function SnapshotsFrom(a: nat, k: nat): seq<Event> {
    seq(k, i requires 0 <= i < k => DeliverSnapshot(a + i))
  }

  /** The deliveries of incrementals 1, ..., `k`. */
  function IncrementalsTo(k: nat): seq<Event> {
    seq(k, i requires 0 <= i < k => DeliverIncremental(1 + i))
  }

  lemma {:induction false} ReachAppend(cfg: Config, before: seq<Event>, e: Event)
    requires cfg.Valid()
    ensures Reach(cfg, before + [e]) == Next(cfg, Reach(cfg, before), e)
  {
    assert (before + [e])[..|before|] == before;
  }

  lemma {:induction false} SnapshotDelivery(cfg: Config, before: seq<Event>, n: nat)
    requires cfg.Valid() && 1 <= n <= |Reach(cfg, before).snaps|
    ensures var w := Reach(cfg, before);
            Reach(cfg, before + [DeliverSnapshot(n)]) == w.(feed := OnSnapshot(w.feed, n, w.snaps[n - 1]))
  {
    hide Reach, OnSnapshot;
    ReachAppend(cfg, before, DeliverSnapshot(n));
  }

  lemma {:induction false} IncrementalDelivery(cfg: Config, before: seq<Event>, n: nat)
    requires cfg.Valid() && 1 <= n <= Reach(cfg, before).published
    ensures var w, v := Reach(cfg, before), Reach(cfg, before + [DeliverIncremental(n)]);
            v == w.(feed := v.feed) && Handled(w.feed, n, w.emitted[n - 1], v.feed)
  {
    hide Reach, OnIncremental, Handled;
    ReachAppend(cfg, before, DeliverIncremental(n));
    var w := Reach(cfg, before);
    IncrementalHandled(w.feed, n, w.emitted[n - 1]);
  }

  lemma {:induction false} SnapshotsAppend(f: Feed, n: nat, us: seq<MarketUpdate>, u: MarketUpdate)
    ensures Snapshots(f, n, us + [u]) == OnSnapshot(Snapshots(f, n, us), n + |us|, u)
  {
    assert (us + [u])[..|us|] == us;
  }

  /** Delivering snapshot messages only moves the feed, as they come. */
  lemma {:induction false} DeliversSnapshots(cfg: Config, events: seq<Event>, a: nat, k: nat)
    requires cfg.Valid() && 1 <= a && a - 1 + k <= |Reach(cfg, events).snaps|
    ensures var w := Reach(cfg, events);
            Reach(cfg, events + SnapshotsFrom(a, k)) == w.(feed := Snapshots(w.feed, a, w.snaps[a - 1..a - 1 + k]))
  {
    hide OnSnapshot, Reach, Next, Snapshots;
    var w := Reach(cfg, events);
    if k == 0 {
      assert events + SnapshotsFrom(a, 0) == events;
      assert w.snaps[a - 1..a - 1 + k] == [];
      NoSnapshots(w.feed, a);
    } else {
      DeliversSnapshots(cfg, events, a, k - 1);
      var most := events + SnapshotsFrom(a, k - 1);
      SnapshotDelivery(cfg, most, a + k - 1);
      assert events + SnapshotsFrom(a, k) == most + [DeliverSnapshot(a + k - 1)];
      var us := w.snaps[a - 1..a - 1 + (k - 1)];
      SnapshotsAppend(w.feed, a, us, w.snaps[a + k - 2]);
      assert w.snaps[a - 1..a - 1 + k] == us + [w.snaps[a + k - 2]];
    }
  }

  lemma {:induction false} NoSnapshots(f: Feed, n: nat)
    ensures Snapshots(f, n, []) == f
  {
  }

  /** A recovering client that gets one whole cycle in order is back, no earlier than where
    * that cycle's image stops, and has lost nothing it had buffered behind it.
    */
  lemma {:induction false} CycleRecovers(cfg: Config, events: seq<Event>, a: nat, e: nat)
    requires cfg.Valid() && Reach(cfg, events).feed.inRecovery
    requires var snaps := Reach(cfg, events).snaps;
             Opened(snaps, a, e) && e < |snaps| && snaps[e].kind == SnapshotEnd
    ensures var w, v := Reach(cfg, events), Reach(cfg, events + SnapshotsFrom(a + 1, e + 1 - a));
            && v == w.(feed := v.feed)
            && Resumed(w.feed, [w.snaps[a]] + w.snaps[a + 2..e], w.snaps[e].orderId, v.feed)
  {
    hide Reach, Resumed, OnSnapshot;
    var w := Reach(cfg, events);
    var clear, start, adds, end := w.snaps[a], w.snaps[a + 1], w.snaps[a + 2..e], w.snaps[e];
    DeliversSnapshots(cfg, events, a + 1, e + 1 - a);
    assert w.snaps[a..e + 1] == [clear, start] + adds + [end];
    WholeCycle(w.feed, a + 1, clear, start, adds, end);
  }

  /** Outside recovery, incrementals from the first on leave no gap. */
  lemma {:induction false} DeliversIncrementals(cfg: Config, events: seq<Event>, k: nat)
    requires cfg.Valid() && (forall e | e in events :: FairEvent(e))
    requires var w := Reach(cfg, events); !w.feed.inRecovery && k <= w.published
    ensures var w, v := Reach(cfg, events), Reach(cfg, events + IncrementalsTo(k));
            v == w.(feed := v.feed) && !v.feed.inRecovery && k < v.feed.next
  {
    hide Handled, Reach, Next;
    var w := Reach(cfg, events);
    if k == 0 {
      assert events + IncrementalsTo(0) == events;
      NextIsPositive(cfg, events);
    } else {
      DeliversIncrementals(cfg, events, k - 1);
      var most := events + IncrementalsTo(k - 1);
      assert events + IncrementalsTo(k) == most + [DeliverIncremental(k)];
      IncrementalDelivery(cfg, most, k);
      NoGap(Reach(cfg, most).feed, k, w.emitted[k - 1], Reach(cfg, events + IncrementalsTo(k)).feed);
    }
  }

  lemma {:induction false} NoGap(f: Feed, n: nat, u: MarketUpdate, g: Feed)
    requires !f.inRecovery && n <= f.next && Handled(f, n, u, g)
    ensures !g.inRecovery && n < g.next
  {
  }

  lemma {:induction false} NextIsPositive(cfg: Config, events: seq<Event>)
    requires cfg.Valid() && (forall e | e in events :: FairEvent(e)) && !Reach(cfg, events).feed.inRecovery
    ensures 1 <= Reach(cfg, events).feed.next
  {
    ClientExact(cfg, events);
  }

  /** From every reachable state outside recovery, in-order delivery of what was published brings
    * the client up to date: its books are the fold of all of it, and once everything emitted was
    * published, the exchange's own books.
    */
  lemma {:induction false} InOrderCatchesUp(cfg: Config, events: seq<Event>)
    requires cfg.Valid() && (forall e | e in events :: FairEvent(e)) && !Reach(cfg, events).feed.inRecovery
    ensures var w := Reach(cfg, events);
            var v := Reach(cfg, events + IncrementalsTo(w.published));
            && v == w.(feed := v.feed) && !v.feed.inRecovery && v.feed.next == w.published + 1
            && Fold(cfg, v.feed.out) == Fold(cfg, w.emitted[..w.published])
            && (w.published == |w.emitted| ==> Fold(cfg, v.feed.out) == Views(cfg, w.books))
  {
    hide Reach, Fold, Views;
    var k := Reach(cfg, events).published;
    DeliversIncrementals(cfg, events, k);
    ClientExact(cfg, events + IncrementalsTo(k));
  }

  lemma {:induction false} ResumedIsBack(f: Feed, image: seq<MarketUpdate>, last: nat, g: Feed)
    requires Resumed(f, image, last, g)
    ensures !g.inRecovery && last < g.next
  {
  }

  /** What SendSnapshot puts on the wire is one whole cycle. */
  lemma {:induction false} SentWhole(cfg: Config, w: World, sent: World) returns (a: nat, e: nat)
    requires cfg.Valid() && WellFormed(cfg, w) && sent == Next(cfg, w, SendSnapshot)
    ensures a == |w.snaps| && a + 2 <= e == |sent.snaps| - 1
    ensures Opened(sent.snaps, a, e) && e < |sent.snaps| && sent.snaps[e].kind == SnapshotEnd
    ensures sent == w.(snaps := sent.snaps) && sent.snaps[e].orderId == w.synth.lastSeq
  {
    a, e := |w.snaps|, |sent.snaps| - 1;
    var c := Cycle(cfg, w.synth);
    CycleShape(cfg, w.synth, c);
    assert sent.snaps == w.snaps + c;
    forall i | a <= i <= e ensures sent.snaps[i] == c[i - a] {
    }
  }

  // ---------- the exchange's side ----------

  function Repeated(e: Event, k: nat): seq<Event> {
    seq(k, _ => e)
  }

  /** Publishing goes on until everything emitted is numbered. */
  lemma {:induction false} PublishesAll(cfg: Config, events: seq<Event>, k: nat)
    requires cfg.Valid()
    requires var w := Reach(cfg, events); w.published + k <= |w.emitted|
    ensures var w := Reach(cfg, events); Reach(cfg, events + Repeated(Publish, k)) == w.(published := w.published + k)
  {
    hide Reach;
    if k == 0 {
      assert events + Repeated(Publish, 0) == events;
    } else {
      PublishesAll(cfg, events, k - 1);
      var most := events + Repeated(Publish, k - 1);
      assert events + Repeated(Publish, k) == most + [Publish];
      ReachAppend(cfg, most, Publish);
    }
  }

  /** The synthesizer takes in everything numbered, in order. */
  lemma {:induction false} AbsorbsAll(cfg: Config, events: seq<Event>, k: nat)
    requires cfg.Valid()
    requires var w := Reach(cfg, events); w.absorbed + k <= w.published
    ensures var w, v := Reach(cfg, events), Reach(cfg, events + Repeated(AbsorbNext, k));
            v == w.(absorbed := w.absorbed + k, synth := v.synth)
  {
    hide Reach, Absorb;
    if k == 0 {
      assert events + Repeated(AbsorbNext, 0) == events;
    } else {
      AbsorbsAll(cfg, events, k - 1);
      var most := events + Repeated(AbsorbNext, k - 1);
      assert events + Repeated(AbsorbNext, k) == most + [AbsorbNext];
      ReachAppend(cfg, most, AbsorbNext);
    }
  }

  /** Everything emitted is published and absorbed, then one cycle is sent. */
  function Refreshed(w: World): seq<Event>
    requires w.absorbed <= w.published <= |w.emitted|
  {
    Repeated(Publish, |w.emitted| - w.published) + Repeated(AbsorbNext, |w.emitted| - w.absorbed) + [SendSnapshot]
  }

  lemma {:induction false} AbsorbedIs(cfg: Config, w: World)
    requires cfg.Valid() && WellFormed(cfg, w) && WorldOk(cfg, w)
    ensures w.synth.lastSeq == w.absorbed
  {
    hide ValidStream, FeedOk, Faithful, Fold, Views;
    SynthFaithful(cfg, w.emitted, w.published, w.absorbed, w.synth);
  }

  lemma {:induction false} RefreshedIs(cfg: Config, events: seq<Event>) returns (a: nat, e: nat)
    requires cfg.Valid() && forall e | e in events :: FairEvent(e)
    ensures var w, v := Reach(cfg, events), Reach(cfg, events + Refreshed(Reach(cfg, events)));
            && v.books == w.books && v.emitted == w.emitted && v.published == |w.emitted| && v.feed == w.feed
            && a == |w.snaps| && a + 2 <= e == |v.snaps| - 1
            && Opened(v.snaps, a, e) && e < |v.snaps| && v.snaps[e].kind == SnapshotEnd
            && v.snaps[e].orderId == |w.emitted|
  {
    hide Reach, Opened, WorldOk;
    var w := Reach(cfg, events);
    var m, n := |w.emitted| - w.published, |w.emitted| - w.absorbed;
    var one, two := events + Repeated(Publish, m), events + Repeated(Publish, m) + Repeated(AbsorbNext, n);
    PublishesAll(cfg, events, m);
    AbsorbsAll(cfg, one, n);
    ReachAppend(cfg, two, SendSnapshot);
    assert events + Refreshed(w) == two + [SendSnapshot];
    ReachOk(cfg, two);
    AbsorbedIs(cfg, Reach(cfg, two));
    a, e := SentWhole(cfg, Reach(cfg, two), Reach(cfg, two + [SendSnapshot]));
  }

  /** From every reachable state in recovery: once everything emitted is published and absorbed, one
    * cycle delivered in order ends the recovery with the exchange's own books, without a single
    * incremental being sent again.
    */
  lemma {:induction false} CycleCatchesUp(cfg: Config, events: seq<Event>)
    requires cfg.Valid() && (forall e | e in events :: FairEvent(e)) && Reach(cfg, events).feed.inRecovery
    ensures var w := Reach(cfg, events);
            var sent := Reach(cfg, events + Refreshed(w));
            && |w.snaps| <= |sent.snaps|
            && var v := Reach(cfg, events + Refreshed(w) + SnapshotsFrom(|w.snaps| + 1, |sent.snaps| - |w.snaps|));
               && !v.feed.inRecovery && v.feed.next == |w.emitted| + 1
               && v.books == w.books && Fold(cfg, v.feed.out) == Views(cfg, w.books)
  {
    hide Reach, Fold, Views, Opened, Resumed, Refreshed;
    var w := Reach(cfg, events);
    var a, e := RefreshedIs(cfg, events);
    var most := events + Refreshed(w);
    var sent := Reach(cfg, most);
    CycleRecovers(cfg, most, a, e);
    var all := most + SnapshotsFrom(a + 1, e + 1 - a);
    ResumedIsBack(sent.feed, [sent.snaps[a]] + sent.snaps[a + 2..e], sent.snaps[e].orderId, Reach(cfg, all).feed);
    RefreshedFair(w);
    ClientExact(cfg, all);
  }

  lemma {:induction false} RefreshedFair(w: World)
    requires w.absorbed <= w.published <= |w.emitted|
    ensures forall e | e in Refreshed(w) :: FairEvent(e)
  {
  }
}
