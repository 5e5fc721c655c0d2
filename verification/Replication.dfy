/** The whole market-data path as a step machine: the engine emits updates, the
  * publisher numbers them, the synthesizer absorbs them and sends snapshot
  * cycles, and two multicast networks lose, duplicate and reorder at will.
  */
module Replication {
  import opened Types
  import opened Exchange
  import opened Soundness
  import opened Replica
  import opened Snapshot
  import opened Consumer

  /** `emitted` is everything the engine sent; its first `published` entries carry
    * the sequence numbers 1.. on the incremental stream, and the first `absorbed`
    * of those have reached the synthesizer. `snaps` is everything sent on the
    * snapshot stream, numbered from 1.
    */
  datatype World = World(books: seq<XBook>, emitted: seq<MarketUpdate>, published: nat, absorbed: nat,
                         synth: Synth, snaps: seq<MarketUpdate>, feed: Feed)

  /** A delivery may name any message sent so far, any number of times, in any order. */
  datatype Event =
    | Trading(request: Request)
    | Publish
    | AbsorbNext
    | SendSnapshot
    | DeliverIncremental(n: nat)
    | DeliverSnapshot(n: nat)

  function Start(cfg: Config): World {
    World(FreshEngine(cfg), [], 0, 0, EmptySynth(cfg), [], FRESH_FEED)
  }

  predicate WellFormed(cfg: Config, w: World) {
    && |w.books| == cfg.tickers
    && |w.synth.orders| == cfg.tickers
    && w.absorbed <= w.published <= |w.emitted|
  }

  function Next(cfg: Config, w: World, e: Event): (r: World)
    requires cfg.Valid() && WellFormed(cfg, w)
    ensures WellFormed(cfg, r)
  {
    match e
    case Trading(request) =>
      var out := Process(cfg, w.books, request);
      w.(books := out.books, emitted := w.emitted + out.effects.updates)
    case Publish =>
      if w.published == |w.emitted| then w else w.(published := w.published + 1)
    case AbsorbNext =>
      if w.absorbed == w.published then w
      else w.(absorbed := w.absorbed + 1,
              synth := Absorb(cfg, w.synth, w.absorbed + 1, w.emitted[w.absorbed]))
    case SendSnapshot =>
      w.(snaps := w.snaps + Cycle(cfg, w.synth))
    case DeliverIncremental(n) =>
      if 1 <= n <= w.published then w.(feed := OnIncremental(w.feed, n, w.emitted[n - 1])) else w
    case DeliverSnapshot(n) =>
      if 1 <= n <= |w.snaps| then w.(feed := OnSnapshot(w.feed, n, w.snaps[n - 1])) else w
  }

  function Reach(cfg: Config, events: seq<Event>): (w: World)
    requires cfg.Valid()
    ensures WellFormed(cfg, w)
  {
    if events == [] then Start(cfg)
    else Next(cfg, Reach(cfg, events[..|events| - 1]), events[|events| - 1])
  }

  // ---------- the snapshot stream ----------

  /** A CLEAR at `a`, a START next to it, and nothing but ADDs up to `e`. */
  ghost predicate Opened(snaps: seq<MarketUpdate>, a: nat, e: nat) {
    && a + 2 <= e <= |snaps|
    && snaps[a].kind == Clear && snaps[a + 1].kind == SnapshotStart
    && (forall i | a + 2 <= i < e :: snaps[i].kind == Add)
  }

  /** Any run of consecutive messages that looks like a cycle is one complete cycle:
    * its ADDs rebuild the fold of the incrementals up to the number its END carries.
    */
  ghost predicate Faithful(cfg: Config, published: seq<MarketUpdate>, snaps: seq<MarketUpdate>)
    requires cfg.Valid()
  {
    && (forall i | 0 <= i < |snaps| && snaps[i].kind == Clear :: snaps[i] == Marker(Clear, INVALID_64))
    && (forall a: nat, e: nat | Opened(snaps, a, e) && e < |snaps| && snaps[e].kind == SnapshotEnd ::
          && snaps[e].orderId <= |published|
          && Rebuilds(cfg, snaps[a + 2..e], Fold(cfg, published[..snaps[e].orderId])))
  }

  /** A cycle's markers sit where they should, and nowhere else. */
  lemma {:induction false} CycleShape(cfg: Config, s: Synth, c: seq<MarketUpdate>)
    requires |s.orders| == cfg.tickers && c == Cycle(cfg, s)
    ensures |c| >= 3
    ensures c[0] == Marker(Clear, INVALID_64) && c[1].kind == SnapshotStart
    ensures c[|c| - 1] == Marker(SnapshotEnd, s.lastSeq)
    ensures c[2..|c| - 1] == AllAdds(cfg.orderIds, s.orders, cfg.tickers)
    ensures forall i | 2 <= i < |c| - 1 :: c[i].kind == Add
    ensures c[|c| - 1].kind == SnapshotEnd && c[|c| - 1].orderId == s.lastSeq && c[0].kind == Clear
    ensures Unaddressed(c[0]) && Unaddressed(c[1]) && Unaddressed(c[|c| - 1])
  {
    var adds := AllAdds(cfg.orderIds, s.orders, cfg.tickers);
    AddsAreAdds(cfg.orderIds, s.orders, cfg.tickers);
    assert forall i | 2 <= i < |c| - 1 :: c[i] == adds[i - 2] && adds[i - 2] in adds;
  }

  /** Cycles do not overlap: an opening ends inside the cycle that began it. */
  lemma {:induction false} OpenedInside(snaps: seq<MarketUpdate>, c: seq<MarketUpdate>, a: nat, e: nat)
    requires |c| >= 3 && c[0].kind == Clear && c[1].kind == SnapshotStart && c[|c| - 1].kind == SnapshotEnd
    requires forall i | 2 <= i < |c| - 1 :: c[i].kind == Add
    requires snaps == [] || snaps[|snaps| - 1].kind == SnapshotEnd
    requires Opened(snaps + c, a, e) && e < |snaps + c| && (snaps + c)[e].kind == SnapshotEnd
    ensures e < |snaps| || (a == |snaps| && e == |snaps| + |c| - 1)
  {
    var all := snaps + c;
    if e >= |snaps| {
      assert all[|snaps|] == c[0];
      assert snaps != [] ==> all[|snaps| - 1] == snaps[|snaps| - 1];
      assert a >= |snaps|;
      assert all[a] == c[a - |snaps|] && all[e] == c[e - |snaps|];
    }
  }

  /** Sending a cycle keeps the stream faithful. */
  lemma {:induction false} CycleFaithful(cfg: Config, published: seq<MarketUpdate>, snaps: seq<MarketUpdate>, s: Synth)
    requires cfg.Valid() && Faithful(cfg, published, snaps) && |s.orders| == cfg.tickers
    requires snaps == [] || snaps[|snaps| - 1].kind == SnapshotEnd
    requires s.lastSeq <= |published|
    requires Rebuilds(cfg, AllAdds(cfg.orderIds, s.orders, cfg.tickers), Fold(cfg, published[..s.lastSeq]))
    ensures Faithful(cfg, published, snaps + Cycle(cfg, s))
  {
    hide Rebuilds, Fold, AllAdds;
    var c := Cycle(cfg, s);
    var all := snaps + c;
    CycleShape(cfg, s, c);
    hide Cycle;
    forall i | 0 <= i < |all| && all[i].kind == Clear ensures all[i] == Marker(Clear, INVALID_64) {
      assert all[i] == if i < |snaps| then snaps[i] else c[i - |snaps|];
    }
    forall a: nat, e: nat | Opened(all, a, e) && e < |all| && all[e].kind == SnapshotEnd
      ensures all[e].orderId <= |published|
      ensures Rebuilds(cfg, all[a + 2..e], Fold(cfg, published[..all[e].orderId]))
    {
      OpenedInside(snaps, c, a, e);
      if e < |snaps| {
        assert forall i | 0 <= i <= e :: all[i] == snaps[i];
        assert Opened(snaps, a, e);
        assert all[a + 2..e] == snaps[a + 2..e];
      } else {
        assert all[a + 2..e] == c[2..|c| - 1];
      }
    }
  }

  /** Later publications do not change what earlier snapshots stand for. */
  lemma {:induction false} FaithfulGrows(cfg: Config, published: seq<MarketUpdate>, more: seq<MarketUpdate>,
          snaps: seq<MarketUpdate>)
    requires cfg.Valid() && Faithful(cfg, published, snaps) && published <= more
    ensures Faithful(cfg, more, snaps)
  {
    forall a: nat, e: nat | Opened(snaps, a, e) && e < |snaps| && snaps[e].kind == SnapshotEnd
      ensures snaps[e].orderId <= |more|
      ensures Rebuilds(cfg, snaps[a + 2..e], Fold(cfg, more[..snaps[e].orderId]))
    {
      assert more[..snaps[e].orderId] == published[..snaps[e].orderId];
    }
  }

  // ---------- the consumer ----------

  /** The buffer holds genuine incrementals. */
  ghost predicate Genuine(published: seq<MarketUpdate>, buf: Buffer) {
    forall k | k in buf :: 1 <= k <= |published| && buf[k] == published[k - 1]
  }

  /** The client's books are exactly the fold of incrementals 1..next-1. */
  ghost predicate CaughtUpTo(cfg: Config, published: seq<MarketUpdate>, out: seq<MarketUpdate>, next: nat)
    requires cfg.Valid()
  {
    1 <= next && next - 1 <= |published| && Fold(cfg, out) == Fold(cfg, published[..next - 1])
  }

  /** What was forwarded since the last downstream CLEAR is the opening of one cycle, from its first ADD on. */
  ghost predicate Reassembling(snaps: seq<MarketUpdate>, f: Feed, a: nat) {
    && Opened(snaps, a, f.lastSeen)
    && exists before :: f.out == before + [snaps[a]] + snaps[a + 2..f.lastSeen]
  }

  ghost predicate FeedOk(cfg: Config, published: seq<MarketUpdate>, snaps: seq<MarketUpdate>, f: Feed)
    requires cfg.Valid()
  {
    && Genuine(published, f.buf)
    && (!f.inRecovery ==>
          && CaughtUpTo(cfg, published, f.out, f.next)
          && (forall k | k in f.buf :: f.next < k)
          && !f.armed && !f.inSnapshot)
    && (f.armed ==>
          && !f.inSnapshot
          && 1 <= f.lastSeen <= |snaps| && snaps[f.lastSeen - 1].kind == Clear
          && f.out != [] && f.out[|f.out| - 1] == snaps[f.lastSeen - 1])
    && (f.inSnapshot ==> exists a: nat :: Reassembling(snaps, f, a))
  }

  /** Publishing the expected incremental moves the books one step along the fold. */
  lemma {:induction false} CaughtUpStep(cfg: Config, published: seq<MarketUpdate>, out: seq<MarketUpdate>, next: nat)
    requires cfg.Valid() && CaughtUpTo(cfg, published, out, next) && next <= |published|
    ensures CaughtUpTo(cfg, published, out + [published[next - 1]], next + 1)
  {
    var u := published[next - 1];
    assert (out + [u])[..|out|] == out;
    assert published[..next][..next - 1] == published[..next - 1];
  }

  /** Draining keeps the books on the fold and leaves only the future buffered. */
  lemma {:induction false} DrainOk(cfg: Config, published: seq<MarketUpdate>, f: Feed)
    requires cfg.Valid() && Genuine(published, f.buf) && CaughtUpTo(cfg, published, f.out, f.next)
    requires forall k | k in f.buf :: f.next <= k
    ensures var g := Drain(f);
            && Genuine(published, g.buf) && CaughtUpTo(cfg, published, g.out, g.next)
            && (forall k | k in g.buf :: g.next < k)
            && f.next <= g.next
            && g == f.(next := g.next, buf := g.buf, out := g.out)
    decreases |f.buf|
  {
    if First(f.buf, f.next) {
      CaughtUpStep(cfg, published, f.out, f.next);
      DrainOk(cfg, published, f.(next := f.next + 1, buf := f.buf - {f.next}, out := f.out + [f.buf[f.next]]));
    } else {
      assert forall k | k in f.buf :: f.next != k;
    }
  }

  lemma {:induction false} IncrementalOk(cfg: Config, published: seq<MarketUpdate>, snaps: seq<MarketUpdate>,
          f: Feed, n: nat)
    requires cfg.Valid() && FeedOk(cfg, published, snaps, f) && 1 <= n <= |published|
    ensures FeedOk(cfg, published, snaps, OnIncremental(f, n, published[n - 1]))
  {
    var u := published[n - 1];
    var g := OnIncremental(f, n, u);
    if f.inRecovery {
      assert forall a: nat | Reassembling(snaps, f, a) :: Reassembling(snaps, g, a);
    } else if n == f.next {
      CaughtUpStep(cfg, published, f.out, n);
      DrainOk(cfg, published, f.(next := f.next + 1, out := f.out + [u]));
    }
  }

  /** A wipe followed by ADDs: only the ADDs matter. */
  lemma {:induction false} FoldAfterClear(cfg: Config, before: seq<MarketUpdate>, clear: MarketUpdate,
          adds: seq<MarketUpdate>)
    requires cfg.Valid() && clear == Marker(Clear, INVALID_64)
    ensures Fold(cfg, before + [clear] + adds) == Fold(cfg, adds)
  {
    var wiped := before + [clear];
    assert wiped[..|before|] == before;
    assert DispatchAll(cfg, EmptyBooks(cfg), wiped) == EmptyBooks(cfg);
    DispatchConcat(cfg, EmptyBooks(cfg), wiped, adds);
  }

  /** The END of a contiguous cycle: the image just forwarded is the fold of
    * incrementals 1..last, and the buffer then brings the books up to date.
    */
  lemma {:induction false} FinishOk(cfg: Config, published: seq<MarketUpdate>, snaps: seq<MarketUpdate>, f: Feed,
          a: nat, e: nat)
    requires cfg.Valid() && Genuine(published, f.buf) && Faithful(cfg, published, snaps)
    requires Opened(snaps, a, e) && e < |snaps| && snaps[e].kind == SnapshotEnd
    requires exists before :: f.out == before + [snaps[a]] + snaps[a + 2..e]
    ensures var last := snaps[e].orderId;
            && CaughtUpTo(cfg, published, f.out, last + 1)
            && FeedOk(cfg, published, snaps, FinishRecovery(f, last))
  {
    var last := snaps[e].orderId;
    var before :| f.out == before + [snaps[a]] + snaps[a + 2..e];
    FoldAfterClear(cfg, before, snaps[a], snaps[a + 2..e]);
    assert Rebuilds(cfg, snaps[a + 2..e], Fold(cfg, published[..last]));
    var g := f.(next := last + 1);
    DrainOk(cfg, published, g.(buf := Since(g.buf, g.next)));
  }

  /** An ADD that follows the last accepted message extends the same cycle. */
  lemma {:induction false} ReassembleAdd(snaps: seq<MarketUpdate>, f: Feed, a: nat, n: nat)
    requires Reassembling(snaps, f, a) && n == f.lastSeen + 1 && n <= |snaps| && snaps[n - 1].kind == Add
    ensures Reassembling(snaps, f.(lastSeen := n, out := f.out + [snaps[n - 1]]), a)
  {
    var before :| f.out == before + [snaps[a]] + snaps[a + 2..f.lastSeen];
    assert snaps[a + 2..n] == snaps[a + 2..f.lastSeen] + [snaps[n - 1]];
    assert f.out + [snaps[n - 1]] == before + [snaps[a]] + snaps[a + 2..n];
  }

  lemma {:induction false} ReassembleStart(snaps: seq<MarketUpdate>, f: Feed, n: nat)
    requires 2 <= n <= |snaps| && snaps[n - 2].kind == Clear && snaps[n - 1].kind == SnapshotStart
    requires f.lastSeen == n && f.out != [] && f.out[|f.out| - 1] == snaps[n - 2]
    ensures Reassembling(snaps, f, n - 2)
  {
    assert f.out == f.out[..|f.out| - 1] + [snaps[n - 2]] + snaps[n..n];
  }

  lemma {:induction false} SnapshotOk(cfg: Config, published: seq<MarketUpdate>, snaps: seq<MarketUpdate>, f: Feed,
          n: nat)
    requires cfg.Valid() && FeedOk(cfg, published, snaps, f) && Faithful(cfg, published, snaps) && 1 <= n <= |snaps|
    ensures FeedOk(cfg, published, snaps, OnSnapshot(f, n, snaps[n - 1]))
  {
    hide Faithful, Fold;
    var u := snaps[n - 1];
    if f.inRecovery && u.kind == SnapshotStart && f.armed && n == f.lastSeen + 1 {
      ReassembleStart(snaps, OnSnapshot(f, n, u), n);
    } else if f.inRecovery && f.inSnapshot {
      var a: nat :| Reassembling(snaps, f, a);
      if u.kind == Add && n == f.lastSeen + 1 {
        ReassembleAdd(snaps, f, a, n);
      } else if u.kind == SnapshotEnd && n == f.lastSeen + 1 {
        FinishOk(cfg, published, snaps, f.(lastSeen := n), a, n - 1);
      }
    }
  }

  // ---------- every reachable state ----------

  ghost predicate WorldOk(cfg: Config, w: World)
    requires cfg.Valid() && WellFormed(cfg, w)
  {
    && EngineSound(cfg, w.books)
    && ValidStream(cfg, w.emitted) && Fold(cfg, w.emitted) == Views(cfg, w.books)
    && w.synth == AbsorbAll(cfg, w.emitted[..w.absorbed])
    && (w.snaps == [] || w.snaps[|w.snaps| - 1].kind == SnapshotEnd)
    && Faithful(cfg, w.emitted[..w.published], w.snaps)
    && FeedOk(cfg, w.emitted[..w.published], w.snaps, w.feed)
  }

  predicate FairEvent(e: Event) {
    e.Trading? ==> Sided(e.request)
  }

  lemma {:induction false} FeedGrows(cfg: Config, published: seq<MarketUpdate>, more: seq<MarketUpdate>,
                  snaps: seq<MarketUpdate>, moreSnaps: seq<MarketUpdate>, f: Feed)
    requires cfg.Valid() && FeedOk(cfg, published, snaps, f) && published <= more && snaps <= moreSnaps
    ensures FeedOk(cfg, more, moreSnaps, f)
  {
    if !f.inRecovery {
      assert more[..f.next - 1] == published[..f.next - 1];
    }
    forall a: nat | Reassembling(snaps, f, a) ensures Reassembling(moreSnaps, f, a) {
      assert moreSnaps[a + 2..f.lastSeen] == snaps[a + 2..f.lastSeen];
      assert moreSnaps[a] == snaps[a];
    }
  }

  lemma {:induction false} TradingOk(cfg: Config, w: World, r: Request)
    requires cfg.Valid() && WellFormed(cfg, w) && WorldOk(cfg, w) && Sided(r)
    ensures WorldOk(cfg, Next(cfg, w, Trading(r)))
  {
    hide Faithful, FeedOk, EngineSound, Process, ValidFrom, DispatchAll, Views;
    var out := Process(cfg, w.books, r);
    ProcessKeepsSound(cfg, w.books, r);
    ProcessCarries(cfg, w.books, r);
    DispatchConcat(cfg, EmptyBooks(cfg), w.emitted, out.effects.updates);
    ValidConcat(cfg, EmptyBooks(cfg), w.emitted, out.effects.updates);
    var all := w.emitted + out.effects.updates;
    assert all[..w.published] == w.emitted[..w.published] && all[..w.absorbed] == w.emitted[..w.absorbed];
  }

  /** What the synthesizer sends stands for the incrementals it has absorbed. */
  lemma {:induction false} SynthFaithful(cfg: Config, emitted: seq<MarketUpdate>, published: nat, absorbed: nat,
          synth: Synth)
    requires cfg.Valid() && ValidStream(cfg, emitted) && absorbed <= published <= |emitted|
    requires synth == AbsorbAll(cfg, emitted[..absorbed])
    ensures synth.lastSeq == absorbed
    ensures Rebuilds(cfg, AllAdds(cfg.orderIds, synth.orders, cfg.tickers),
                     Fold(cfg, emitted[..published][..absorbed]))
  {
    assert emitted[..published][..absorbed] == emitted[..absorbed];
    ValidPrefix(cfg, emitted, absorbed);
    SynthMirrors(cfg, emitted[..absorbed]);
    ImageRebuilds(cfg, emitted[..absorbed]);
  }

  lemma {:induction false} SendOk(cfg: Config, w: World)
    requires cfg.Valid() && WellFormed(cfg, w) && WorldOk(cfg, w)
    ensures WorldOk(cfg, Next(cfg, w, SendSnapshot))
  {
    hide FeedOk, EngineSound, Views, Faithful, ValidFrom, DispatchAll, AbsorbAll, Rebuilds, Fold;
    var published := w.emitted[..w.published];
    SynthFaithful(cfg, w.emitted, w.published, w.absorbed, w.synth);
    CycleShape(cfg, w.synth, Cycle(cfg, w.synth));
    CycleFaithful(cfg, published, w.snaps, w.synth);
    FeedGrows(cfg, published, published, w.snaps, w.snaps + Cycle(cfg, w.synth), w.feed);
  }

  lemma {:induction false} NextOk(cfg: Config, w: World, e: Event)
    requires cfg.Valid() && WellFormed(cfg, w) && WorldOk(cfg, w) && FairEvent(e)
    ensures WorldOk(cfg, Next(cfg, w, e))
  {
    hide Faithful, FeedOk, EngineSound, ValidFrom, DispatchAll, Views;
    var published := w.emitted[..w.published];
    match e
    case Trading(r) => TradingOk(cfg, w, r);
    case Publish =>
      if w.published < |w.emitted| {
        var more := w.emitted[..w.published + 1];
        FaithfulGrows(cfg, published, more, w.snaps);
        FeedGrows(cfg, published, more, w.snaps, w.snaps, w.feed);
      }
    case AbsorbNext =>
      if w.absorbed < w.published {
        assert w.emitted[..w.absorbed + 1][..w.absorbed] == w.emitted[..w.absorbed];
      }
    case SendSnapshot => SendOk(cfg, w);
    case DeliverIncremental(n) =>
      if 1 <= n <= w.published {
        IncrementalOk(cfg, published, w.snaps, w.feed, n);
      }
    case DeliverSnapshot(n) =>
      if 1 <= n <= |w.snaps| {
        SnapshotOk(cfg, published, w.snaps, w.feed, n);
      }
  }

  lemma {:induction false} StartOk(cfg: Config)
    requires cfg.Valid()
    ensures WorldOk(cfg, Start(cfg))
  {
    FreshSound(cfg);
    assert Views(cfg, FreshEngine(cfg)) == EmptyBooks(cfg);
  }

  lemma {:induction false} ReachOk(cfg: Config, events: seq<Event>)
    requires cfg.Valid() && forall e | e in events :: FairEvent(e)
    ensures WorldOk(cfg, Reach(cfg, events))
  {
    if events == [] {
      StartOk(cfg);
    } else {
      ReachOk(cfg, events[..|events| - 1]);
      NextOk(cfg, Reach(cfg, events[..|events| - 1]), events[|events| - 1]);
    }
  }

  /** For every loss, duplication and reordering of both streams and every request
    * run: outside recovery the client's books are exactly the fold of incrementals
    * 1..next-1 and everything still buffered is from the future; once all emitted
    * updates have been consumed, they are the exchange's own books as market data
    * shows them.
    */
  lemma {:induction false} ClientExact(cfg: Config, events: seq<Event>)
    requires cfg.Valid() && forall e | e in events :: FairEvent(e)
    requires !Reach(cfg, events).feed.inRecovery
    ensures var w := Reach(cfg, events);
            && 1 <= w.feed.next <= w.published + 1
            && Fold(cfg, w.feed.out) == Fold(cfg, w.emitted[..w.feed.next - 1])
            && (forall k | k in w.feed.buf :: w.feed.next < k)
            && (w.feed.next == |w.emitted| + 1 ==> Fold(cfg, w.feed.out) == Views(cfg, w.books))
  {
    hide Fold, Views, Faithful, EngineSound, ValidStream, AbsorbAll, Reach, Next;
    ReachOk(cfg, events);
    var w := Reach(cfg, events);
    assert w.emitted[..w.published][..w.feed.next - 1] == w.emitted[..w.feed.next - 1];
    assert w.emitted[..|w.emitted|] == w.emitted;
  }

  /** The delivery of the END that follows the last accepted message of an open image. */
  predicate EndsImage(w: World, e: Event) {
    && w.feed.inSnapshot && e.DeliverSnapshot? && e.n == w.feed.lastSeen + 1
    && 1 <= e.n <= |w.snaps| && w.snaps[e.n - 1].kind == SnapshotEnd
  }

  /** The feed as the replay of its buffer begins. */
  function Restart(f: Feed, n: nat, last: nat): Feed {
    f.(lastSeen := n, next := last + 1, buf := Since(f.buf, last + 1))
  }

  lemma {:induction false} DrainAdvances(f: Feed)
    ensures f.next <= Drain(f).next
    decreases |f.buf|
  {
    if First(f.buf, f.next) {
      DrainAdvances(f.(next := f.next + 1, buf := f.buf - {f.next}, out := f.out + [f.buf[f.next]]));
    }
  }

  lemma {:induction false} RecoveryEnds(cfg: Config, w: World, e: Event)
    requires cfg.Valid() && WellFormed(cfg, w) && w.feed.inRecovery
    ensures !Next(cfg, w, e).feed.inRecovery <==> EndsImage(w, e)
    ensures EndsImage(w, e) ==> w.snaps[e.n - 1].orderId < Next(cfg, w, e).feed.next
  {
    hide Process, Absorb, Cycle, Drain;
    if e.DeliverSnapshot? && 1 <= e.n <= |w.snaps| && w.snaps[e.n - 1].kind == SnapshotEnd {
      DrainAdvances(Restart(w.feed, e.n, w.snaps[e.n - 1].orderId));
    }
  }

  /** What was forwarded since the last CLEAR is one complete cycle: its CLEAR at `a`, and
    * every message between its START and its END at `end`. The image rebuilds the fold of
    * the incrementals up to the number that END carries.
    */
  ghost predicate WholeImage(cfg: Config, w: World, a: nat, end: nat, before: seq<MarketUpdate>)
    requires cfg.Valid() && WellFormed(cfg, w)
  {
    && Opened(w.snaps, a, end) && end < |w.snaps| && w.snaps[end].kind == SnapshotEnd
    && w.feed.out == before + [w.snaps[a]] + w.snaps[a + 2..end]
    && var last := w.snaps[end].orderId;
       last <= w.published && Rebuilds(cfg, w.snaps[a + 2..end], Fold(cfg, w.emitted[..last]))
  }

  lemma {:induction false} ForwardedImage(cfg: Config, w: World, e: Event) returns (a: nat, before: seq<MarketUpdate>)
    requires cfg.Valid() && WellFormed(cfg, w) && WorldOk(cfg, w) && EndsImage(w, e)
    ensures WholeImage(cfg, w, a, e.n - 1, before)
  {
    hide Fold, Views, EngineSound, ValidStream, AbsorbAll, Genuine, CaughtUpTo, Rebuilds;
    a :| Reassembling(w.snaps, w.feed, a);
    before :| w.feed.out == before + [w.snaps[a]] + w.snaps[a + 2..w.feed.lastSeen];
    var last := w.snaps[e.n - 1].orderId;
    assert w.emitted[..w.published][..last] == w.emitted[..last];
  }

  /** A recovering client recovers with exactly those deliveries, having forwarded one
    * whole image since the last CLEAR; it goes on after the incrementals the image covers.
    */
  lemma {:induction false} RecoveryEndsExact(cfg: Config, events: seq<Event>, e: Event)
    returns (a: nat, before: seq<MarketUpdate>)
    requires cfg.Valid() && (forall d | d in events :: FairEvent(d)) && FairEvent(e)
    requires Reach(cfg, events).feed.inRecovery
    ensures var w := Reach(cfg, events);
            !Next(cfg, w, e).feed.inRecovery <==> EndsImage(w, e)
    ensures var w := Reach(cfg, events);
            EndsImage(w, e) ==>
              && WholeImage(cfg, w, a, e.n - 1, before)
              && w.snaps[e.n - 1].orderId < Next(cfg, w, e).feed.next
  {
    hide *;
    ReachOk(cfg, events);
    var w := Reach(cfg, events);
    RecoveryEnds(cfg, w, e);
    a, before := 0, [];
    if EndsImage(w, e) {
      a, before := ForwardedImage(cfg, w, e);
    }
  }
}
