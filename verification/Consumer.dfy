/** The client's market-data consumer: gap detection, buffering, and recovery from
  * a snapshot cycle. The class is the object as it runs; the functions above it
  * say what each handler does to its state.
  */
module Consumer {
  import opened Types

  type Buffer = map<nat, MarketUpdate>

  datatype Feed = Feed(next: nat, inRecovery: bool, armed: bool, inSnapshot: bool, lastSeen: nat,
                       buf: Buffer, out: seq<MarketUpdate>)

  const FRESH_FEED := Feed(1, false, false, false, 0, map[], [])

  /** The first key of the ordered buffer is `n`. */
  predicate First(buf: Buffer, n: nat) {
    n in buf && forall k | k in buf :: n <= k
  }

  /** Publish buffered updates while the first one is the expected one. */
  function Drain(f: Feed): Feed
    decreases |f.buf|
  {
    if !First(f.buf, f.next) then f
    else Drain(f.(next := f.next + 1, buf := f.buf - {f.next}, out := f.out + [f.buf[f.next]]))
  }

  function OnIncremental(f: Feed, n: nat, u: MarketUpdate): Feed {
    if f.inRecovery then f.(buf := f.buf[n := u])
    else if n == f.next then Drain(f.(next := f.next + 1, out := f.out + [u]))
    else if n < f.next then f
    else f.(buf := f.buf[n := u], inRecovery := true, armed := false, inSnapshot := false, lastSeen := 0)
  }

  function Since(buf: Buffer, n: nat): Buffer {
    map k | k in buf && n <= k :: buf[k]
  }

  /** The feed once everything the buffer can contribute has been drained. */
  function Settled(f: Feed): Feed {
    Drain(f.(buf := Since(f.buf, f.next)))
  }

  /** Resume after incremental `last`: forget what the image covers, publish what follows it. */
  function FinishRecovery(f: Feed, last: nat): Feed {
    Settled(f.(next := last + 1)).(armed := false, inSnapshot := false, inRecovery := false)
  }

  function OnSnapshot(f: Feed, n: nat, u: MarketUpdate): Feed {
    if !f.inRecovery then f
    else match u.kind
      case Clear => f.(inSnapshot := false, armed := true, lastSeen := n, out := f.out + [u])
      case SnapshotStart =>
        if f.armed && n == f.lastSeen + 1 then f.(inSnapshot := true, lastSeen := n, armed := false)
        else f.(inSnapshot := false, armed := false)
      case Add =>
        if !f.inSnapshot then f
        else if n == f.lastSeen + 1 then f.(lastSeen := n, out := f.out + [u])
        else f.(inSnapshot := false)
      case SnapshotEnd =>
        if !f.inSnapshot then f
        else if n == f.lastSeen + 1 then FinishRecovery(f.(lastSeen := n), u.orderId)
        else f.(inSnapshot := false)
      case Modify => f
      case Cancel => f
      case Trade => f
      case UnknownUpdate => f
  }

  // ---------- what an incremental does, without the drain ----------

  /** `g` is `f` after it also forwarded the `m` updates buffered from its next number on. */
  ghost predicate Forwards(f: Feed, m: nat, g: Feed) {
    && g.next == f.next + m
    && (forall k :: k in g.buf <==> k in f.buf && !(f.next <= k < g.next))
    && (forall k | k in g.buf :: g.buf[k] == f.buf[k])
    && |g.out| == |f.out| + m && f.out <= g.out
    && (forall k | f.next <= k < g.next :: k in f.buf && g.out[|f.out| + (k - f.next)] == f.buf[k])
    && g.inRecovery == f.inRecovery && g.armed == f.armed && g.inSnapshot == f.inSnapshot && g.lastSeen == f.lastSeen
  }

  /** `m` is how far the buffer goes on without a hole; a key left below the next number stops everything. */
  ghost predicate Consecutive(f: Feed, m: nat) {
    && (forall k | f.next <= k < f.next + m :: k in f.buf)
    && (if exists k :: k in f.buf && k < f.next then m == 0 else f.next + m !in f.buf)
  }

  /** The expected update goes out, and with it the run buffered behind it; an old one is dropped;
    * a later one is kept and opens a recovery; during recovery everything is kept.
    */
  ghost predicate Handled(f: Feed, n: nat, u: MarketUpdate, g: Feed) {
    if !f.inRecovery && n == f.next then
      var sent := f.(next := n + 1, out := f.out + [u]);
      n < g.next && Forwards(sent, g.next - (n + 1), g) && Consecutive(sent, g.next - (n + 1))
    else if !f.inRecovery && n < f.next then g == f
    else
      && n in g.buf && g.buf[n] == u
      && (forall k | k != n :: k in g.buf <==> k in f.buf)
      && (forall k | k != n && k in f.buf :: g.buf[k] == f.buf[k])
      && g.next == f.next && g.out == f.out && g.inRecovery
      && if f.inRecovery then g.armed == f.armed && g.inSnapshot == f.inSnapshot && g.lastSeen == f.lastSeen
         else !g.armed && !g.inSnapshot && g.lastSeen == 0
  }

  lemma {:induction false} DrainForwards(f: Feed)
    ensures var g := Drain(f);
            f.next <= g.next && Forwards(f, g.next - f.next, g) && Consecutive(f, g.next - f.next)
    decreases |f.buf|
  {
    hide Forwards, Consecutive;
    if First(f.buf, f.next) {
      var h := f.(next := f.next + 1, buf := f.buf - {f.next}, out := f.out + [f.buf[f.next]]);
      DrainForwards(h);
      var m := Drain(f).next - h.next;
      ForwardsOneMore(f, h, m, Drain(f));
      ConsecutiveOneMore(f, h, m);
    } else {
      ForwardsNone(f);
    }
  }

  lemma {:induction false} ForwardsNone(f: Feed)
    requires !First(f.buf, f.next)
    ensures Forwards(f, 0, f) && Consecutive(f, 0)
  {
  }

  lemma {:induction false} ForwardsOneMore(f: Feed, h: Feed, m: nat, g: Feed)
    requires f.next in f.buf && Forwards(h, m, g)
    requires h == f.(next := f.next + 1, buf := f.buf - {f.next}, out := f.out + [f.buf[f.next]])
    ensures Forwards(f, m + 1, g)
  {
    forall k | f.next <= k < g.next ensures k in f.buf && g.out[|f.out| + (k - f.next)] == f.buf[k] {
      if k == f.next {
        assert g.out[|f.out|] == h.out[|f.out|];
      } else {
        assert k in h.buf;
      }
    }
  }

  lemma {:induction false} ConsecutiveOneMore(f: Feed, h: Feed, m: nat)
    requires First(f.buf, f.next) && Consecutive(h, m)
    requires h == f.(next := f.next + 1, buf := f.buf - {f.next}, out := f.out + [f.buf[f.next]])
    ensures Consecutive(f, m + 1)
  {
    forall k | f.next <= k < f.next + m + 1 ensures k in f.buf {
      assert k > f.next ==> k in h.buf;
    }
  }

  lemma {:induction false} IncrementalHandled(f: Feed, n: nat, u: MarketUpdate)
    ensures Handled(f, n, u, OnIncremental(f, n, u))
  {
    hide Forwards, Consecutive, Drain;
    if !f.inRecovery && n == f.next {
      DrainForwards(f.(next := n + 1, out := f.out + [u]));
    }
  }

  // ---------- in order, nothing is held back ----------

  /** Incrementals `n`, `n + 1`, ... delivered one after the other. */
  function Incrementals(f: Feed, n: nat, us: seq<MarketUpdate>): Feed {
    if us == [] then f else OnIncremental(Incrementals(f, n, us[..|us| - 1]), n + |us| - 1, us[|us| - 1])
  }

  /** Snapshot messages `n`, `n + 1`, ... delivered one after the other. */
  function Snapshots(f: Feed, n: nat, us: seq<MarketUpdate>): Feed {
    if us == [] then f else OnSnapshot(Snapshots(f, n, us[..|us| - 1]), n + |us| - 1, us[|us| - 1])
  }

  /** Without a gap every incremental goes out when it comes in. */
  lemma {:induction false} InOrder(f: Feed, us: seq<MarketUpdate>)
    requires !f.inRecovery && f.buf == map[]
    ensures var g := Incrementals(f, f.next, us);
            g.out == f.out + us && g.next == f.next + |us| && g.buf == map[] && !g.inRecovery
  {
    hide Handled;
    if us == [] {
    } else {
      var init, u := us[..|us| - 1], us[|us| - 1];
      InOrder(f, init);
      var h := Incrementals(f, f.next, init);
      IncrementalHandled(h, h.next, u);
      NextHandled(h, u, OnIncremental(h, h.next, u));
      assert us == init + [u];
    }
  }

  lemma {:induction false} NextHandled(f: Feed, u: MarketUpdate, g: Feed)
    requires !f.inRecovery && f.buf == map[] && Handled(f, f.next, u, g)
    ensures g.out == f.out + [u] && g.next == f.next + 1 && g.buf == map[] && !g.inRecovery
  {
    var sent := f.(next := f.next + 1, out := f.out + [u]);
    var m := g.next - (f.next + 1);
    assert m > 0 ==> sent.next in sent.buf;
  }

  /** A feed resumed after incremental `last`: the image was forwarded, then what the buffer
    * holds from `last + 1` on up to its first hole; older entries are gone, younger ones wait.
    */
  ghost predicate Resumed(f: Feed, image: seq<MarketUpdate>, last: nat, g: Feed) {
    && !g.inRecovery && !g.armed && !g.inSnapshot && last < g.next
    && (forall j | last < j < g.next :: j in f.buf) && g.next !in f.buf
    && |g.out| == |f.out| + |image| + (g.next - 1 - last) && f.out + image <= g.out
    && (forall j | last < j < g.next :: g.out[|f.out| + |image| + (j - last - 1)] == f.buf[j])
    && (forall k :: k in g.buf <==> k in f.buf && g.next <= k)
    && (forall k | k in g.buf :: g.buf[k] == f.buf[k])
  }

  lemma {:induction false} FinishResumes(f: Feed, before: Feed, image: seq<MarketUpdate>, last: nat)
    requires f.buf == before.buf && f.out == before.out + image
    ensures Resumed(before, image, last, FinishRecovery(f, last))
  {
    hide Drain, Forwards, Consecutive, Resumed;
    var h := f.(next := last + 1, buf := Since(f.buf, last + 1));
    DrainForwards(h);
    ForwardsResumes(h, before, image, last, Drain(h), FinishRecovery(f, last));
  }

  lemma {:induction false} ForwardsResumes(h: Feed, before: Feed, image: seq<MarketUpdate>, last: nat, g: Feed, r: Feed)
    requires h.buf == Since(before.buf, last + 1) && h.out == before.out + image && h.next == last + 1 <= g.next
    requires Forwards(h, g.next - h.next, g) && Consecutive(h, g.next - h.next)
    requires r == g.(armed := false, inSnapshot := false, inRecovery := false)
    ensures Resumed(before, image, last, r)
  {
    forall j | last < j < g.next ensures j in before.buf && g.out[|h.out| + (j - last - 1)] == before.buf[j] {
      assert j in h.buf && g.out[|h.out| + (j - h.next)] == h.buf[j];
    }
    assert !exists k :: k in h.buf && k < h.next;
  }

  /** The beginning of a cycle, delivered in order, leaves the consumer inside the image. */
  lemma {:induction false} CycleOpens(f: Feed, n: nat, clear: MarketUpdate, start: MarketUpdate,
                                      adds: seq<MarketUpdate>)
    requires f.inRecovery && clear.kind == Clear && start.kind == SnapshotStart
    requires forall u | u in adds :: u.kind == Add
    ensures var g := Snapshots(f, n, [clear, start] + adds);
            && g.inRecovery && g.inSnapshot && g.lastSeen == n + 1 + |adds|
            && g.out == f.out + [clear] + adds && g.buf == f.buf
  {
    var us := [clear, start] + adds;
    if adds == [] {
      assert us == [clear, start] && us[..1] == [clear] && [clear][..0] == [];
      assert Snapshots(f, n, us[..1]) == OnSnapshot(f, n, clear);
      assert f.out + [clear] + adds == f.out + [clear];
    } else {
      var init, u := adds[..|adds| - 1], adds[|adds| - 1];
      CycleOpens(f, n, clear, start, init);
      assert us[..|us| - 1] == [clear, start] + init && us[|us| - 1] == u;
      assert u in adds;
      assert f.out + [clear] + adds == f.out + [clear] + init + [u];
    }
  }

  /** A whole cycle delivered in order ends the recovery: CLEAR and the image have been
    * forwarded, and the feed goes on where the END says the image stops.
    */
  lemma {:induction false} WholeCycle(f: Feed, n: nat, clear: MarketUpdate, start: MarketUpdate,
                                      adds: seq<MarketUpdate>, end: MarketUpdate)
    requires f.inRecovery && clear.kind == Clear && start.kind == SnapshotStart && end.kind == SnapshotEnd
    requires forall u | u in adds :: u.kind == Add
    ensures Resumed(f, [clear] + adds, end.orderId, Snapshots(f, n, [clear, start] + adds + [end]))
  {
    hide Resumed, FinishRecovery;
    var most := [clear, start] + adds;
    var us := most + [end];
    CycleOpens(f, n, clear, start, adds);
    assert us[..|us| - 1] == most;
    var g := Snapshots(f, n, most);
    assert g.out == f.out + ([clear] + adds);
    FinishResumes(g.(lastSeen := n + 2 + |adds|), f, [clear] + adds, end.orderId);
  }

  // ---------- a hole in the cycle ----------

  /** Snapshot messages, each with the number it came with. */
  function Arrivals(f: Feed, ms: seq<(nat, MarketUpdate)>): Feed {
    if ms == [] then f
    else var m := ms[|ms| - 1]; OnSnapshot(Arrivals(f, ms[..|ms| - 1]), m.0, m.1)
  }

  /** A number out of turn, at the START, at an ADD or at the END, gives the attempt up: whatever
    * arrives then, nothing is forwarded and the recovery goes on, up to the next CLEAR.
    */
  lemma {:induction false} GapAborts(f: Feed, n: nat, u: MarketUpdate, ms: seq<(nat, MarketUpdate)>)
    requires f.inRecovery && n != f.lastSeen + 1 && (u.kind == SnapshotStart || (f.inSnapshot && !f.armed))
    requires u.kind == SnapshotStart || u.kind == Add || u.kind == SnapshotEnd
    requires forall m | m in ms :: m.1.kind != Clear
    ensures var g := Arrivals(OnSnapshot(f, n, u), ms);
            && g.inRecovery && !g.armed && !g.inSnapshot
            && g.out == f.out && g.next == f.next && g.buf == f.buf
  {
    if ms != [] {
      GapAborts(f, n, u, ms[..|ms| - 1]);
      assert ms[|ms| - 1] in ms;
    }
  }

  /** One turn of the drain loop. */
  lemma {:induction false} DrainStep(f: Feed, first: nat)
    requires First(f.buf, first)
    ensures first == f.next ==>
              Drain(f) == Drain(f.(next := f.next + 1, buf := f.buf - {first}, out := f.out + [f.buf[first]]))
    ensures first != f.next ==> Drain(f) == f
  {
    assert first != f.next ==> !First(f.buf, f.next);
  }

  lemma {:induction false} DrainEmpty(f: Feed)
    requires f.buf == map[]
    ensures Drain(f) == f
  {
  }

  /** One turn of the replay loop: skip a covered key, publish the expected one, or stop. */
  lemma {:induction false} SettledStep(f: Feed, first: nat)
    requires First(f.buf, first)
    ensures first < f.next ==> Settled(f) == Settled(f.(buf := f.buf - {first}))
    ensures first == f.next ==>
              Settled(f) == Settled(f.(next := f.next + 1, buf := f.buf - {first}, out := f.out + [f.buf[first]]))
    ensures first > f.next ==> Settled(f) == f
  {
    var rest := f.buf - {first};
    if first < f.next {
      assert Since(rest, f.next) == Since(f.buf, f.next);
    } else {
      assert Since(f.buf, f.next) == f.buf;
      assert first == f.next ==> Since(rest, f.next + 1) == rest;
    }
  }

  lemma {:induction false} SettledEmpty(f: Feed)
    requires f.buf == map[]
    ensures Settled(f) == f
  {
    assert Since(f.buf, f.next) == map[];
  }

  class MarketDataConsumer {
    var outgoing: seq<MarketUpdate>
    var nextExpIncSeqNum: nat
    var inRecovery: bool
    var outOfOrderBuf: Buffer
    var snapshotArmed: bool
    var inSnapshot: bool
    var snapshotLastSeen: nat
    var pendingLastIncSeq: nat

    function State(): Feed
      reads this
    {
      Feed(nextExpIncSeqNum, inRecovery, snapshotArmed, inSnapshot, snapshotLastSeen, outOfOrderBuf, outgoing)
    }

    constructor ()
      ensures State() == FRESH_FEED
    {
      outgoing, nextExpIncSeqNum, inRecovery, outOfOrderBuf := [], 1, false, map[];
      snapshotArmed, inSnapshot, snapshotLastSeen, pendingLastIncSeq := false, false, 0, 0;
    }

    method PublishDownstream(u: MarketUpdate)
      modifies `outgoing
      ensures outgoing == old(outgoing) + [u]
    {
      outgoing := outgoing + [u];
    }

    /** The key an ordered map would list first. */
    method FirstKey() returns (k: nat)
      requires outOfOrderBuf != map[]
      ensures First(outOfOrderBuf, k) && k in outOfOrderBuf
    {
      k :| k in outOfOrderBuf;
      var rest := outOfOrderBuf.Keys - {k};
      while rest != {}
        invariant k in outOfOrderBuf && rest <= outOfOrderBuf.Keys
        invariant forall j | j in outOfOrderBuf && j !in rest :: k <= j
        decreases |rest|
      {
        var j :| j in rest;
        if j < k { k := j; }
        rest := rest - {j};
      }
    }

    method ProcessIncremental(n: nat, u: MarketUpdate)
      modifies this
      ensures State() == OnIncremental(old(State()), n, u) && Handled(old(State()), n, u, State())
    {
      hide Handled, Drain, First;
      IncrementalHandled(State(), n, u);
      if inRecovery {
        outOfOrderBuf := outOfOrderBuf[n := u];
        return;
      }
      if n == nextExpIncSeqNum {
        PublishDownstream(u);
        nextExpIncSeqNum := nextExpIncSeqNum + 1;
        while outOfOrderBuf != map[]
          invariant Drain(State()) == OnIncremental(old(State()), n, u)
          decreases |outOfOrderBuf|
        {
          var first := FirstKey();
          DrainStep(State(), first);
          if first != nextExpIncSeqNum { break; }
          PublishDownstream(outOfOrderBuf[first]);
          outOfOrderBuf := outOfOrderBuf - {first};
          nextExpIncSeqNum := nextExpIncSeqNum + 1;
        }
        if outOfOrderBuf == map[] { DrainEmpty(State()); }
        return;
      }
      if n < nextExpIncSeqNum {
        return;
      }
      outOfOrderBuf := outOfOrderBuf[n := u];
      StartRecovery();
    }

    method StartRecovery()
      modifies this
      ensures State() == if old(inRecovery) then old(State())
                         else old(State()).(inRecovery := true, armed := false, inSnapshot := false, lastSeen := 0)
    {
      if inRecovery { return; }
      inRecovery := true;
      snapshotArmed := false;
      inSnapshot := false;
      snapshotLastSeen := 0;
    }

    method ProcessSnapshot(n: nat, u: MarketUpdate)
      modifies this
      ensures State() == OnSnapshot(old(State()), n, u)
    {
      if !inRecovery { return; }
      match u.kind {
        case Clear =>
          inSnapshot := false;
          snapshotArmed := true;
          snapshotLastSeen := n;
          PublishDownstream(u);
        case SnapshotStart =>
          if snapshotArmed && n == snapshotLastSeen + 1 {
            inSnapshot := true;
            snapshotLastSeen := n;
          } else {
            inSnapshot := false;
          }
          snapshotArmed := false;
        case Add =>
          if inSnapshot {
            if n == snapshotLastSeen + 1 {
              PublishDownstream(u);
              snapshotLastSeen := n;
            } else {
              inSnapshot := false;
            }
          }
        case SnapshotEnd =>
          if inSnapshot {
            if n == snapshotLastSeen + 1 {
              snapshotLastSeen := n;
              pendingLastIncSeq := u.orderId;
              FinishRecoveryAt(pendingLastIncSeq);
            } else {
              inSnapshot := false;
            }
          }
        case _ =>
      }
    }

    method FinishRecoveryAt(last: nat)
      modifies this
      ensures State() == FinishRecovery(old(State()), last)
    {
      hide Settled, Drain, First, Since;
      nextExpIncSeqNum := last + 1;
      ghost var settled := Settled(State());
      while outOfOrderBuf != map[]
        invariant Settled(State()) == settled
        decreases |outOfOrderBuf|
      {
        var first := FirstKey();
        SettledStep(State(), first);
        if first < nextExpIncSeqNum {
          outOfOrderBuf := outOfOrderBuf - {first};
        } else if first == nextExpIncSeqNum {
          PublishDownstream(outOfOrderBuf[first]);
          nextExpIncSeqNum := nextExpIncSeqNum + 1;
          outOfOrderBuf := outOfOrderBuf - {first};
        } else {
          break;
        }
      }
      if outOfOrderBuf == map[] { SettledEmpty(State()); }
      snapshotArmed := false;
      inSnapshot := false;
      inRecovery := false;
    }
  }
}
