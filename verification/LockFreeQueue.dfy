/** The single-producer single-consumer ring as a step machine: every load or store
  * of a shared index is a step of its own, either side may run arbitrarily ahead of
  * the other, and either cached copy of the other side's index may be arbitrarily
  * stale. Steps interleave sequentially consistently.
  */
module LockFreeQueue {
  import opened Types

  /** Where the producer is in `updateWriteIndex`. */
  datatype Producer = Filling | MustReload | MayStore | Overflow

  /** Where the consumer is between `getNextToRead` and `updateReadIndex`. */
  datatype Consumer<T> = Looking | Holding | Took(value: T)

  /** The ring. `published` and `consumed` record what went in and out; `seenRead` and
    * `seenWrite` record how many elements were out, and in, when a side last loaded
    * the other's index.
    */
  datatype Queue<T> = Queue(store: seq<T>, write: nat, cachedRead: nat, read: nat, cachedWrite: nat,
                            producer: Producer, consumer: Consumer<T>,
                            published: seq<T>, consumed: seq<T>, seenRead: nat, seenWrite: nat)

  datatype Step<T> =
    | Fill(x: T)     // the producer writes its current slot
    | Check          // ... compares its next index with the cached read index
    | Reload         // ... loads the read index
    | Publish        // ... stores the write index
    | Look           // the consumer compares, and loads the write index if it must
    | Take           // ... reads its current slot
    | Release        // ... stores the read index

  function Fresh<T>(slots: seq<T>): Queue<T>
    requires 2 <= |slots|
  {
    Queue(slots, 0, 0, 0, 0, Filling, Looking, [], [], 0, 0)
  }

  predicate Indexed<T>(q: Queue<T>) {
    2 <= |q.store| && q.write < |q.store| && q.read < |q.store|
  }

  /** `getNextToRead` returns null: its index equals the write index, after a reload if it had to. */
  predicate Null<T>(q: Queue<T>) {
    q.read == q.cachedWrite && q.read == q.write
  }

  function Next<T>(q: Queue<T>, s: Step<T>): (r: Queue<T>)
    requires Indexed(q)
    ensures Indexed(r) && |r.store| == |q.store|
  {
    var n := |q.store|;
    match s
    case Fill(x) =>
      if q.producer != Filling then q else q.(store := q.store[q.write := x])
    case Check =>
      if q.producer != Filling then q
      else q.(producer := if Wrap(q.write, n) == q.cachedRead then MustReload else MayStore)
    case Reload =>
      if q.producer != MustReload then q
      else q.(cachedRead := q.read, seenRead := |q.consumed|,
              producer := if Wrap(q.write, n) == q.read then Overflow else MayStore)
    case Publish =>
      if q.producer != MayStore then q
      else q.(write := Wrap(q.write, n), producer := Filling, published := q.published + [q.store[q.write]])
    case Look =>
      if q.consumer != Looking then q
      else if q.read != q.cachedWrite then q.(consumer := Holding)
      else q.(cachedWrite := q.write, seenWrite := |q.published|,
              consumer := if q.read == q.write then Looking else Holding)
    case Take =>
      if q.consumer != Holding then q else q.(consumer := Took(q.store[q.read]))
    case Release =>
      if !q.consumer.Took? then q
      else q.(read := Wrap(q.read, n), consumer := Looking, consumed := q.consumed + [q.consumer.value])
  }

  function Run<T>(slots: seq<T>, steps: seq<Step<T>>): (q: Queue<T>)
    requires 2 <= |slots|
    ensures Indexed(q) && |q.store| == |slots|
  {
    if steps == [] then Fresh(slots)
    else Next(Run(slots, steps[..|steps| - 1]), steps[|steps| - 1])
  }

  // ---------- positions in the ring ----------

  /** The slot of the `k`-th element ever. */
  function Slot(k: nat, n: nat): (i: nat)
    requires 0 < n
    ensures i < n
  {
    if k == 0 then 0 else Wrap(Slot(k - 1, n), n)
  }

  /** Moving on by no more than a round. */
  lemma {:induction false} SlotAhead(k: nat, d: nat, n: nat)
    requires 0 < n && d <= n
    ensures Slot(k + d, n) == if Slot(k, n) + d < n then Slot(k, n) + d else Slot(k, n) + d - n
  {
    if d > 0 {
      SlotAhead(k, d - 1, n);
    }
  }

  // ---------- the invariant ----------

  /** The indices are the counts, and neither view of the other side is ahead of it. */
  ghost predicate Counted<T>(q: Queue<T>) {
    var n, w, r := |q.store|, |q.published|, |q.consumed|;
    && 2 <= n && q.write == Slot(w, n) && q.read == Slot(r, n)
    && q.cachedRead == Slot(q.seenRead, n) && q.cachedWrite == Slot(q.seenWrite, n)
    && q.seenRead <= r <= q.seenWrite <= w <= q.seenRead + n - 1
  }

  /** Every unread element is still in its slot. */
  ghost predicate Kept<T>(q: Queue<T>)
    requires 2 <= |q.store| && |q.consumed| <= |q.published|
  {
    forall k | |q.consumed| <= k < |q.published| :: q.store[Slot(k, |q.store|)] == q.published[k]
  }

  ghost predicate Ok<T>(q: Queue<T>) {
    && Counted(q) && Kept(q)
    && q.consumed <= q.published
    && (q.producer == MayStore ==> |q.published| + 1 <= q.seenRead + |q.store| - 1)
    && (q.producer == MustReload ==> |q.published| == q.seenRead + |q.store| - 1)
    && (q.consumer != Looking ==> |q.consumed| < q.seenWrite)
    && (q.consumer.Took? ==> q.consumer.value == q.published[|q.consumed|])
  }

  /** The next index meets a seen read index exactly if the ring is full as seen. */
  lemma {:induction false} FullAsSeen(w: nat, seen: nat, n: nat)
    requires 2 <= n && seen <= w <= seen + n - 1
    ensures Wrap(Slot(w, n), n) == Slot(seen, n) <==> w == seen + n - 1
  {
    assert Slot(w + 1, n) == Wrap(Slot(w, n), n);
    SlotAhead(seen, w + 1 - seen, n);
  }

  lemma {:induction false} EmptyAsSeen(r: nat, seen: nat, n: nat)
    requires 0 < n && r <= seen < r + n
    ensures Slot(r, n) == Slot(seen, n) <==> r == seen
  {
    SlotAhead(r, seen - r, n);
  }

  lemma {:induction false} FreshOk<T>(slots: seq<T>)
    requires 2 <= |slots|
    ensures Ok(Fresh(slots))
  {
  }

  /** The slot the producer writes is never one that waits to be read. */
  lemma {:induction false} FillKeeps<T>(q: Queue<T>, x: T)
    requires Ok(q)
    ensures q.write < |q.store| && Kept(q.(store := q.store[q.write := x]))
    ensures forall k | |q.consumed| <= k < |q.published| :: Slot(k, |q.store|) != q.write
  {
    hide Slot;
    forall k | |q.consumed| <= k < |q.published| ensures Slot(k, |q.store|) != q.write {
      SlotAhead(k, |q.published| - k, |q.store|);
    }
  }

  lemma {:induction false} NextOk<T>(q: Queue<T>, s: Step<T>)
    requires Ok(q) && Indexed(q)
    ensures Ok(Next(q, s))
  {
    hide Slot;
    var n, w, r := |q.store|, |q.published|, |q.consumed|;
    match s {
      case Fill(x) => FillKeeps(q, x);
      case Check => FullAsSeen(w, q.seenRead, n);
      case Reload => FullAsSeen(w, r, n);
      case Publish =>
        SlotAhead(w, 1, n);
        if q.producer == MayStore {
          PublishKeeps(q);
        }
      case Look => EmptyAsSeen(r, q.seenWrite, n); EmptyAsSeen(r, w, n);
      case Take =>
      case Release => SlotAhead(r, 1, n);
    }
  }

  lemma {:induction false} PublishKeeps<T>(q: Queue<T>)
    requires Ok(q) && Indexed(q) && q.producer == MayStore
    ensures Kept(Next(q, Publish))
  {
    hide Slot;
  }

  /** Whatever the interleaving and however stale the cached indices. */
  lemma {:induction false} RunOk<T>(slots: seq<T>, steps: seq<Step<T>>)
    requires 2 <= |slots|
    ensures Ok(Run(slots, steps))
  {
    if steps == [] {
      FreshOk(slots);
    } else {
      RunOk(slots, steps[..|steps| - 1]);
      NextOk(Run(slots, steps[..|steps| - 1]), steps[|steps| - 1]);
    }
  }

  // ---------- what it is for ----------

  /** Every element comes out once, in order, as it went in, and at most n - 1 wait. */
  lemma {:induction false} ConsumedPrefix<T>(slots: seq<T>, steps: seq<Step<T>>)
    requires 2 <= |slots|
    ensures var q := Run(slots, steps);
            q.consumed <= q.published && |q.published| - |q.consumed| < |slots|
  {
    RunOk(slots, steps);
  }

  /** A fill never touches a slot that waits to be read, or is being read. */
  lemma {:induction false} NeverOverwrites<T>(slots: seq<T>, steps: seq<Step<T>>, x: T)
    requires 2 <= |slots|
    ensures var q := Run(slots, steps);
            && (forall k | |q.consumed| <= k < |q.published| :: Slot(k, |slots|) != q.write)
            && (q.consumer == Holding ==>
                  && |q.consumed| < |q.published|
                  && Next(q, Fill(x)).store[q.read] == q.store[q.read] == q.published[|q.consumed|])
  {
    hide Slot;
    RunOk(slots, steps);
    var q := Run(slots, steps);
    FillKeeps(q, x);
  }

  /** The load ends in overflow exactly if n - 1 elements are unread at that moment. */
  lemma {:induction false} OverflowMeansFull<T>(slots: seq<T>, steps: seq<Step<T>>)
    requires 2 <= |slots| && Run(slots, steps).producer == MustReload
    ensures var q := Run(slots, steps);
            Next(q, Reload).producer == Overflow <==> |q.published| - |q.consumed| == |slots| - 1
  {
    hide Slot;
    RunOk(slots, steps);
    var q := Run(slots, steps);
    FullAsSeen(|q.published|, |q.consumed|, |slots|);
  }

  /** Null is returned exactly if everything published has been consumed at that moment. */
  lemma {:induction false} NullMeansEmpty<T>(slots: seq<T>, steps: seq<Step<T>>)
    requires 2 <= |slots| && Run(slots, steps).consumer == Looking
    ensures var q := Run(slots, steps);
            && (Null(q) <==> q.consumed == q.published)
            && (Next(q, Look).consumer == Looking <==> q.consumed == q.published)
  {
    hide Slot;
    RunOk(slots, steps);
    var q := Run(slots, steps);
    EmptyAsSeen(|q.consumed|, q.seenWrite, |slots|);
    EmptyAsSeen(|q.consumed|, |q.published|, |slots|);
    assert |q.consumed| == |q.published| ==> q.consumed == q.published;
  }

  // ---------- what comes out is what was written ----------

  /** What the producer wrote since it last published; a write counts while it is filling. */
  function Pending<T>(slots: seq<T>, steps: seq<Step<T>>): Option<T>
    requires 2 <= |slots|
  {
    if steps == [] then None
    else
      var init, s := steps[..|steps| - 1], steps[|steps| - 1];
      var at := Run(slots, init).producer;
      if s.Fill? && at == Filling then Some(s.x)
      else if s.Publish? && at == MayStore then None
      else Pending(slots, init)
  }

  /** One entry per publication: what the producer wrote for it, if it wrote anything. */
  function Handed<T>(slots: seq<T>, steps: seq<Step<T>>): seq<Option<T>>
    requires 2 <= |slots|
  {
    if steps == [] then []
    else
      var init, s := steps[..|steps| - 1], steps[|steps| - 1];
      if s.Publish? && Run(slots, init).producer == MayStore
      then Handed(slots, init) + [Pending(slots, init)] else Handed(slots, init)
  }

  /** What element `k` of the stream is: what was written for it, or else what its slot held before. */
  function Element<T>(slots: seq<T>, earlier: seq<T>, k: nat, wrote: Option<T>): T
    requires 2 <= |slots| && k <= |earlier|
  {
    if wrote.Some? then wrote.value else if k < |slots| then slots[k] else earlier[k - |slots|]
  }

  /** Every slot holds its last element, its first content, or what the producer is writing. */
  ghost predicate Holds<T>(slots: seq<T>, q: Queue<T>, pending: Option<T>) {
    var n, w := |slots|, |q.published|;
    && 2 <= n == |q.store| && q.write == Slot(w, n)
    && (forall k: nat | k < w < k + n :: q.store[Slot(k, n)] == q.published[k])
    && (forall i | w < i < n :: q.store[i] == slots[i])
    && q.store[q.write] == Element(slots, q.published, w, pending)
  }

  lemma {:induction false} SlotSmall(k: nat, n: nat)
    requires k < n
    ensures Slot(k, n) == k
  {
    SlotAhead(0, k, n);
  }

  /** Writing the current slot disturbs no other. */
  lemma {:induction false} FillHolds<T>(slots: seq<T>, q: Queue<T>, pending: Option<T>, x: T)
    requires Holds(slots, q, pending)
    ensures Holds(slots, q.(store := q.store[q.write := x]), Some(x))
  {
    hide Slot;
    var n, w := |slots|, |q.published|;
    forall k: nat | k < w < k + n ensures Slot(k, n) != q.write {
      SlotAhead(k, w - k, n);
    }
    if w < n { SlotSmall(w, n); }
  }

  lemma {:induction false} PublishHolds<T>(slots: seq<T>, q: Queue<T>, pending: Option<T>)
    requires Holds(slots, q, pending)
    ensures Holds(slots, q.(write := Wrap(q.write, |slots|), published := q.published + [q.store[q.write]]), None)
  {
    hide Slot;
    var n, w := |slots|, |q.published|;
    SlotAhead(w, 1, n);
    var r := q.(write := Wrap(q.write, n), published := q.published + [q.store[q.write]]);
    forall k: nat | k < w + 1 < k + n ensures r.store[Slot(k, n)] == r.published[k] {
    }
    if w + 1 < n {
      SlotSmall(w + 1, n);
    } else {
      SlotAhead(w + 1 - n, n, n);
      assert q.store[Slot(w + 1 - n, n)] == q.published[w + 1 - n];
    }
  }

  lemma {:induction false} FreshHolds<T>(slots: seq<T>)
    requires 2 <= |slots|
    ensures Holds(slots, Fresh(slots), None)
  {
  }

  /** A step that neither fills nor publishes leaves slots and stream alone. */
  lemma {:induction false} OthersHold<T>(slots: seq<T>, q: Queue<T>, s: Step<T>, pending: Option<T>)
    requires Indexed(q) && Holds(slots, q, pending)
    requires !(s.Fill? && q.producer == Filling) && !(s.Publish? && q.producer == MayStore)
    ensures Holds(slots, Next(q, s), pending) && Next(q, s).published == q.published
  {
    hide Slot;
  }

  lemma {:induction false} RunHolds<T>(slots: seq<T>, steps: seq<Step<T>>)
    requires 2 <= |slots|
    ensures Holds(slots, Run(slots, steps), Pending(slots, steps))
  {
    hide Holds, Next;
    if steps == [] {
      FreshHolds(slots);
    } else {
      var init, s := steps[..|steps| - 1], steps[|steps| - 1];
      RunHolds(slots, init);
      var q := Run(slots, init);
      NextHolds(slots, q, s, Pending(slots, init));
    }
  }

  lemma {:induction false} NextHolds<T>(slots: seq<T>, q: Queue<T>, s: Step<T>, pending: Option<T>)
    requires Indexed(q) && Holds(slots, q, pending)
    ensures s.Fill? && q.producer == Filling ==> Holds(slots, Next(q, s), Some(s.x))
    ensures s.Publish? && q.producer == MayStore ==> Holds(slots, Next(q, s), None)
    ensures !(s.Fill? && q.producer == Filling) && !(s.Publish? && q.producer == MayStore) ==>
              Holds(slots, Next(q, s), pending)
  {
    if s.Fill? && q.producer == Filling {
      FillHolds(slots, q, pending, s.x);
    } else if s.Publish? && q.producer == MayStore {
      assert |q.store| == |slots|;
      PublishHolds(slots, q, pending);
    } else {
      OthersHold(slots, q, s, pending);
    }
  }

  /** Only a publication adds to the stream, and it adds the element written for it. */
  lemma {:induction false} OneMore<T>(slots: seq<T>, q: Queue<T>, s: Step<T>, pending: Option<T>)
    requires Indexed(q) && Holds(slots, q, pending)
    ensures Next(q, s).published
         == if s.Publish? && q.producer == MayStore
            then q.published + [Element(slots, q.published, |q.published|, pending)] else q.published
  {
    hide Slot;
  }

  /** Element by element, a stream is what was written for it. */
  ghost predicate Written<T>(slots: seq<T>, stream: seq<T>, hs: seq<Option<T>>)
    requires 2 <= |slots|
  {
    && |stream| == |hs|
    && forall k | 0 <= k < |hs| :: stream[k] == Element(slots, stream, k, hs[k])
  }

  lemma {:induction false} WrittenGrows<T>(slots: seq<T>, stream: seq<T>, hs: seq<Option<T>>, h: Option<T>)
    requires 2 <= |slots| && Written(slots, stream, hs)
    ensures Written(slots, stream + [Element(slots, stream, |stream|, h)], hs + [h])
  {
  }

  lemma {:induction false} RunWritten<T>(slots: seq<T>, steps: seq<Step<T>>)
    requires 2 <= |slots|
    ensures Written(slots, Run(slots, steps).published, Handed(slots, steps))
  {
    hide Holds, Next, Written;
    if steps == [] {
      FreshWritten(slots);
    } else {
      var init, s := steps[..|steps| - 1], steps[|steps| - 1];
      RunWritten(slots, init);
      RunHolds(slots, init);
      var q := Run(slots, init);
      OneMore(slots, q, s, Pending(slots, init));
      if s.Publish? && q.producer == MayStore {
        WrittenGrows(slots, q.published, Handed(slots, init), Pending(slots, init));
      }
    }
  }

  lemma {:induction false} FreshWritten<T>(slots: seq<T>)
    requires 2 <= |slots|
    ensures Written(slots, Fresh(slots).published, [])
  {
  }

  /** The stream is what the producer wrote: for every publication that took effect the value last
    * written for it, or what the slot held a round before if nothing was. A prefix of it has come out.
    */
  lemma {:induction false} DeliversWritten<T>(slots: seq<T>, steps: seq<Step<T>>)
    requires 2 <= |slots|
    ensures var q, hs := Run(slots, steps), Handed(slots, steps);
            && Written(slots, q.published, hs) && q.consumed <= q.published
            && (forall k | 0 <= k < |q.consumed| && hs[k].Some? :: q.consumed[k] == hs[k].value)
  {
    hide Ok, Run, Handed, Next;
    ConsumedPrefix(slots, steps);
    RunWritten(slots, steps);
  }

  // ---------- progress ----------

  /** Wherever the consumer stands: a filled element goes in unless n - 1 are unread, and then the
    * queue overflows.
    */
  lemma {:induction false} SendsUnlessFull<T>(slots: seq<T>, steps: seq<Step<T>>, x: T)
    requires 2 <= |slots| && Run(slots, steps).producer == Filling
    ensures var q := Run(slots, steps);
            var r := Next(Next(Next(Next(q, Fill(x)), Check), Reload), Publish);
            && r.consumed == q.consumed
            && if |q.published| - |q.consumed| < |slots| - 1
               then r.producer == Filling && r.published == q.published + [x]
               else r.producer == Overflow && r.published == q.published
  {
    hide Slot, Kept;
    RunOk(slots, steps);
    var q, n := Run(slots, steps), |slots|;
    FullAsSeen(|q.published|, q.seenRead, n);
    FullAsSeen(|q.published|, |q.consumed|, n);
  }

  /** Wherever the producer stands: the oldest unread element comes out, if there is one. */
  lemma {:induction false} ReceivesUnlessEmpty<T>(slots: seq<T>, steps: seq<Step<T>>)
    requires 2 <= |slots| && Run(slots, steps).consumer == Looking
    ensures var q := Run(slots, steps);
            var r := Next(Next(Next(q, Look), Take), Release);
            && r.consumer == Looking && r.published == q.published
            && r.consumed == if |q.consumed| < |q.published| then q.consumed + [q.published[|q.consumed|]]
                             else q.consumed
  {
    hide Slot;
    RunOk(slots, steps);
    var q := Run(slots, steps);
    EmptyAsSeen(|q.consumed|, q.seenWrite, |slots|);
    EmptyAsSeen(|q.consumed|, |q.published|, |slots|);
  }
}
