/** The fairness sequencer: one poll cycle's requests, sorted by receive time and,
  * within one receive time, by arrival.
  */
module Sequencers {
  import opened Types

  /** A buffered request; `arrival` is its place in the cycle's buffer. */
  datatype Entry = Entry(time: nat, request: Request, arrival: nat)

  /** `operator<` of the buffer's entries. */
  predicate Earlier(a: Entry, b: Entry) {
    a.time < b.time || (a.time == b.time && a.arrival < b.arrival)
  }

  /** The buffer as `addClientRequest` fills it: every entry carries its own place. */
  ghost predicate Stamped(pending: seq<Entry>) {
    forall i | 0 <= i < |pending| :: pending[i].arrival == i
  }

  ghost predicate Ordered(s: seq<Entry>) {
    forall i, j | 0 <= i < j < |s| :: Earlier(s[i], s[j])
  }

  /** What the standard sort promises: the same entries, none after a later one. */
  ghost predicate IsSort(s: seq<Entry>, pending: seq<Entry>) {
    && multiset(s) == multiset(pending)
    && (forall i, j | 0 <= i < j < |s| :: !Earlier(s[j], s[i]))
  }

  function Requests(s: seq<Entry>): (r: seq<Request>)
    ensures |r| == |s| && forall i | 0 <= i < |r| :: r[i] == s[i].request
  {
    seq(|s|, i requires 0 <= i < |s| => s[i].request)
  }

  /** Inserting the youngest entry: behind everything received no later. */
  function Place(s: seq<Entry>, e: Entry): seq<Entry> {
    if s == [] then [e]
    else if s[|s| - 1].time <= e.time then s + [e]
    else Place(s[..|s| - 1], e) + [s[|s| - 1]]
  }

  /** The publication order of a cycle. */
  function Sequenced(pending: seq<Entry>): seq<Entry> {
    if pending == [] then []
    else Place(Sequenced(pending[..|pending| - 1]), pending[|pending| - 1])
  }

  // ---------- it is the unique sort ----------

  lemma {:induction false} PlaceHas(s: seq<Entry>, e: Entry)
    ensures multiset(Place(s, e)) == multiset(s) + multiset{e}
    ensures |Place(s, e)| == |s| + 1
  {
    if s != [] && s[|s| - 1].time > e.time {
      PlaceHas(s[..|s| - 1], e);
      assert s == s[..|s| - 1] + [s[|s| - 1]];
    }
  }

  lemma {:induction false} PlaceOrdered(s: seq<Entry>, e: Entry)
    requires Ordered(s) && forall x | x in s :: x.arrival < e.arrival
    ensures Ordered(Place(s, e))
  {
    if s == [] {
    } else if s[|s| - 1].time <= e.time {
      var t := s + [e];
      forall i, j | 0 <= i < j < |t| ensures Earlier(t[i], t[j]) {
        assert t[i] == s[i] && s[i] in s;
        assert i < |s| - 1 ==> Earlier(s[i], s[|s| - 1]);
      }
    } else {
      var last, init := s[|s| - 1], s[..|s| - 1];
      PlaceOrdered(init, e);
      PlaceHas(init, e);
      var t := Place(init, e) + [last];
      forall i, j | 0 <= i < j < |t| ensures Earlier(t[i], t[j]) {
        if j == |t| - 1 {
          assert t[i] in multiset(Place(init, e));
          assert t[i] == e || t[i] in init;
        }
      }
    }
  }

  lemma {:induction false} SequencedIsSort(pending: seq<Entry>)
    requires Stamped(pending)
    ensures Ordered(Sequenced(pending)) && multiset(Sequenced(pending)) == multiset(pending)
  {
    if pending != [] {
      var init, e := pending[..|pending| - 1], pending[|pending| - 1];
      SequencedIsSort(init);
      assert pending == init + [e];
      forall x | x in Sequenced(init) ensures x.arrival < e.arrival {
        assert x in multiset(Sequenced(init));
        assert x in init;
      }
      PlaceOrdered(Sequenced(init), e);
      PlaceHas(Sequenced(init), e);
    }
  }

  lemma {:induction false} TailOf(s: seq<Entry>)
    requires s != []
    ensures s == [s[0]] + s[1..] && multiset(s[1..]) == multiset(s) - multiset{s[0]}
  {
    assert s == [s[0]] + s[1..];
  }

  /** Arrival breaks every tie, so however the sort works there is only one result. */
  lemma {:induction false} OneSort(s: seq<Entry>, t: seq<Entry>)
    requires multiset(s) == multiset(t) && Ordered(t)
    requires forall i, j | 0 <= i < j < |s| :: !Earlier(s[j], s[i])
    ensures s == t
    decreases |s|
  {
    hide Earlier;
    assert |s| == |multiset(s)| == |multiset(t)| == |t|;
    if s != [] {
      SameHead(s, t);
      TailOf(s);
      TailOf(t);
      OneSort(s[1..], t[1..]);
    }
  }

  lemma {:induction false} SameHead(s: seq<Entry>, t: seq<Entry>)
    requires multiset(s) == multiset(t) && Ordered(t) && s != [] && t != []
    requires forall i, j | 0 <= i < j < |s| :: !Earlier(s[j], s[i])
    ensures s[0] == t[0]
  {
    assert t[0] in multiset(s) && s[0] in multiset(t);
    var i :| 0 <= i < |s| && s[i] == t[0];
    var j :| 0 <= j < |t| && t[j] == s[0];
    assert (i > 0 ==> !Earlier(t[0], s[0])) && (j > 0 ==> Earlier(t[0], s[0]));
  }

  /** The published order is the one sort by receive time and arrival. */
  lemma {:induction false} SortIsSequenced(s: seq<Entry>, pending: seq<Entry>)
    requires Stamped(pending)
    ensures IsSort(s, pending) <==> s == Sequenced(pending)
  {
    SequencedIsSort(pending);
    if IsSort(s, pending) {
      OneSort(s, Sequenced(pending));
    }
  }

  // ---------- what one client sees ----------

  function OfClient(rs: seq<Request>, client: nat): seq<Request> {
    if rs == [] then []
    else OfClient(rs[..|rs| - 1], client) + if rs[|rs| - 1].client == client then [rs[|rs| - 1]] else []
  }

  lemma {:induction false} OfClientConcat(rs: seq<Request>, qs: seq<Request>, client: nat)
    ensures OfClient(rs + qs, client) == OfClient(rs, client) + OfClient(qs, client)
  {
    if qs == [] {
      assert rs + qs == rs;
    } else {
      assert (rs + qs)[..|rs + qs| - 1] == rs + qs[..|qs| - 1];
      OfClientConcat(rs, qs[..|qs| - 1], client);
    }
  }

  /** All of a client's entries were received at one time, as from one read of its socket. */
  ghost predicate OneTime(pending: seq<Entry>, client: nat) {
    forall i, j | 0 <= i < |pending| && 0 <= j < |pending| ::
      pending[i].request.client == client == pending[j].request.client ==> pending[i].time == pending[j].time
  }

  lemma {:induction false} PlaceClient(s: seq<Entry>, e: Entry, client: nat)
    requires e.request.client == client ==> forall x | x in s && x.request.client == client :: x.time <= e.time
    ensures OfClient(Requests(Place(s, e)), client) == OfClient(Requests(s + [e]), client)
  {
    hide OfClient, Requests;
    if s == [] {
      assert s + [e] == [e];
    } else if s[|s| - 1].time > e.time {
      var last, init := s[|s| - 1], s[..|s| - 1];
      assert last in s && forall x | x in init :: x in s;
      PlaceClient(init, e, client);
      OfEntry(Place(init, e), last, client);
      OfEntry(init, e, client);
      OfEntry(init, last, client);
      OfEntry(s, e, client);
      assert init + [last] == s;
    }
  }

  lemma {:induction false} OfEntry(s: seq<Entry>, e: Entry, client: nat)
    ensures OfClient(Requests(s + [e]), client)
         == OfClient(Requests(s), client) + if e.request.client == client then [e.request] else []
  {
    assert Requests(s + [e]) == Requests(s) + [e.request];
    assert (Requests(s) + [e.request])[..|s|] == Requests(s);
  }

  lemma {:induction false} SameTime(pending: seq<Entry>, client: nat)
    requires Stamped(pending) && OneTime(pending, client) && pending != []
    ensures var init, e := pending[..|pending| - 1], pending[|pending| - 1];
            Stamped(init) && OneTime(init, client)
            && forall x | x in Sequenced(init) && x.request.client == client && e.request.client == client ::
                  x.time == e.time
  {
    hide Sequenced, Ordered;
    var init, e := pending[..|pending| - 1], pending[|pending| - 1];
    SequencedIsSort(init);
    forall x | x in Sequenced(init) && x.request.client == client && e.request.client == client
        ensures x.time == e.time {
      assert x in multiset(Sequenced(init));
      var i :| 0 <= i < |init| && init[i] == x;
      assert pending[i] == x;
    }
  }

  /** A client whose entries share a receive time keeps its own order, whatever the
    * clock did between clients and cycles.
    */
  lemma {:induction false} KeepsClientOrder(pending: seq<Entry>, client: nat)
    requires Stamped(pending) && OneTime(pending, client)
    ensures OfClient(Requests(Sequenced(pending)), client) == OfClient(Requests(pending), client)
  {
    hide OfClient, Requests, OneTime, Stamped;
    if pending != [] {
      var init, e := pending[..|pending| - 1], pending[|pending| - 1];
      SameTime(pending, client);
      KeepsClientOrder(init, client);
      PlaceClient(Sequenced(init), e, client);
      OfEntry(Sequenced(init), e, client);
      OfEntry(init, e, client);
      assert init + [e] == pending;
    }
  }

  class FIFOSequencer {
    const capacity: nat
    var pending: seq<Entry>
    var published: seq<Request>

    ghost predicate Valid()
      reads this
    {
      |pending| <= capacity && Stamped(pending)
    }

    constructor (capacity: nat)
      ensures Valid() && this.capacity == capacity && pending == [] && published == []
    {
      this.capacity := capacity;
      pending, published := [], [];
    }

    /** A full buffer is fatal in the original. */
    method AddClientRequest(time: nat, request: Request) returns (ok: bool)
      requires Valid()
      modifies this`pending
      ensures Valid() && ok == (|old(pending)| < capacity)
      ensures pending == if ok then old(pending) + [Entry(time, request, |old(pending)|)] else old(pending)
    {
      ok := |pending| < capacity;
      if ok {
        pending := pending + [Entry(time, request, |pending|)];
      }
    }

    /** `sorted` is the buffer after the standard sort, which is not modelled beyond its promise. */
    method SequenceAndPublish(sorted: seq<Entry>)
      requires Valid() && IsSort(sorted, pending)
      modifies this
      ensures Valid() && pending == []
      ensures published == old(published) + Requests(Sequenced(old(pending)))
      ensures forall client | OneTime(old(pending), client) ::
                OfClient(published, client)
                == OfClient(old(published), client) + OfClient(Requests(old(pending)), client)
    {
      ghost var was, batch := published, pending;
      SortIsSequenced(sorted, batch);
      assert was + Requests(sorted[..0]) == was;
      for i := 0 to |sorted|
        invariant published == was + Requests(sorted[..i]) && pending == batch
      {
        assert Requests(sorted[..i + 1]) == Requests(sorted[..i]) + [sorted[i].request];
        published := published + [sorted[i].request];
      }
      assert sorted[..|sorted|] == sorted;
      pending := [];
      forall client | OneTime(batch, client)
        ensures OfClient(published, client) == OfClient(was, client) + OfClient(Requests(batch), client) {
        KeepsClientOrder(batch, client);
        OfClientConcat(was, Requests(sorted), client);
      }
    }
  }
}
