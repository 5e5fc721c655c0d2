/** Every gateway and the server over reliable byte pipes with arbitrary chunking,
  * poll cycle by poll cycle: what the engine is handed from one client is, in
  * order, a prefix of what that client's gateway was asked to send.
  */
module Session {
  import opened Types
  import opened Wire
  import opened Sequencers
  import opened OrderEntry

  /** One connection from end to end. `sent` and `arrived` record the requests given
    * to the gateway and the bytes that reached the server; `past` is what the engine
    * was handed from the client's earlier sessions.
    */
  datatype Gateway = Gateway(client: nat, nextSeq: nat, sent: seq<Request>, sendBuf: seq<Byte>, pipe: seq<Byte>,
                             rcvBuf: seq<Byte>, arrived: seq<Byte>, past: seq<Request>)

  function FreshGateway(client: nat, past: seq<Request>): Gateway {
    Gateway(client, 1, [], [], [], [], [], past)
  }

  datatype World = World(gateways: seq<Gateway>, server: Server, published: seq<Request>)

  /** One socket read of a poll cycle: how much was there, and its receive time. */
  datatype Read = Read(socket: nat, size: nat, time: nat)

  datatype Event =
    | Send(gateway: nat, request: Request)
    | Flush(gateway: nat, size: nat)
    | Poll(batch: seq<Read>)
    | Renew(gateway: nat)

  function Start(clients: nat, ids: seq<nat>): (w: World)
    ensures |w.gateways| == |ids|
    ensures forall i | 0 <= i < |ids| :: w.gateways[i] == FreshGateway(ids[i], [])
  {
    World(seq(|ids|, i requires 0 <= i < |ids| => FreshGateway(ids[i], [])), FreshServer(clients), [])
  }

  /** A poll cycle reads a socket once. */
  predicate OnceEach(batch: seq<Read>) {
    forall i, j | 0 <= i < j < |batch| :: batch[i].socket != batch[j].socket
  }

  /** One read: some of the pipe arrives, and its complete frames are checked. */
  function ReadOne(w: World, d: Read): (r: World)
    requires OrderEntry.Sized(w.server)
    ensures OrderEntry.Sized(r.server) && r.server.nextOut == w.server.nextOut
    ensures |r.gateways| == |w.gateways| && r.published == w.published
  {
    if d.socket >= |w.gateways| || d.size > |w.gateways[d.socket].pipe| then w
    else
      var g := w.gateways[d.socket];
      var buf := g.rcvBuf + g.pipe[..d.size];
      w.(server := AdmitAll(w.server, d.socket, d.time, Frames(buf)),
         gateways := w.gateways[d.socket := g.(pipe := g.pipe[d.size..], rcvBuf := Leftover(buf),
                                               arrived := g.arrived + g.pipe[..d.size])])
  }

  function ReadAll(w: World, batch: seq<Read>): (r: World)
    requires OrderEntry.Sized(w.server)
    ensures OrderEntry.Sized(r.server) && r.server.nextOut == w.server.nextOut
    ensures |r.gateways| == |w.gateways| && r.published == w.published
  {
    if batch == [] then w else ReadOne(ReadAll(w, batch[..|batch| - 1]), batch[|batch| - 1])
  }

  /** The end of a cycle. */
  function Publish(w: World): World {
    w.(published := w.published + Requests(Sequenced(w.server.pending)), server := w.server.(pending := []))
  }

  /** `Renew`: the connection of a gateway dies, the server lets go of its socket, and a fresh
    * gateway of the client connects; what was on its way is lost.
    */
  function Next(w: World, e: Event): (r: World)
    requires OrderEntry.Sized(w.server)
    ensures OrderEntry.Sized(r.server) && |r.gateways| == |w.gateways|
  {
    match e
    case Send(i, q) =>
      if i >= |w.gateways| then w
      else
        var g := w.gateways[i];
        var f := Frame(g.nextSeq, q);
        if q.client != g.client || q.kind == OtherRequest || !Fits(f) then w
        else w.(gateways := w.gateways[i := g.(nextSeq := g.nextSeq + 1, sent := g.sent + [q],
                                               sendBuf := g.sendBuf + Encode(f))])
    case Flush(i, k) =>
      if i >= |w.gateways| || k > |w.gateways[i].sendBuf| then w
      else
        var g := w.gateways[i];
        w.(gateways := w.gateways[i := g.(pipe := g.pipe + g.sendBuf[..k], sendBuf := g.sendBuf[k..])])
    case Poll(batch) =>
      if !OnceEach(batch) then w else Publish(ReadAll(w, batch))
    case Renew(i) =>
      if i >= |w.gateways| then w
      else
        var c := w.gateways[i].client;
        w.(server := Disconnected(w.server, i),
           gateways := w.gateways[i := FreshGateway(c, OfClient(w.published, c))])
  }

  function Reach(clients: nat, ids: seq<nat>, events: seq<Event>): (w: World)
    ensures OrderEntry.Sized(w.server) && |w.gateways| == |ids|
  {
    if events == [] then Start(clients, ids)
    else Next(Reach(clients, ids, events[..|events| - 1]), events[|events| - 1])
  }

  // ---------- the invariant ----------

  /** The frames of a session. */
  function Numbered(sent: seq<Request>): (fs: seq<Frame>)
    ensures |fs| == |sent| && forall j | 0 <= j < |fs| :: fs[j] == Frame(j + 1, sent[j])
  {
    seq(|sent|, j requires 0 <= j < |sent| => Frame(j + 1, sent[j]))
  }

  /** Every byte sent is in exactly one of three places, in order. */
  ghost predicate PipeOk(g: Gateway) {
    && g.nextSeq == |g.sent| + 1
    && g.arrived + g.pipe + g.sendBuf == EncodeAll(Numbered(g.sent))
    && g.rcvBuf == Leftover(g.arrived)
    && (forall f | f in Numbered(g.sent) :: Fits(f) && f.request.client == g.client && f.request.kind != OtherRequest)
  }

  /** The server took every frame that arrived on the client's own socket. */
  ghost predicate TakenOk(w: World, i: nat)
    requires i < |w.gateways|
  {
    var g, s := w.gateways[i], w.server;
    && g.client < |s.socketOf| == |s.nextSeq| == |s.nextOut|
    && s.socketOf[g.client] == (if Frames(g.arrived) == [] then NO_SOCKET else i)
    && Frames(g.arrived) <= Numbered(g.sent)
    && s.nextSeq[g.client] == |Frames(g.arrived)| + 1
    && OfClient(w.published + Requests(s.pending), g.client) == g.past + g.sent[..|Frames(g.arrived)|]
  }

  /** Different gateways serve different clients the server knows of. */
  ghost predicate OwnIds(clients: nat, ids: seq<nat>) {
    && (forall i | 0 <= i < |ids| :: ids[i] < clients)
    && (forall i, j | 0 <= i < j < |ids| :: ids[i] != ids[j])
  }

  ghost predicate ClientsAre(w: World, clients: nat, ids: seq<nat>) {
    && |w.gateways| == |ids| && |w.server.socketOf| == |w.server.nextSeq| == |w.server.nextOut| == clients
    && (forall i | 0 <= i < |ids| :: w.gateways[i].client == ids[i])
  }

  ghost predicate Ok(w: World, clients: nat, ids: seq<nat>) {
    && ClientsAre(w, clients, ids) && Stamped(w.server.pending)
    && (forall i | 0 <= i < |ids| :: PipeOk(w.gateways[i]))
    && (forall i | 0 <= i < |ids| :: TakenOk(w, i))
  }

  // ---------- admitting a run of frames ----------

  /** Frames `fs` are the next ones of the session of client `c` on socket `i`. */
  ghost predicate InSession(s: Server, i: nat, c: nat, fs: seq<Frame>) {
    && c < |s.socketOf| == |s.nextSeq| == |s.nextOut| && (s.socketOf[c] == i || s.socketOf[c] == NO_SOCKET)
    && (forall j | 0 <= j < |fs| :: fs[j].seqNum == s.nextSeq[c] + j && fs[j].request.client == c
                                    && fs[j].request.kind != OtherRequest)
  }

  function RequestsOf(fs: seq<Frame>): (r: seq<Request>)
    ensures |r| == |fs| && forall j | 0 <= j < |r| :: r[j] == fs[j].request
  {
    seq(|fs|, j requires 0 <= j < |fs| => fs[j].request)
  }

  /** None of them is refused, and nobody else's session changes. */
  lemma {:induction false} AdmitRun(s: Server, i: nat, time: nat, c: nat, fs: seq<Frame>)
    requires InSession(s, i, c, fs) && Stamped(s.pending)
    ensures var t := AdmitAll(s, i, time, fs);
            && |t.socketOf| == |s.socketOf| && |t.nextSeq| == |s.nextSeq| && t.nextOut == s.nextOut
            && Stamped(t.pending)
            && t.socketOf[c] == (if fs == [] then s.socketOf[c] else i) && t.nextSeq[c] == s.nextSeq[c] + |fs|
            && (forall d | 0 <= d < |s.socketOf| && d != c ::
                  t.socketOf[d] == s.socketOf[d] && t.nextSeq[d] == s.nextSeq[d])
            && |t.pending| == |s.pending| + |fs| && t.pending[..|s.pending|] == s.pending
            && (forall j | 0 <= j < |fs| :: t.pending[|s.pending| + j] == Entry(time, fs[j].request, |s.pending| + j))
    decreases |fs|
  {
    if fs != [] {
      var u := Admit(s, i, time, fs[0]);
      assert fs[0].seqNum == s.nextSeq[c] + 0;
      assert u.pending == s.pending + [Entry(time, fs[0].request, |s.pending|)];
      assert u.nextSeq[c] == s.nextSeq[c] + 1 && u.socketOf[c] == i;
      AdmitRun(u, i, time, c, fs[1..]);
      var t := AdmitAll(s, i, time, fs);
      assert t == AdmitAll(u, i, time, fs[1..]);
      forall j | 0 <= j < |fs| ensures t.pending[|s.pending| + j] == Entry(time, fs[j].request, |s.pending| + j) {
        if j > 0 {
          assert fs[j] == fs[1..][j - 1];
        } else {
          assert t.pending[..|u.pending|][|s.pending|] == t.pending[|s.pending|];
        }
      }
      assert t.pending[..|s.pending|] == t.pending[..|u.pending|][..|s.pending|];
    }
  }

  // ---------- sending and flushing ----------

  lemma {:induction false} NumberedAppend(sent: seq<Request>, q: Request)
    ensures Numbered(sent + [q]) == Numbered(sent) + [Frame(|sent| + 1, q)]
  {
  }

  lemma {:induction false} SendPipe(g: Gateway, q: Request)
    requires PipeOk(g) && q.client == g.client && q.kind != OtherRequest && Fits(Frame(g.nextSeq, q))
    ensures PipeOk(g.(nextSeq := g.nextSeq + 1, sent := g.sent + [q],
            sendBuf := g.sendBuf + Encode(Frame(g.nextSeq, q))))
  {
    hide Encode, Fits, EncodeAll, Leftover;
    var f := Frame(g.nextSeq, q);
    NumberedAppend(g.sent, q);
    EncodeAllAppend(Numbered(g.sent), f);
    assert g.arrived + g.pipe + (g.sendBuf + Encode(f)) == g.arrived + g.pipe + g.sendBuf + Encode(f);
  }

  /** What the server has taken does not depend on what was sent after it. */
  lemma {:induction false} TakenStays(w: World, v: World, i: nat)
    requires i < |w.gateways| == |v.gateways| && TakenOk(w, i) && v.server == w.server && v.published == w.published
    requires var g, h := w.gateways[i], v.gateways[i];
             h.client == g.client && h.arrived == g.arrived && h.past == g.past && g.sent <= h.sent
    ensures TakenOk(v, i)
  {
    hide Frames, OfClient;
    var g, h := w.gateways[i], v.gateways[i];
    var n := |Frames(g.arrived)|;
    assert n <= |g.sent| && h.sent[..n] == g.sent[..n];
    assert Numbered(g.sent) <= Numbered(h.sent);
  }

  lemma {:induction false} SendOk(w: World, clients: nat, ids: seq<nat>, i: nat, q: Request)
    requires Ok(w, clients, ids)
    ensures Ok(Next(w, Send(i, q)), clients, ids)
  {
    hide PipeOk, TakenOk, Fits, Encode;
    var v := Next(w, Send(i, q));
    if v != w {
      SendPipe(w.gateways[i], q);
      forall j | 0 <= j < |ids| ensures TakenOk(v, j) && PipeOk(v.gateways[j]) {
        TakenStays(w, v, j);
      }
    }
  }

  lemma {:induction false} FlushOk(w: World, clients: nat, ids: seq<nat>, i: nat, k: nat)
    requires Ok(w, clients, ids)
    ensures Ok(Next(w, Flush(i, k)), clients, ids)
  {
    hide TakenOk, Fits, EncodeAll, Leftover, Numbered;
    var v := Next(w, Flush(i, k));
    if v != w {
      var g := w.gateways[i];
      assert PipeOk(g);
      assert g.arrived + (g.pipe + g.sendBuf[..k]) + g.sendBuf[k..] == g.arrived + g.pipe + g.sendBuf;
      assert PipeOk(v.gateways[i]);
      hide PipeOk;
      forall j | 0 <= j < |ids| ensures TakenOk(v, j) && PipeOk(v.gateways[j]) {
        TakenStays(w, v, j);
      }
    }
  }

  // ---------- reading ----------

  /** A frame run that parses out of a pipe continues the session. */
  lemma {:induction false} NextFrames(g: Gateway, size: nat)
    requires PipeOk(g) && size <= |g.pipe| && Frames(g.arrived) <= Numbered(g.sent)
    ensures var buf := g.rcvBuf + g.pipe[..size];
            var n, k := |Frames(g.arrived)|, |Frames(buf)|;
            && Frames(g.arrived + g.pipe[..size]) == Frames(g.arrived) + Frames(buf)
            && Leftover(g.arrived + g.pipe[..size]) == Leftover(buf)
            && n + k <= |g.sent| && Frames(buf) == Numbered(g.sent)[n..n + k]
            && Frames(g.arrived + g.pipe[..size]) <= Numbered(g.sent)
  {
    hide Frames, Leftover, EncodeAll, Fits;
    var chunk := g.pipe[..size];
    FramesConcat(g.arrived, chunk);
    assert g.arrived + g.pipe + g.sendBuf == g.arrived + chunk + (g.pipe[size..] + g.sendBuf);
    FramesOfPrefix(Numbered(g.sent), g.arrived + chunk);
    var n, k := |Frames(g.arrived)|, |Frames(g.rcvBuf + chunk)|;
    assert Numbered(g.sent)[..n + k] == Frames(g.arrived) + Frames(g.rcvBuf + chunk);
  }

  lemma {:induction false} AllOfClient(rs: seq<Request>, c: nat)
    requires forall q | q in rs :: q.client == c
    ensures OfClient(rs, c) == rs
    ensures forall d | d != c :: OfClient(rs, d) == []
  {
    if rs != [] {
      assert rs[|rs| - 1] in rs;
      AllOfClient(rs[..|rs| - 1], c);
    }
  }

  /** What one read does to the server and to the records of all clients. */
  ghost predicate ReadSo(w: World, v: World, i: nat, time: nat, fs: seq<Frame>)
    requires i < |w.gateways| == |v.gateways|
  {
    var c, s, t := w.gateways[i].client, w.server, v.server;
    && v.published == w.published
    && v.gateways[i].client == c && v.gateways[i].sent == w.gateways[i].sent && v.gateways[i].past == w.gateways[i].past
    && (forall j | 0 <= j < |w.gateways| && j != i :: v.gateways[j] == w.gateways[j])
    && c < |s.socketOf| == |t.socketOf| && |s.nextSeq| == |t.nextSeq| && t.nextOut == s.nextOut
    && |s.socketOf| == |s.nextSeq| == |s.nextOut| && Stamped(t.pending)
    && t.socketOf[c] == (if fs == [] then s.socketOf[c] else i) && t.nextSeq[c] == s.nextSeq[c] + |fs|
    && (forall d | 0 <= d < |s.socketOf| && d != c :: t.socketOf[d] == s.socketOf[d] && t.nextSeq[d] == s.nextSeq[d])
    && |t.pending| == |s.pending| + |fs| && t.pending[..|s.pending|] == s.pending
    && (forall j | 0 <= j < |fs| :: fs[j].request.client == c
          && t.pending[|s.pending| + j] == Entry(time, fs[j].request, |s.pending| + j))
  }

  /** What a read parses is the next part of the session. */
  lemma {:induction false} ReadInSession(w: World, clients: nat, ids: seq<nat>, d: Read)
    requires Ok(w, clients, ids) && d.socket < |ids| && d.size <= |w.gateways[d.socket].pipe|
    ensures var g := w.gateways[d.socket];
            InSession(w.server, d.socket, g.client, Frames(g.rcvBuf + g.pipe[..d.size]))
  {
    hide Frames, Leftover, EncodeAll, OfClient, Fits;
    var g := w.gateways[d.socket];
    assert PipeOk(g) && TakenOk(w, d.socket);
    NextFrames(g, d.size);
    var fs := Frames(g.rcvBuf + g.pipe[..d.size]);
    var n := |Frames(g.arrived)|;
    forall j | 0 <= j < |fs|
      ensures fs[j].seqNum == w.server.nextSeq[g.client] + j && fs[j].request.client == g.client
              && fs[j].request.kind != OtherRequest {
      assert fs[j] == Numbered(g.sent)[n + j] && Numbered(g.sent)[n + j] in Numbered(g.sent);
    }
  }

  lemma {:induction false} ReadDoes(w: World, clients: nat, ids: seq<nat>, d: Read)
    requires Ok(w, clients, ids) && d.socket < |ids| && d.size <= |w.gateways[d.socket].pipe|
    ensures var g := w.gateways[d.socket];
            var fs := Frames(g.rcvBuf + g.pipe[..d.size]);
            ReadSo(w, ReadOne(w, d), d.socket, d.time, fs)
  {
    hide Frames, Leftover, EncodeAll, OfClient, AdmitAll, TakenOk, PipeOk, Numbered;
    var g := w.gateways[d.socket];
    ReadInSession(w, clients, ids, d);
    AdmitRun(w.server, d.socket, d.time, g.client, Frames(g.rcvBuf + g.pipe[..d.size]));
  }

  /** The records after a read: the reader's grew by its frames, the others' did not. */
  lemma {:induction false} ReadRecords(w: World, v: World, i: nat, time: nat, fs: seq<Frame>, client: nat)
    requires i < |w.gateways| == |v.gateways| && ReadSo(w, v, i, time, fs)
    ensures OfClient(v.published + Requests(v.server.pending), client)
         == OfClient(w.published + Requests(w.server.pending), client)
            + if client == w.gateways[i].client then RequestsOf(fs) else []
  {
    hide OfClient;
    var p, q := Requests(w.server.pending), Requests(v.server.pending);
    assert q == p + RequestsOf(fs) by {
      assert forall k | 0 <= k < |p| :: v.server.pending[k] == v.server.pending[..|p|][k];
      assert forall k | |p| <= k < |q| :: v.server.pending[k] == v.server.pending[|p| + (k - |p|)];
    }
    AllOfClient(RequestsOf(fs), w.gateways[i].client);
    OfClientConcat(w.published + p, RequestsOf(fs), client);
    assert w.published + (p + RequestsOf(fs)) == w.published + p + RequestsOf(fs);
  }

  lemma {:induction false} ReaderPipe(w: World, clients: nat, ids: seq<nat>, d: Read)
    requires Ok(w, clients, ids) && d.socket < |ids| && d.size <= |w.gateways[d.socket].pipe|
    ensures PipeOk(ReadOne(w, d).gateways[d.socket])
  {
    hide Frames, Leftover, EncodeAll, OfClient, AdmitAll, Fits, Numbered;
    var g := w.gateways[d.socket];
    assert PipeOk(g) && TakenOk(w, d.socket);
    NextFrames(g, d.size);
    assert g.arrived + g.pipe[..d.size] + g.pipe[d.size..] + g.sendBuf == g.arrived + g.pipe + g.sendBuf;
  }

  /** The reader's record grows by the requests whose frames were read. */
  lemma {:induction false} ReaderRecord(w: World, clients: nat, ids: seq<nat>, d: Read)
    requires Ok(w, clients, ids) && d.socket < |ids| && d.size <= |w.gateways[d.socket].pipe|
    ensures var g, v := w.gateways[d.socket], ReadOne(w, d);
            var n := |Frames(g.arrived)| + |Frames(g.rcvBuf + g.pipe[..d.size])|;
            n <= |g.sent| && OfClient(v.published + Requests(v.server.pending), g.client) == g.past + g.sent[..n]
  {
    hide Frames, Leftover, EncodeAll, OfClient, AdmitAll, Fits, Numbered, PipeOk, ReadOne, ReadSo;
    var g, v := w.gateways[d.socket], ReadOne(w, d);
    var fs, n := Frames(g.rcvBuf + g.pipe[..d.size]), |Frames(g.arrived)|;
    assert PipeOk(g) && TakenOk(w, d.socket);
    NextFrames(g, d.size);
    ReadDoes(w, clients, ids, d);
    ReadRecords(w, v, d.socket, d.time, fs, g.client);
    SameRequests(g.sent, fs, n);
    assert g.past + g.sent[..n] + g.sent[n..n + |fs|] == g.past + g.sent[..n + |fs|];
  }

  lemma {:induction false} ReaderTaken(w: World, clients: nat, ids: seq<nat>, d: Read)
    requires Ok(w, clients, ids) && d.socket < |ids| && d.size <= |w.gateways[d.socket].pipe|
    ensures TakenOk(ReadOne(w, d), d.socket)
  {
    hide Frames, Leftover, EncodeAll, OfClient, AdmitAll, Fits, Numbered, PipeOk;
    var g := w.gateways[d.socket];
    assert PipeOk(g) && TakenOk(w, d.socket);
    NextFrames(g, d.size);
    ReadDoes(w, clients, ids, d);
    ReaderRecord(w, clients, ids, d);
  }

  lemma {:induction false} SameRequests(sent: seq<Request>, fs: seq<Frame>, n: nat)
    requires n + |fs| <= |sent| && fs == Numbered(sent)[n..n + |fs|]
    ensures RequestsOf(fs) == sent[n..n + |fs|]
  {
  }

  lemma {:induction false} OtherTaken(w: World, v: World, clients: nat, ids: seq<nat>, i: nat, time: nat,
          fs: seq<Frame>, j: nat)
    requires Ok(w, clients, ids) && OwnIds(clients, ids) && i < |ids| && j < |ids| && j != i && |v.gateways| == |ids|
    requires ReadSo(w, v, i, time, fs)
    ensures TakenOk(v, j) && PipeOk(v.gateways[j])
  {
    hide Frames, Leftover, EncodeAll, OfClient, Fits, Numbered, PipeOk;
    assert TakenOk(w, j) && PipeOk(w.gateways[j]);
    assert w.gateways[j].client == ids[j] && w.gateways[i].client == ids[i] && ids[i] != ids[j];
    ReadRecords(w, v, i, time, fs, ids[j]);
    assert OfClient(v.published + Requests(v.server.pending), ids[j])
        == OfClient(w.published + Requests(w.server.pending), ids[j]);
  }

  lemma {:induction false} ReadOneOk(w: World, clients: nat, ids: seq<nat>, d: Read)
    requires Ok(w, clients, ids) && OwnIds(clients, ids)
    ensures Ok(ReadOne(w, d), clients, ids)
  {
    hide TakenOk, PipeOk, OwnIds, AdmitAll;
    var v := ReadOne(w, d);
    if d.socket < |w.gateways| && d.size <= |w.gateways[d.socket].pipe| {
      var g := w.gateways[d.socket];
      var fs := Frames(g.rcvBuf + g.pipe[..d.size]);
      ReadDoes(w, clients, ids, d);
      ReaderPipe(w, clients, ids, d);
      ReaderTaken(w, clients, ids, d);
      forall j | 0 <= j < |ids| && j != d.socket ensures TakenOk(v, j) && PipeOk(v.gateways[j]) {
        OtherTaken(w, v, clients, ids, d.socket, d.time, fs, j);
      }
    } else {
      assert v == w;
    }
  }

  // ---------- a poll cycle ----------

  /** Before its socket is read in a cycle a client has nothing pending; after it, what
    * it has pending came with one read.
    */
  ghost predicate ReadOnce(w: World, ids: seq<nat>, batch: seq<Read>) {
    forall i | 0 <= i < |ids| ::
      && OneTime(w.server.pending, ids[i])
      && ((forall d | d in batch :: d.socket != i) ==> forall e | e in w.server.pending :: e.request.client != ids[i])
  }

  lemma {:induction false} ReadOnceStep(w: World, v: World, ids: seq<nat>, batch: seq<Read>, d: Read, fs: seq<Frame>)
    requires d.socket < |w.gateways| == |v.gateways| == |ids| && ReadSo(w, v, d.socket, d.time, fs)
    requires w.gateways[d.socket].client == ids[d.socket] && (forall i, j | 0 <= i < j < |ids| :: ids[i] != ids[j])
    requires ReadOnce(w, ids, batch) && forall x | x in batch :: x.socket != d.socket
    ensures ReadOnce(v, ids, batch + [d])
  {
    var p, q, c := w.server.pending, v.server.pending, ids[d.socket];
    assert forall k | 0 <= k < |p| :: q[k] == q[..|p|][k];
    assert forall k | |p| <= k < |q| :: q[k].request.client == c && q[k].time == d.time by {
      forall k | |p| <= k < |q| ensures q[k].request.client == c && q[k].time == d.time {
        var j := k - |p|;
        assert q[|p| + j] == Entry(d.time, fs[j].request, |p| + j);
      }
    }
    forall i | 0 <= i < |ids|
      ensures OneTime(q, ids[i])
      ensures (forall x | x in batch + [d] :: x.socket != i) ==> forall e | e in q :: e.request.client != ids[i] {
      assert OneTime(p, ids[i]);
      if i == d.socket {
        assert forall e | e in p :: e.request.client != c;
        assert d in batch + [d];
      } else {
        assert ids[i] != c;
        assert forall x | x in batch :: x in batch + [d];
      }
    }
  }

  lemma {:induction false} NothingRead(w: World, ids: seq<nat>)
    requires w.server.pending == []
    ensures ReadOnce(w, ids, [])
  {
  }

  lemma {:induction false} ReadAllOk(w: World, clients: nat, ids: seq<nat>, batch: seq<Read>)
    requires Ok(w, clients, ids) && OwnIds(clients, ids) && w.server.pending == [] && OnceEach(batch)
    ensures Ok(ReadAll(w, batch), clients, ids) && ReadOnce(ReadAll(w, batch), ids, batch)
  {
    hide PipeOk, TakenOk, OwnIds, ReadOne, ReadOnce;
    if batch == [] {
      NothingRead(w, ids);
    } else {
      var init, d := batch[..|batch| - 1], batch[|batch| - 1];
      ReadAllOk(w, clients, ids, init);
      var u := ReadAll(w, init);
      ReadOneOk(u, clients, ids, d);
      ReadAllStep(u, clients, ids, init, d);
      assert init + [d] == batch;
    }
  }

  lemma {:induction false} ReadAllStep(u: World, clients: nat, ids: seq<nat>, init: seq<Read>, d: Read)
    requires Ok(u, clients, ids) && OwnIds(clients, ids) && ReadOnce(u, ids, init)
    requires forall x | x in init :: x.socket != d.socket
    ensures ReadOnce(ReadOne(u, d), ids, init + [d])
  {
    hide PipeOk, TakenOk, AdmitAll, ReadOnce;
    if d.socket < |u.gateways| && d.size <= |u.gateways[d.socket].pipe| {
      ReadDoes(u, clients, ids, d);
      var g := u.gateways[d.socket];
      ReadOnceStep(u, ReadOne(u, d), ids, init, d, Frames(g.rcvBuf + g.pipe[..d.size]));
    } else {
      ReadOnceIdle(u, ids, init, d);
    }
  }

  lemma {:induction false} ReadOnceIdle(u: World, ids: seq<nat>, init: seq<Read>, d: Read)
    requires ReadOnce(u, ids, init)
    ensures ReadOnce(u, ids, init + [d])
  {
    assert forall x | x in init :: x in init + [d];
  }

  lemma {:induction false} PublishTaken(w: World, clients: nat, ids: seq<nat>, i: nat)
    requires Ok(w, clients, ids) && i < |ids| && OneTime(w.server.pending, ids[i])
    ensures TakenOk(Publish(w), i)
  {
    hide OfClient, Frames, Numbered, Sequenced, OneTime, PipeOk;
    assert TakenOk(w, i);
    var p, c := w.server.pending, ids[i];
    KeepsClientOrder(p, c);
    OfClientConcat(w.published, Requests(p), c);
    OfClientConcat(w.published, Requests(Sequenced(p)), c);
    var v := Publish(w);
    assert v.published + Requests([]) == v.published;
  }

  lemma {:induction false} PollOk(w: World, clients: nat, ids: seq<nat>, batch: seq<Read>)
    requires Ok(w, clients, ids) && OwnIds(clients, ids) && w.server.pending == []
    ensures Ok(Next(w, Poll(batch)), clients, ids) && Next(w, Poll(batch)).server.pending == []
  {
    hide PipeOk, TakenOk, OwnIds, Sequenced;
    if OnceEach(batch) {
      ReadAllOk(w, clients, ids, batch);
      var u := ReadAll(w, batch);
      forall i | 0 <= i < |ids| ensures TakenOk(Publish(u), i) {
        PublishTaken(u, clients, ids, i);
      }
    }
  }

  lemma {:induction false} FreshPipe(client: nat, past: seq<Request>)
    ensures PipeOk(FreshGateway(client, past)) && Frames([]) == []
  {
    hide Fits;
    FramesFirst([]);
    assert EncodeAll(Numbered([])) == [];
  }

  /** A fresh gateway finds the server waiting for its number 1. */
  lemma {:induction false} RenewedTaken(w: World, clients: nat, ids: seq<nat>, i: nat)
    requires Ok(w, clients, ids) && i < |ids| && w.server.pending == []
    ensures var v := Next(w, Renew(i)); TakenOk(v, i) && PipeOk(v.gateways[i])
  {
    hide OfClient, PipeOk, Numbered, Frames;
    assert TakenOk(w, i);
    var v := Next(w, Renew(i));
    FreshPipe(v.gateways[i].client, v.gateways[i].past);
    assert v.published + Requests([]) == v.published;
    assert v.gateways[i].past + [] == v.gateways[i].past;
  }

  lemma {:induction false} RenewOk(w: World, clients: nat, ids: seq<nat>, i: nat)
    requires Ok(w, clients, ids) && OwnIds(clients, ids) && w.server.pending == []
    ensures Ok(Next(w, Renew(i)), clients, ids) && Next(w, Renew(i)).server.pending == []
  {
    hide PipeOk, OfClient, Frames, Numbered;
    var v := Next(w, Renew(i));
    if i < |w.gateways| {
      RenewedTaken(w, clients, ids, i);
      forall j | 0 <= j < |ids| && j != i ensures TakenOk(v, j) && PipeOk(v.gateways[j]) {
        assert TakenOk(w, j) && ids[i] != ids[j];
      }
    }
  }

  lemma {:induction false} StartOk(clients: nat, ids: seq<nat>)
    requires OwnIds(clients, ids)
    ensures Ok(Start(clients, ids), clients, ids) && Start(clients, ids).server.pending == []
  {
    hide PipeOk, Numbered, Frames;
    forall i | 0 <= i < |ids| ensures PipeOk(FreshGateway(ids[i], [])) && Frames([]) == [] {
      FreshPipe(ids[i], []);
    }
  }

  lemma {:induction false} ReachOk(clients: nat, ids: seq<nat>, events: seq<Event>)
    requires OwnIds(clients, ids)
    ensures Ok(Reach(clients, ids, events), clients, ids) && Reach(clients, ids, events).server.pending == []
  {
    hide Ok, OwnIds, Start, Next;
    if events == [] {
      StartOk(clients, ids);
    } else {
      var w, e := Reach(clients, ids, events[..|events| - 1]), events[|events| - 1];
      ReachOk(clients, ids, events[..|events| - 1]);
      StepOk(w, clients, ids, e);
    }
  }

  lemma {:induction false} StepOk(w: World, clients: nat, ids: seq<nat>, e: Event)
    requires Ok(w, clients, ids) && OwnIds(clients, ids) && w.server.pending == []
    ensures Ok(Next(w, e), clients, ids) && Next(w, e).server.pending == []
  {
    hide Ok, OwnIds, Encode;
    match e
    case Send(i, q) => SendOk(w, clients, ids, i, q);
    case Flush(i, k) => FlushOk(w, clients, ids, i, k);
    case Poll(batch) => PollOk(w, clients, ids, batch);
    case Renew(i) => RenewOk(w, clients, ids, i);
  }

  /** Whatever the chunking, the interleaving of clients and the clocks: the engine's
    * requests from one client are, in order, exactly those among the requests given to
    * its gateway whose frames have arrived, behind those of its earlier sessions. None is
    * refused, lost or repeated, and every session is taken from its number 1 on.
    */
  lemma {:induction false} SessionOrder(clients: nat, ids: seq<nat>, events: seq<Event>, i: nat)
    requires OwnIds(clients, ids) && i < |ids|
    ensures var w := Reach(clients, ids, events);
            var g := w.gateways[i];
            && |Frames(g.arrived)| <= |g.sent|
            && OfClient(w.published, ids[i]) == g.past + g.sent[..|Frames(g.arrived)|]
            && (g.sendBuf == [] && g.pipe == [] ==> OfClient(w.published, ids[i]) == g.past + g.sent)
  {
    hide Frames, OfClient, EncodeAll, Fits, Leftover, OwnIds;
    ReachOk(clients, ids, events);
    var w := Reach(clients, ids, events);
    var g := w.gateways[i];
    assert TakenOk(w, i) && PipeOk(g);
    assert w.published + Requests([]) == w.published;
    if g.sendBuf == [] && g.pipe == [] {
      assert g.arrived + g.pipe + g.sendBuf == g.arrived;
      FramesOfPrefix(Numbered(g.sent), g.arrived);
      assert g.sent[..|g.sent|] == g.sent;
    }
  }

  /** When a connection dies in a poll cycle's gap, what its session contributed is exactly its
    * requests whose frames had arrived, and the server waits for number 1 of the next one.
    */
  lemma {:induction false} SessionEnds(clients: nat, ids: seq<nat>, events: seq<Event>, i: nat)
    requires OwnIds(clients, ids) && i < |ids|
    ensures var w := Reach(clients, ids, events);
            var g, v := w.gateways[i], Next(w, Renew(i));
            && |Frames(g.arrived)| <= |g.sent|
            && v.gateways[i] == FreshGateway(ids[i], g.past + g.sent[..|Frames(g.arrived)|])
            && v.published == w.published && ids[i] < |v.server.nextSeq| == |v.server.socketOf|
            && v.server.nextSeq[ids[i]] == 1 && v.server.socketOf[ids[i]] == NO_SOCKET
  {
    hide Frames, OfClient, EncodeAll, Fits, Leftover, OwnIds, PipeOk;
    SessionOrder(clients, ids, events, i);
    ReachOk(clients, ids, events);
    assert TakenOk(Reach(clients, ids, events), i);
  }

  /** Nobody else's session ends with it, and the next one of this client is answered from number 1. */
  lemma {:induction false} EndsAlone(w: World, clients: nat, ids: seq<nat>, i: nat, j: nat)
    requires Ok(w, clients, ids) && OwnIds(clients, ids) && OrderEntry.Sized(w.server) && i < |ids| && j < |ids|
    ensures var v := Next(w, Renew(i));
            && ids[j] < |w.server.socketOf| == |v.server.socketOf|
            && (j != i ==> v.gateways[j] == w.gateways[j]
                           && v.server.socketOf[ids[j]] == w.server.socketOf[ids[j]]
                           && v.server.nextSeq[ids[j]] == w.server.nextSeq[ids[j]]
                           && v.server.nextOut[ids[j]] == w.server.nextOut[ids[j]])
            && (j == i && w.server.socketOf[ids[i]] != NO_SOCKET ==> v.server.nextOut[ids[i]] == 1)
  {
    hide Frames, Numbered, OfClient, PipeOk;
    assert TakenOk(w, i) && TakenOk(w, j);
  }

  /** Until then the server takes nothing of the client from another socket, so a session that
    * starts before the old connection was let go loses its number 1, and all that follows it.
    */
  lemma {:induction false} HeldRefuses(s: Server, socket: nat, time: nat, c: nat, fs: seq<Frame>)
    requires OrderEntry.Sized(s) && c < |s.socketOf| && s.socketOf[c] != NO_SOCKET && s.socketOf[c] != socket
    requires forall f | f in fs :: f.request.client == c
    ensures AdmitAll(s, socket, time, fs) == s
    decreases |fs|
  {
    if fs != [] {
      assert fs[0] in fs;
      HeldRefuses(s, socket, time, c, fs[1..]);
    }
  }

  /** A session whose next frame is not the number the server waits for is refused for good. */
  lemma {:induction false} GapRefuses(s: Server, socket: nat, time: nat, c: nat, fs: seq<Frame>)
    requires OrderEntry.Sized(s) && c < |s.socketOf| && s.socketOf[c] == socket
    requires forall f | f in fs :: f.request.client == c && f.seqNum != s.nextSeq[c]
    ensures AdmitAll(s, socket, time, fs) == s
    decreases |fs|
  {
    if fs != [] {
      assert fs[0] in fs;
      GapRefuses(s, socket, time, c, fs[1..]);
    }
  }

  // ---------- progress ----------

  /** A request given to the gateway, everything it has waiting flushed, and one read of all there is. */
  function Carry(w: World, i: nat, q: Request, time: nat): seq<Event>
    requires i < |w.gateways|
  {
    var k := |w.gateways[i].sendBuf| + FRAME_SIZE;
    [Send(i, q), Flush(i, k), Poll([Read(i, |w.gateways[i].pipe| + k, time)])]
  }

  lemma {:induction false} ReachAppend(clients: nat, ids: seq<nat>, before: seq<Event>, e: Event)
    ensures Reach(clients, ids, before + [e]) == Next(Reach(clients, ids, before), e)
  {
    hide Next;
    assert (before + [e])[..|before|] == before;
  }

  lemma {:induction false} ReachThree(clients: nat, ids: seq<nat>, events: seq<Event>, a: Event, b: Event, c: Event)
    ensures Reach(clients, ids, events + [a, b, c]) == Next(Next(Next(Reach(clients, ids, events), a), b), c)
  {
    hide Next, Reach;
    ReachAppend(clients, ids, events, a);
    ReachAppend(clients, ids, events + [a], b);
    ReachAppend(clients, ids, events + [a] + [b], c);
    assert events + [a] + [b] + [c] == events + [a, b, c];
  }

  /** After the flush everything the gateway was given is in the pipe or at the server. */
  lemma {:induction false} CarryFlushes(w: World, i: nat, q: Request)
    requires OrderEntry.Sized(w.server) && i < |w.gateways|
    requires q.client == w.gateways[i].client && q.kind != OtherRequest && Fits(Frame(w.gateways[i].nextSeq, q))
    ensures var g, k := w.gateways[i], |w.gateways[i].sendBuf| + FRAME_SIZE;
            var v := Next(Next(w, Send(i, q)), Flush(i, k));
            && |v.gateways| == |w.gateways| && v.server == w.server && v.published == w.published
            && v.gateways[i].sent == g.sent + [q] && v.gateways[i].past == g.past
            && v.gateways[i].sendBuf == [] && |v.gateways[i].pipe| == |g.pipe| + k
  {
    hide Fits, Encode;
  }

  lemma {:induction false} PollReads(w: World, i: nat, time: nat)
    requires OrderEntry.Sized(w.server) && i < |w.gateways|
    ensures var v := Next(w, Poll([Read(i, |w.gateways[i].pipe|, time)]));
            && |v.gateways| == |w.gateways| && v.gateways[i].pipe == []
            && v.gateways[i].sent == w.gateways[i].sent && v.gateways[i].past == w.gateways[i].past
            && v.gateways[i].sendBuf == w.gateways[i].sendBuf
  {
    hide AdmitAll, Frames, Leftover, Sequenced, Requests;
    var d := Read(i, |w.gateways[i].pipe|, time);
    assert [d][..0] == [] && ReadAll(w, [d]) == ReadOne(w, d);
  }

  /** From every reachable state, a request that fits its frame reaches the engine: once the pieces
    * have been moved and read, the engine has been handed everything the gateway was given.
    */
  lemma {:induction false} Delivers(clients: nat, ids: seq<nat>, events: seq<Event>, i: nat, q: Request, time: nat)
    requires OwnIds(clients, ids) && i < |ids|
    requires var g := Reach(clients, ids, events).gateways[i];
             q.client == ids[i] && q.kind != OtherRequest && Fits(Frame(g.nextSeq, q))
    ensures var w := Reach(clients, ids, events);
            var v := Reach(clients, ids, events + Carry(w, i, q, time));
            OfClient(v.published, ids[i]) == w.gateways[i].past + (w.gateways[i].sent + [q])
  {
    hide Next, Fits, Reach, OwnIds, OfClient;
    var w := Reach(clients, ids, events);
    GatewayClient(clients, ids, events, i);
    var k := |w.gateways[i].sendBuf| + FRAME_SIZE;
    var poll := Poll([Read(i, |w.gateways[i].pipe| + k, time)]);
    ReachThree(clients, ids, events, Send(i, q), Flush(i, k), poll);
    CarryFlushes(w, i, q);
    PollReads(Next(Next(w, Send(i, q)), Flush(i, k)), i, time);
    SessionOrder(clients, ids, events + Carry(w, i, q, time), i);
  }

  lemma {:induction false} GatewayClient(clients: nat, ids: seq<nat>, events: seq<Event>, i: nat)
    requires OwnIds(clients, ids) && i < |ids|
    ensures Reach(clients, ids, events).gateways[i].client == ids[i]
  {
    hide PipeOk, TakenOk, OwnIds;
    ReachOk(clients, ids, events);
  }
}
