/** Order entry over TCP: sockets that send and receive in arbitrary pieces, the
  * gateway that numbers a client's requests, and the server that parses, checks
  * and sequences them.
  */
module OrderEntry {
  import opened Types
  import opened Wire
  import opened Sequencers
  import R = ResponseWire

  const NO_SOCKET: int := -1

  /** What the server knows of its clients, by client id: socket, next number of a request and
    * of a response; and the requests of this poll cycle.
    */
  datatype Server = Server(socketOf: seq<int>, nextSeq: seq<nat>, nextOut: seq<nat>, pending: seq<Entry>)

  predicate Sized(s: Server) {
    |s.socketOf| == |s.nextSeq| == |s.nextOut|
  }

  function FreshServer(clients: nat): (s: Server)
    ensures Sized(s)
  {
    Server(seq(clients, _ => NO_SOCKET), seq(clients, _ => 1), seq(clients, _ => 1), [])
  }

  /** One received frame: type, client, socket and sequence checks, in this order. A
    * client's first request claims its id for the socket, whatever its number.
    */
  function Admit(s: Server, socket: nat, time: nat, f: Frame): (r: Server)
    requires Sized(s)
    ensures Sized(r) && r.nextOut == s.nextOut
  {
    var c := f.request.client;
    if f.request.kind == OtherRequest || c >= |s.socketOf| then s
    else
      var t := if s.socketOf[c] == NO_SOCKET then s.(socketOf := s.socketOf[c := socket]) else s;
      if t.socketOf[c] != socket || f.seqNum != t.nextSeq[c] then t
      else t.(nextSeq := t.nextSeq[c := t.nextSeq[c] + 1],
              pending := t.pending + [Entry(time, f.request, |t.pending|)])
  }

  function AdmitAll(s: Server, socket: nat, time: nat, fs: seq<Frame>): (r: Server)
    requires Sized(s)
    ensures Sized(r) && r.nextOut == s.nextOut
    decreases |fs|
  {
    if fs == [] then s else AdmitAll(Admit(s, socket, time, fs[0]), socket, time, fs[1..])
  }

  /** A frame adds at most one request to the cycle and takes none away. */
  lemma {:induction false} AdmitAllGrows(s: Server, socket: nat, time: nat, fs: seq<Frame>)
    requires Sized(s)
    ensures |s.pending| <= |AdmitAll(s, socket, time, fs).pending| <= |s.pending| + |fs|
    decreases |fs|
  {
    if fs != [] {
      AdmitAllGrows(Admit(s, socket, time, fs[0]), socket, time, fs[1..]);
    }
  }

  /** A dead socket: its clients may start new sessions. */
  function Disconnected(s: Server, socket: nat): (r: Server)
    requires Sized(s)
    ensures Sized(r)
  {
    s.(socketOf := seq(|s.socketOf|, c requires 0 <= c < |s.socketOf| =>
                         if s.socketOf[c] == socket then NO_SOCKET else s.socketOf[c]),
       nextSeq := seq(|s.nextSeq|, c requires 0 <= c < |s.nextSeq| =>
                        if s.socketOf[c] == socket then 1 else s.nextSeq[c]),
       nextOut := seq(|s.nextOut|, c requires 0 <= c < |s.nextOut| =>
                        if s.socketOf[c] == socket then 1 else s.nextOut[c]))
  }

  /** The client of a response has a socket to send it to. */
  predicate Routed(s: Server, r: Response)
    requires Sized(s)
  {
    r.client < |s.socketOf| && s.socketOf[r.client] != NO_SOCKET
  }

  /** A response that is sent takes its client's next number; any other is dropped. */
  function Answered(s: Server, r: Response): (t: Server)
    requires Sized(s)
    ensures Sized(t)
  {
    if Routed(s, r) then s.(nextOut := s.nextOut[r.client := s.nextOut[r.client] + 1]) else s
  }

  /** What a gateway expects next and has passed on. */
  datatype Ear = Ear(nextExp: nat, heard: seq<Response>)

  /** One received response: it must be the client's and carry the expected number. */
  function Hear(client: nat, e: Ear, f: R.Frame): Ear {
    if f.response.client != client || f.seqNum != e.nextExp then e
    else Ear(e.nextExp + 1, e.heard + [f.response])
  }

  /** Only a response to this client under the expected number is passed on; it moves the number on. */
  ghost predicate Listened(client: nat, e: Ear, f: R.Frame, g: Ear) {
    var mine := f.response.client == client && f.seqNum == e.nextExp;
    && g.nextExp == e.nextExp + (if mine then 1 else 0)
    && g.heard == e.heard + (if mine then [f.response] else [])
  }

  lemma {:induction false} HearListens(client: nat, e: Ear, f: R.Frame)
    ensures Listened(client, e, f, Hear(client, e, f))
  {
    assert e.heard + [] == e.heard;
  }

  function HearAll(client: nat, e: Ear, fs: seq<R.Frame>): Ear
    decreases |fs|
  {
    if fs == [] then e else HearAll(client, Hear(client, e, fs[0]), fs[1..])
  }

  /** How many of `n` waiting bytes a kernel takes that answers successive calls with `results`:
    * a number of bytes taken, never more than offered, 0 for "would block", anything
    * negative for a dead connection. When the answers run out it would block.
    */
  function TakenBy(n: nat, results: seq<int>): (k: nat)
    ensures k <= n
  {
    if n == 0 || results == [] || results[0] <= 0 then 0
    else if results[0] >= n then n
    else results[0] + TakenBy(n - results[0], results[1..])
  }

  /** Some answer is "dead" while bytes still wait. */
  predicate DiesOn(n: nat, results: seq<int>) {
    && n != 0 && results != []
    && (results[0] < 0 || (0 < results[0] < n && DiesOn(n - results[0], results[1..])))
  }

  function Sum(ks: seq<int>): int {
    if ks == [] then 0 else ks[0] + Sum(ks[1..])
  }

  /** The answers count up to the first that is not positive: the kernel takes their sum, or all
    * there is, and the connection dies exactly if that first one is negative and comes in time.
    */
  lemma {:induction false} TakenIs(n: nat, results: seq<int>) returns (p: nat)
    ensures p <= |results| && (forall i | 0 <= i < p :: 0 < results[i]) && (p < |results| ==> results[p] <= 0)
    ensures 0 <= Sum(results[..p]) && TakenBy(n, results) == (if Sum(results[..p]) < n then Sum(results[..p]) else n)
    ensures DiesOn(n, results) <==> p < |results| && results[p] < 0 && Sum(results[..p]) < n
    decreases |results|
  {
    p := 0;
    if results != [] && results[0] > 0 {
      var q := TakenIs(if results[0] < n then n - results[0] else 0, results[1..]);
      p := q + 1;
      assert results[..p][1..] == results[1..][..q];
      assert forall i | 0 < i < p :: results[i] == results[1..][i - 1];
    }
  }

  /** What the checks of one frame come to: a socket that may speak for the client claims its id,
    * and a frame with the expected number is queued under its arrival.
    */
  ghost predicate Checked(s: Server, socket: nat, time: nat, f: Frame, t: Server)
    requires Sized(s)
  {
    var c, q := f.request.client, f.request;
    var speaks := q.kind != OtherRequest && c < |s.socketOf| && (s.socketOf[c] == NO_SOCKET || s.socketOf[c] == socket);
    var taken := speaks && f.seqNum == s.nextSeq[c];
    && |t.socketOf| == |s.socketOf| && |t.nextSeq| == |s.nextSeq| && t.nextOut == s.nextOut
    && (forall d | 0 <= d < |s.socketOf| :: t.socketOf[d] == if speaks && d == c then socket else s.socketOf[d])
    && (forall d | 0 <= d < |s.nextSeq| :: t.nextSeq[d] == if taken && d == c then s.nextSeq[d] + 1 else s.nextSeq[d])
    && |t.pending| == |s.pending| + (if taken then 1 else 0) && s.pending <= t.pending
    && (taken ==> var e := t.pending[|s.pending|]; e.time == time && e.request == q && e.arrival == |s.pending|)
  }

  lemma {:induction false} AdmitChecks(s: Server, socket: nat, time: nat, f: Frame)
    requires Sized(s)
    ensures Checked(s, socket, time, f, Admit(s, socket, time, f))
  {
  }

  lemma {:induction false} Extended(s: seq<Byte>, i: nat, j: nat)
    requires i <= j <= |s|
    ensures s[..i] + s[i..j] == s[..j]
  {
  }

  lemma {:induction false} CutIs(s: seq<Byte>, k: nat)
    requires k <= |s|
    ensures s[..k] <= s && s[..k] + s[k..] == s && (k == |s| ==> s[..k] + [] == s)
  {
  }

  lemma {:induction false} Rejoined(s: seq<Byte>, t: seq<Byte>, k: nat)
    requires k <= |t|
    ensures s + t[..k] + t[k..] == s + t
  {
  }

  /** One answer that takes something. */
  lemma {:induction false} TakenNext(n: nat, results: seq<int>, i: nat)
    requires 0 < n && i < |results| && 0 < results[i]
    ensures var k := if results[i] <= n then results[i] else n;
            && TakenBy(n, results[i..]) == k + TakenBy(n - k, results[i + 1..])
            && (DiesOn(n, results[i..]) <==> DiesOn(n - k, results[i + 1..]))
  {
    assert results[i..][1..] == results[i + 1..];
  }

  /** Nothing waits, no answer is left, or the next one takes nothing. */
  lemma {:induction false} TakenLast(n: nat, results: seq<int>, i: nat)
    requires i <= |results| && (n == 0 || i == |results| || results[i] <= 0)
    ensures TakenBy(n, results[i..]) == 0
    ensures DiesOn(n, results[i..]) <==> n != 0 && i < |results| && results[i] < 0
  {
  }

  /** A non-blocking socket with its two buffers. */
  class TCPSocket {
    const id: nat
    const sendBuffer: array<Byte>
    const rcvBuffer: array<Byte>
    var sendValid: nat
    var rcvValid: nat
    var sendDisconnected: bool

    ghost predicate Valid()
      reads this
    {
      sendValid <= sendBuffer.Length && rcvValid <= rcvBuffer.Length && sendBuffer != rcvBuffer
    }

    /** The bytes not yet taken by the kernel. */
    ghost function Unsent(): (s: seq<Byte>)
      requires Valid()
      reads this, sendBuffer
      ensures |s| == sendValid
    {
      sendBuffer[..sendValid]
    }

    /** The bytes not yet parsed. */
    ghost function Unparsed(): seq<Byte>
      requires Valid()
      reads this, rcvBuffer
    {
      rcvBuffer[..rcvValid]
    }

    constructor (id: nat, bufferSize: nat)
      ensures Valid() && this.id == id && Unsent() == [] && Unparsed() == [] && !sendDisconnected
      ensures fresh(sendBuffer) && fresh(rcvBuffer)
      ensures sendBuffer.Length == rcvBuffer.Length == bufferSize
    {
      this.id := id;
      sendBuffer := new Byte[bufferSize](_ => 0);
      rcvBuffer := new Byte[bufferSize](_ => 0);
      sendValid, rcvValid, sendDisconnected := 0, 0, false;
    }

    /** `send`: a copy behind what is waiting; no room is fatal in the original. */
    method Send(data: seq<Byte>) returns (ok: bool)
      requires Valid()
      modifies this`sendValid, sendBuffer
      ensures Valid() && ok == (old(sendValid) + |data| <= sendBuffer.Length)
      ensures Unsent() == if ok then old(Unsent()) + data else old(Unsent())
    {
      ok := sendValid + |data| <= sendBuffer.Length;
      if ok {
        forall i | 0 <= i < |data| {
          sendBuffer[sendValid + i] := data[i];
        }
        sendValid := sendValid + |data|;
      }
    }

    /** The number of a frame and its payload, sent one after the other. */
    method SendFrame(bytes: seq<Byte>) returns (ok: bool)
      requires Valid() && 8 <= |bytes|
      modifies this`sendValid, sendBuffer
      ensures Valid() && ok == (old(sendValid) + |bytes| <= sendBuffer.Length)
      ensures ok ==> Unsent() == old(Unsent()) + bytes
    {
      hide Unsent;
      Rejoined(Unsent(), bytes, 8);
      ok := Send(bytes[..8]);
      if ok {
        ok := Send(bytes[8..]);
      }
    }

    /** The calls to the kernel: each is offered what the ones before it left. */
    method Offer(results: seq<int>) returns (taken: seq<Byte>, dead: bool)
      requires Valid()
      ensures |taken| == TakenBy(sendValid, results) && taken == Unsent()[..|taken|]
      ensures dead <==> DiesOn(sendValid, results)
    {
      hide TakenBy, DiesOn;
      var i := 0;
      taken := [];
      assert results[0..] == results;
      while |taken| < sendValid && i < |results| && results[i] > 0
        invariant i <= |results| && |taken| <= sendValid && taken == Unsent()[..|taken|]
        invariant TakenBy(sendValid, results) == |taken| + TakenBy(sendValid - |taken|, results[i..])
        invariant DiesOn(sendValid, results) <==> DiesOn(sendValid - |taken|, results[i..])
      {
        var left := sendValid - |taken|;
        TakenNext(left, results, i);
        var n := if results[i] <= left then results[i] else left;
        Extended(Unsent(), |taken|, |taken| + n);
        taken := taken + sendBuffer[|taken|..|taken| + n];
        i := i + 1;
      }
      TakenLast(sendValid - |taken|, results, i);
      dead := |taken| < sendValid && i < |results| && results[i] < 0;
    }

    /** What was not sent moves to the front, in order. */
    method Keep(sent: nat)
      requires Valid() && sent <= sendValid
      modifies this`sendValid, sendBuffer
      ensures Valid() && Unsent() == old(Unsent())[sent..]
    {
      ghost var all := Unsent();
      forall j | 0 <= j < sendValid - sent {
        sendBuffer[j] := sendBuffer[sent + j];
      }
      sendValid := sendValid - sent;
      assert forall j | 0 <= j < sendValid :: sendBuffer[j] == all[sent + j];
    }

    /** The sending half of `sendAndRecv`, with the kernel's answers `results`. Exactly what the
      * kernel took is gone, and no byte is lost, repeated or reordered while the connection
      * lives; it dies exactly on such an answer.
      */
    method Flush(results: seq<int>) returns (taken: seq<Byte>)
      requires Valid()
      modifies this`sendValid, this`sendDisconnected, sendBuffer
      ensures Valid() && taken <= old(Unsent()) && |taken| == TakenBy(|old(Unsent())|, results)
      ensures sendDisconnected <==> old(sendDisconnected) || DiesOn(|old(Unsent())|, results)
      ensures sendDisconnected ==> Unsent() == []
      ensures !sendDisconnected ==> taken + Unsent() == old(Unsent())
    {
      hide TakenBy, DiesOn, Unsent;
      ghost var all := Unsent();
      var dead;
      taken, dead := Offer(results);
      CutIs(all, |taken|);
      if dead {
        sendDisconnected := true;
      }
      if sendDisconnected {
        sendValid := 0;
      } else if |taken| < sendValid {
        Keep(|taken|);
      } else {
        sendValid := 0;
      }
    }

    /** The receiving half: the kernel delivers some bytes, as many as fit. */
    method Receive(data: seq<Byte>)
      requires Valid() && rcvValid + |data| <= rcvBuffer.Length
      modifies this`rcvValid, rcvBuffer
      ensures Valid() && Unparsed() == old(Unparsed()) + data
    {
      forall i | 0 <= i < |data| {
        rcvBuffer[rcvValid + i] := data[i];
      }
      rcvValid := rcvValid + |data|;
    }

    /** The single compaction after parsing. */
    method Compact(offset: nat)
      requires Valid() && offset <= rcvValid
      modifies this`rcvValid, rcvBuffer
      ensures Valid() && Unparsed() == old(Unparsed())[offset..]
    {
      ghost var all := Unparsed();
      forall j | 0 <= j < rcvValid - offset {
        rcvBuffer[j] := rcvBuffer[offset + j];
      }
      rcvValid := rcvValid - offset;
      assert forall j | 0 <= j < rcvValid :: rcvBuffer[j] == all[offset + j];
    }
  }

  class OrderGateway {
    const client: nat
    const socket: TCPSocket
    var nextSeq: nat
    var nextExp: nat
    var incoming: seq<Response>

    function Listening(): Ear
      reads this
    {
      Ear(nextExp, incoming)
    }

    constructor (client: nat, socket: TCPSocket)
      ensures this.client == client && this.socket == socket && nextSeq == 1 && Listening() == Ear(1, [])
    {
      this.client, this.socket, nextSeq, nextExp, incoming := client, socket, 1, 1, [];
    }

    /** `sendRequest`: number and payload go out back to back, as one frame. */
    method SendRequest(r: Request) returns (ok: bool)
      requires socket.Valid()
      modifies this`nextSeq, socket`sendValid, socket.sendBuffer
      ensures socket.Valid() && ok == (old(socket.sendValid) + FRAME_SIZE <= socket.sendBuffer.Length)
      ensures ok ==> nextSeq == old(nextSeq) + 1
                     && socket.Unsent() == old(socket.Unsent()) + Encode(Frame(old(nextSeq), r))
    {
      hide Encode, TCPSocket.Unsent;
      var bytes := Encode(Frame(nextSeq, r));
      ok := socket.SendFrame(bytes);
      if ok {
        nextSeq := nextSeq + 1;
      }
    }

    /** `processResponse`: the identity and sequence checks, then on to the strategy. */
    method ProcessResponse(f: R.Frame)
      modifies this`nextExp, this`incoming
      ensures Listening() == Hear(client, old(Listening()), f)
      ensures Listened(client, old(Listening()), f, Listening())
    {
      hide Listened;
      HearListens(client, Listening(), f);
      if f.response.client != client {
        return;
      }
      if f.seqNum != nextExp {
        return;
      }
      nextExp := nextExp + 1;
      incoming := incoming + [f.response];
    }

    /** `recvCallback`: every complete response is taken off the buffer; an incomplete one
      * stays at the front.
      */
    method RecvCallback()
      requires socket.Valid()
      modifies this`nextExp, this`incoming, socket`rcvValid, socket.rcvBuffer
      ensures socket.Valid() && socket.Unsent() == old(socket.Unsent())
      ensures socket.Unparsed() == R.Leftover(old(socket.Unparsed()))
      ensures Listening() == HearAll(client, old(Listening()), R.Frames(old(socket.Unparsed())))
    {
      hide Hear, R.Decode, R.Frames, R.Leftover;
      ghost var all, goal := socket.Unparsed(), HearAll(client, Listening(), R.Frames(socket.Unparsed()));
      var offset := 0;
      assert all[0..] == all;
      while socket.rcvValid - offset >= R.FRAME_SIZE
        invariant offset <= socket.rcvValid == |all| && socket.Valid() && socket.Unparsed() == all
        invariant goal == HearAll(client, Listening(), R.Frames(all[offset..]))
        invariant R.Leftover(all) == R.Leftover(all[offset..])
      {
        var bytes := socket.rcvBuffer[offset..offset + R.FRAME_SIZE];
        assert forall k | 0 <= k < R.FRAME_SIZE :: bytes[k] == socket.Unparsed()[offset + k];
        NextResponse(all, offset, bytes);
        HearNext(client, Listening(), R.Decode(bytes), R.Frames(all[offset + R.FRAME_SIZE..]));
        offset := offset + R.FRAME_SIZE;
        ProcessResponse(R.Decode(bytes));
      }
      R.FramesFirst(all[offset..]);
      if offset > 0 {
        socket.Compact(offset);
      }
    }
  }

  lemma {:induction false} HearNext(client: nat, e: Ear, f: R.Frame, fs: seq<R.Frame>)
    ensures HearAll(client, e, [f] + fs) == HearAll(client, Hear(client, e, f), fs)
  {
    assert ([f] + fs)[1..] == fs;
  }

  /** The response frame at `offset` and what is behind it. */
  lemma {:induction false} NextResponse(all: seq<Byte>, offset: nat, bytes: seq<Byte>)
    requires offset + R.FRAME_SIZE <= |all| && |bytes| == R.FRAME_SIZE
    requires forall k | 0 <= k < R.FRAME_SIZE :: bytes[k] == all[offset + k]
    ensures R.Frames(all[offset..]) == [R.Decode(bytes)] + R.Frames(all[offset + R.FRAME_SIZE..])
    ensures R.Leftover(all[offset..]) == R.Leftover(all[offset + R.FRAME_SIZE..])
  {
    hide R.Decode, R.Frames, R.Leftover;
    var rest := all[offset..];
    assert rest[..R.FRAME_SIZE] == bytes && rest[R.FRAME_SIZE..] == all[offset + R.FRAME_SIZE..];
    R.FramesFirst(rest);
  }

  /** The frame at `offset` and what is behind it. */
  lemma {:induction false} NextFrame(all: seq<Byte>, offset: nat, bytes: seq<Byte>)
    requires offset + FRAME_SIZE <= |all| && |bytes| == FRAME_SIZE
    requires forall k | 0 <= k < FRAME_SIZE :: bytes[k] == all[offset + k]
    ensures Frames(all[offset..]) == [Decode(bytes)] + Frames(all[offset + FRAME_SIZE..])
    ensures Leftover(all[offset..]) == Leftover(all[offset + FRAME_SIZE..])
  {
    hide Decode, Frames, Leftover;
    var rest := all[offset..];
    assert rest[..FRAME_SIZE] == bytes && rest[FRAME_SIZE..] == all[offset + FRAME_SIZE..];
    FramesFirst(rest);
  }

  class OrderServer {
    const socketOf: array<int>
    const nextSeq: array<nat>
    const nextOut: array<nat>
    const sequencer: FIFOSequencer

    ghost predicate Valid()
      reads this, sequencer
    {
      socketOf.Length == nextSeq.Length == nextOut.Length && nextSeq != nextOut && sequencer.Valid()
    }

    ghost function State(): (s: Server)
      requires Valid()
      reads this, sequencer, socketOf, nextSeq, nextOut
      ensures Sized(s)
    {
      Server(socketOf[..], nextSeq[..], nextOut[..], sequencer.pending)
    }

    constructor (clients: nat, capacity: nat)
      ensures Valid() && State() == FreshServer(clients) && sequencer.capacity == capacity && fresh(socketOf)
              && fresh(nextSeq) && fresh(nextOut) && fresh(sequencer)
    {
      socketOf := new int[clients](_ => NO_SOCKET);
      nextSeq := new nat[clients](_ => 1);
      nextOut := new nat[clients](_ => 1);
      sequencer := new FIFOSequencer(capacity);
      new;
      assert State() == FreshServer(clients);
    }

    /** The checks of one frame; it is fatal exactly when the sequencer has no room for its request. */
    method Accept(socket: nat, time: nat, f: Frame) returns (ok: bool)
      requires Valid()
      modifies socketOf, nextSeq, sequencer`pending
      ensures Valid() && (ok <==> |Admit(old(State()), socket, time, f).pending| <= sequencer.capacity)
      ensures ok ==> State() == Admit(old(State()), socket, time, f) && Checked(old(State()), socket, time, f, State())
    {
      hide Checked;
      AdmitChecks(State(), socket, time, f);
      var r := f.request;
      ok := true;
      if r.kind != NewRequest && r.kind != CancelRequest {
        return;
      }
      if r.client >= socketOf.Length {
        return;
      }
      if socketOf[r.client] == NO_SOCKET {
        socketOf[r.client] := socket;
      }
      if socketOf[r.client] != socket {
        return;
      }
      if f.seqNum != nextSeq[r.client] {
        return;
      }
      nextSeq[r.client] := nextSeq[r.client] + 1;
      ok := sequencer.AddClientRequest(time, r);
    }

    /** `recvCallback`: every complete frame is taken off the buffer and checked; an
      * incomplete one stays at the front. It fails exactly when the requests of this
      * cycle outgrow the sequencer.
      */
    method RecvCallback(socket: TCPSocket, time: nat) returns (ok: bool)
      requires Valid() && socket.Valid()
      modifies socketOf, nextSeq, sequencer`pending, socket`rcvValid, socket.rcvBuffer
      ensures Valid() && socket.Valid() && socket.Unsent() == old(socket.Unsent())
      ensures var s := AdmitAll(old(State()), socket.id, time, Frames(old(socket.Unparsed())));
              ok <==> |s.pending| <= sequencer.capacity
      ensures ok ==> socket.Unparsed() == Leftover(old(socket.Unparsed()))
                     && State() == AdmitAll(old(State()), socket.id, time, Frames(old(socket.Unparsed())))
    {
      hide Admit, Decode;
      ghost var all, goal := socket.Unparsed(), AdmitAll(State(), socket.id, time, Frames(socket.Unparsed()));
      var offset := 0;
      ok := true;
      assert all[0..] == all;
      while socket.rcvValid - offset >= FRAME_SIZE
        invariant offset <= socket.rcvValid == |all| && Valid() && socket.Valid() && socket.Unparsed() == all
        invariant goal == AdmitAll(State(), socket.id, time, Frames(all[offset..]))
        invariant Leftover(all) == Leftover(all[offset..])
      {
        var bytes := socket.rcvBuffer[offset..offset + FRAME_SIZE];
        assert forall k | 0 <= k < FRAME_SIZE :: bytes[k] == socket.Unparsed()[offset + k];
        NextFrame(all, offset, bytes);
        offset := offset + FRAME_SIZE;
        AdmitAllGrows(Admit(State(), socket.id, time, Decode(bytes)), socket.id, time, Frames(all[offset..]));
        ok := Accept(socket.id, time, Decode(bytes));
        if !ok {
          return;
        }
      }
      AdmitAllGrows(State(), socket.id, time, []);
      if offset > 0 {
        socket.Compact(offset);
      }
    }

    /** `sendAndRecv` on one socket of the read pass: the kernel delivers `data`, no more than
      * fits, the callback runs if that is anything, and the waiting bytes go out.
      */
    method SendAndRecv(socket: TCPSocket, data: seq<Byte>, time: nat, results: seq<int>)
      returns (ok: bool, taken: seq<Byte>)
      requires Valid() && socket.Valid() && socket.rcvValid + |data| <= socket.rcvBuffer.Length
      modifies socketOf, nextSeq, sequencer`pending, socket, socket.sendBuffer, socket.rcvBuffer
      ensures Valid() && socket.Valid()
      ensures var s := AdmitAll(old(State()), socket.id, time, Frames(old(socket.Unparsed()) + data));
              ok <==> data == [] || |s.pending| <= sequencer.capacity
      ensures data == [] ==> State() == old(State()) && socket.Unparsed() == old(socket.Unparsed())
      ensures ok && data != [] ==>
                && State() == AdmitAll(old(State()), socket.id, time, Frames(old(socket.Unparsed()) + data))
                && socket.Unparsed() == Leftover(old(socket.Unparsed()) + data)
      ensures ok ==> taken <= old(socket.Unsent()) && |taken| == TakenBy(|old(socket.Unsent())|, results)
                     && (socket.sendDisconnected <==>
                           old(socket.sendDisconnected) || DiesOn(|old(socket.Unsent())|, results))
                     && (if socket.sendDisconnected then socket.Unsent() == []
                         else taken + socket.Unsent() == old(socket.Unsent()))
    {
      hide AdmitAll, Frames, Leftover;
      ok, taken := true, [];
      if data != [] {
        socket.Receive(data);
        ok := RecvCallback(socket, time);
        if !ok {
          return;
        }
      }
      taken := socket.Flush(results);
    }

    /** One response of the engine: number and payload go out back to back, as one frame, to the
      * socket of its client, if it has one.
      */
    method Respond(r: Response, socket: TCPSocket) returns (ok: bool)
      requires Valid() && socket.Valid() && (Routed(State(), r) ==> socket.id == State().socketOf[r.client])
      modifies nextOut, socket`sendValid, socket.sendBuffer
      ensures Valid() && socket.Valid()
      ensures ok <==> !Routed(old(State()), r) || old(socket.sendValid) + R.FRAME_SIZE <= socket.sendBuffer.Length
      ensures ok ==> State() == Answered(old(State()), r)
      ensures ok ==> socket.Unsent() == if Routed(old(State()), r)
                                        then old(socket.Unsent()) + R.Encode(R.Frame(old(State()).nextOut[r.client], r))
                                        else old(socket.Unsent())
    {
      hide R.Encode, TCPSocket.Unsent;
      ok := true;
      if r.client < socketOf.Length && socketOf[r.client] != NO_SOCKET {
        var bytes := R.Encode(R.Frame(nextOut[r.client], r));
        ok := socket.SendFrame(bytes);
        if ok {
          nextOut[r.client] := nextOut[r.client] + 1;
        }
      }
    }

    /** A client's registration ends with its socket. */
    method Disconnect(socket: nat)
      requires Valid()
      modifies socketOf, nextSeq, nextOut
      ensures Valid() && State() == Disconnected(old(State()), socket)
    {
      var c := 0;
      while c < socketOf.Length
        invariant 0 <= c <= socketOf.Length && Valid()
        invariant forall d | 0 <= d < socketOf.Length ::
                    socketOf[d] == if d < c && old(socketOf[d]) == socket then NO_SOCKET else old(socketOf[d])
        invariant forall d | 0 <= d < nextSeq.Length ::
                    nextSeq[d] == if d < c && old(socketOf[d]) == socket then 1 else old(nextSeq[d])
        invariant forall d | 0 <= d < nextOut.Length ::
                    nextOut[d] == if d < c && old(socketOf[d]) == socket then 1 else old(nextOut[d])
      {
        if socketOf[c] == socket {
          socketOf[c] := NO_SOCKET;
          nextOut[c] := 1;
          nextSeq[c] := 1;
        }
        c := c + 1;
      }
    }
  }
}
