/** The way back: the server numbers a client's responses, a byte pipe carries them in
  * arbitrary pieces, and the gateway checks and passes them on.
  */
module Downlink {
  import opened Types
  import opened OrderEntry
  import R = ResponseWire
  import W = Wire

  /** One connection's way back. `arrived` records the bytes that reached the gateway. */
  datatype Link = Link(sendBuf: seq<W.Byte>, pipe: seq<W.Byte>, rcvBuf: seq<W.Byte>, arrived: seq<W.Byte>, ear: Ear)

  const FRESH_LINK := Link([], [], [], [], Ear(1, []))

  /** The server hands a numbered response to the connection. */
  function Sent(k: Link, n: nat, r: Response): Link {
    k.(sendBuf := k.sendBuf + R.Encode(R.Frame(n, r)))
  }

  function Flushed(k: Link, size: nat): Link
    requires size <= |k.sendBuf|
  {
    k.(pipe := k.pipe + k.sendBuf[..size], sendBuf := k.sendBuf[size..])
  }

  /** The gateway reads some of what is there. */
  function Read(client: nat, k: Link, size: nat): Link
    requires size <= |k.pipe|
  {
    var buf := k.rcvBuf + k.pipe[..size];
    k.(pipe := k.pipe[size..], rcvBuf := R.Leftover(buf), arrived := k.arrived + k.pipe[..size],
       ear := HearAll(client, k.ear, R.Frames(buf)))
  }

  function Numbered(rs: seq<Response>): (fs: seq<R.Frame>)
    ensures |fs| == |rs| && forall j | 0 <= j < |fs| :: fs[j] == R.Frame(j + 1, rs[j])
  {
    seq(|rs|, j requires 0 <= j < |rs| => R.Frame(j + 1, rs[j]))
  }

  /** Every byte of the responses `rs` is in one of three places, and the gateway has passed on
    * exactly those whose frames have arrived.
    */
  ghost predicate LinkOk(client: nat, k: Link, rs: seq<Response>) {
    && k.arrived + k.pipe + k.sendBuf == R.EncodeAll(Numbered(rs))
    && k.rcvBuf == R.Leftover(k.arrived)
    && (forall f | f in Numbered(rs) :: R.Fits(f) && f.response.client == client)
    && R.Frames(k.arrived) <= Numbered(rs)
    && k.ear == Ear(|R.Frames(k.arrived)| + 1, rs[..|R.Frames(k.arrived)|])
  }

  lemma {:induction false} FreshLinkOk(client: nat, k: Link)
    requires k.sendBuf == k.pipe == k.rcvBuf == k.arrived == [] && k.ear == Ear(1, [])
    ensures LinkOk(client, k, [])
  {
    hide R.Frames, R.Leftover, R.EncodeAll, R.Fits;
    R.FramesFirst([]);
    NothingEncoded();
  }

  lemma {:induction false} NothingEncoded()
    ensures R.EncodeAll(Numbered([])) == []
  {
    assert R.EncodeEach(Numbered([])) == [];
  }

  /** A response goes behind what was sent. */
  lemma {:induction false} SentOk(client: nat, k: Link, rs: seq<Response>, r: Response)
    requires LinkOk(client, k, rs) && r.client == client && R.Fits(R.Frame(|rs| + 1, r))
    ensures LinkOk(client, Sent(k, |rs| + 1, r), rs + [r])
  {
    hide R.Encode, R.EncodeAll, R.Frames, R.Leftover, R.Fits;
    var f := R.Frame(|rs| + 1, r);
    assert Numbered(rs + [r]) == Numbered(rs) + [f];
    R.EncodeAllAppend(Numbered(rs), f);
    assert k.arrived + k.pipe + (k.sendBuf + R.Encode(f)) == k.arrived + k.pipe + k.sendBuf + R.Encode(f);
    assert (rs + [r])[..|R.Frames(k.arrived)|] == rs[..|R.Frames(k.arrived)|];
  }

  lemma {:induction false} FlushedOk(client: nat, k: Link, rs: seq<Response>, size: nat)
    requires LinkOk(client, k, rs) && size <= |k.sendBuf|
    ensures LinkOk(client, Flushed(k, size), rs)
  {
    hide R.EncodeAll, R.Frames, R.Leftover, R.Fits, Numbered;
    assert k.arrived + (k.pipe + k.sendBuf[..size]) + k.sendBuf[size..] == k.arrived + k.pipe + k.sendBuf;
  }

  /** The gateway accepts every frame of its session. */
  lemma {:induction false} HearRun(client: nat, e: Ear, fs: seq<R.Frame>, rs: seq<Response>)
    requires |fs| == |rs| && forall j | 0 <= j < |fs| ::
             fs[j] == R.Frame(e.nextExp + j, rs[j]) && rs[j].client == client
    ensures HearAll(client, e, fs) == Ear(e.nextExp + |fs|, e.heard + rs)
    decreases |fs|
  {
    if fs == [] {
      assert e.heard + rs == e.heard;
    } else {
      assert fs[0] == R.Frame(e.nextExp + 0, rs[0]);
      var next := Hear(client, e, fs[0]);
      assert next == Ear(e.nextExp + 1, e.heard + [rs[0]]);
      forall j | 0 <= j < |fs[1..]|
        ensures fs[1..][j] == R.Frame(next.nextExp + j, rs[1..][j]) && rs[1..][j].client == client {
        assert fs[1..][j] == fs[j + 1];
      }
      HearRun(client, next, fs[1..], rs[1..]);
      assert e.heard + [rs[0]] + rs[1..] == e.heard + rs;
    }
  }

  /** What a read parses continues the session. */
  lemma {:induction false} NextResponses(client: nat, k: Link, rs: seq<Response>, size: nat)
    requires LinkOk(client, k, rs) && size <= |k.pipe|
    ensures var buf := k.rcvBuf + k.pipe[..size];
            var n, m := |R.Frames(k.arrived)|, |R.Frames(buf)|;
            && |R.Frames(k.arrived + k.pipe[..size])| == n + m <= |rs|
            && R.Frames(k.arrived + k.pipe[..size]) <= Numbered(rs)
            && R.Leftover(k.arrived + k.pipe[..size]) == R.Leftover(buf)
            && (forall j | 0 <= j < m :: R.Frames(buf)[j] == R.Frame(n + 1 + j, rs[n + j]))
  {
    hide R.Frames, R.Leftover, R.EncodeAll, R.Fits, LinkOk, Numbered;
    LinkParts(client, k, rs);
    var chunk := k.pipe[..size];
    R.FramesConcat(k.arrived, chunk);
    Arrives(k.arrived, k.pipe, k.sendBuf, size);
    R.FramesOfPrefix(Numbered(rs), k.arrived + chunk);
    Continues(R.Frames(k.arrived), R.Frames(k.rcvBuf + chunk), rs);
  }

  lemma {:induction false} LinkParts(client: nat, k: Link, rs: seq<Response>)
    requires LinkOk(client, k, rs)
    ensures k.arrived + k.pipe + k.sendBuf == R.EncodeAll(Numbered(rs)) && k.rcvBuf == R.Leftover(k.arrived)
    ensures forall f | f in Numbered(rs) :: R.Fits(f)
  {
  }

  lemma {:induction false} Arrives(a: seq<W.Byte>, b: seq<W.Byte>, c: seq<W.Byte>, size: nat)
    requires size <= |b|
    ensures a + b[..size] <= a + b + c
    ensures a + b[..size] + b[size..] + c == a + b + c
  {
    assert b == b[..size] + b[size..];
  }

  /** Frames behind those of a session continue its numbers. */
  lemma {:induction false} Continues(a: seq<R.Frame>, b: seq<R.Frame>, rs: seq<Response>)
    requires a + b <= Numbered(rs)
    ensures |a| + |b| <= |rs| && forall j | 0 <= j < |b| :: b[j] == R.Frame(|a| + 1 + j, rs[|a| + j])
  {
    forall j | 0 <= j < |b| ensures b[j] == R.Frame(|a| + 1 + j, rs[|a| + j]) {
      assert (a + b)[|a| + j] == b[j] && (a + b)[|a| + j] == Numbered(rs)[|a| + j];
    }
  }

  lemma {:induction false} ReadOk(client: nat, k: Link, rs: seq<Response>, size: nat)
    requires LinkOk(client, k, rs) && size <= |k.pipe|
    ensures LinkOk(client, Read(client, k, size), rs)
  {
    hide R.EncodeAll, R.Frames, R.Leftover, R.Fits, HearAll;
    var chunk := k.pipe[..size];
    var n, fs := |R.Frames(k.arrived)|, R.Frames(k.rcvBuf + chunk);
    NextResponses(client, k, rs, size);
    var more := rs[n..n + |fs|];
    forall j | 0 <= j < |fs| ensures fs[j] == R.Frame(n + 1 + j, more[j]) && more[j].client == client {
      assert Numbered(rs)[n + j] in Numbered(rs);
    }
    HearRun(client, k.ear, fs, more);
    assert rs[..n] + more == rs[..n + |fs|];
    Arrives(k.arrived, k.pipe, k.sendBuf, size);
  }
}
