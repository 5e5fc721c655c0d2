/** The packed little-endian frame in which a numbered client request crosses the
  * wire, and the parsing of a byte stream into frames.
  */
module Wire {
  import opened Types

  type Byte = b: nat | b < 256

  /** The low `k` bytes of a number, least significant first. */
  function LittleEndian(n: nat, k: nat): (bs: seq<Byte>)
    ensures |bs| == k
  {
    if k == 0 then [] else [n % 256] + LittleEndian(n / 256, k - 1)
  }

  function Value(bs: seq<Byte>): nat {
    if bs == [] then 0 else bs[0] + 256 * Value(bs[1..])
  }

  /** One more than the largest number in `k` bytes. */
  function Bound(k: nat): nat {
    if k == 0 then 1 else 256 * Bound(k - 1)
  }

  lemma {:induction false} ValueOf(n: nat, k: nat)
    requires n < Bound(k)
    ensures Value(LittleEndian(n, k)) == n
  {
    if k != 0 {
      ValueOf(n / 256, k - 1);
      assert LittleEndian(n, k)[1..] == LittleEndian(n / 256, k - 1);
    }
  }

  /** Byte `i` of a number is its digit of weight 256 to the `i`. */
  lemma {:induction false} ByteAt(n: nat, k: nat, i: nat)
    requires i < k
    ensures 0 < Bound(i) && LittleEndian(n, k)[i] == (n / Bound(i)) % 256
  {
    BoundPositive(i);
    if i > 0 {
      ByteAt(n / 256, k - 1, i - 1);
      BoundPositive(i - 1);
      DivideTwice(n, Bound(i - 1));
    }
  }

  lemma {:induction false} BoundPositive(k: nat)
    ensures 0 < Bound(k)
  {
    if k > 0 {
      BoundPositive(k - 1);
    }
  }

  lemma {:induction false} DivideTwice(n: nat, m: nat)
    requires 0 < m
    ensures n / 256 / m == n / (256 * m)
  {
    var q := n / (256 * m);
    var r := n - 256 * m * q;
    assert 0 <= r < 256 * m;
    var a, b := r / 256, r % 256;
    assert n == 256 * (m * q + a) + b;
    assert n / 256 == m * q + a;
    assert 0 <= a < m;
    QuotientIs(m, q, a);
  }

  lemma {:induction false} QuotientIs(m: nat, q: nat, a: nat)
    requires a < m
    ensures (m * q + a) / m == q
  {
    var d, e := (m * q + a) / m, (m * q + a) % m;
    assert m * d + e == m * q + a;
    var gap := q - d;
    assert m * gap == m * q - m * d;
    Small(m, gap);
  }

  lemma {:induction false} Small(m: nat, k: int)
    requires -(m as int) < m * k < m
    ensures k == 0
  {
  }

  // ---------- streams ----------

  /** The complete pieces of `size` bytes at the front of a buffer. */
  function Pieces(size: nat, bs: seq<Byte>): (ps: seq<seq<Byte>>)
    requires 0 < size
    ensures forall p | p in ps :: |p| == size
    decreases |bs|
  {
    if |bs| < size then [] else [bs[..size]] + Pieces(size, bs[size..])
  }

  /** The incomplete piece behind them. */
  function Rest(size: nat, bs: seq<Byte>): (r: seq<Byte>)
    requires 0 < size
    ensures |r| < size
    decreases |bs|
  {
    if |bs| < size then bs else Rest(size, bs[size..])
  }

  lemma {:induction false} PiecesFirst(size: nat, bs: seq<Byte>)
    requires 0 < size
    ensures if |bs| < size then Pieces(size, bs) == [] && Rest(size, bs) == bs
            else && Pieces(size, bs) == [bs[..size]] + Pieces(size, bs[size..])
                 && Rest(size, bs) == Rest(size, bs[size..])
  {
  }

  function Join(ps: seq<seq<Byte>>): seq<Byte> {
    if ps == [] then [] else ps[0] + Join(ps[1..])
  }

  lemma {:induction false} JoinAppend(ps: seq<seq<Byte>>, p: seq<Byte>)
    ensures Join(ps + [p]) == Join(ps) + p
  {
    if ps == [] {
      assert ps + [p] == [p] && [p][1..] == [];
    } else {
      assert (ps + [p])[1..] == ps[1..] + [p];
      JoinAppend(ps[1..], p);
      assert ps[0] + (Join(ps[1..]) + p) == ps[0] + Join(ps[1..]) + p;
    }
  }

  /** It makes no difference in how many pieces a stream arrives. */
  lemma {:induction false} PiecesConcat(size: nat, a: seq<Byte>, b: seq<Byte>)
    requires 0 < size
    ensures Pieces(size, a + b) == Pieces(size, a) + Pieces(size, Rest(size, a) + b)
    ensures Rest(size, a + b) == Rest(size, Rest(size, a) + b)
    decreases |a|
  {
    hide Pieces, Rest;
    PiecesFirst(size, a);
    if |a| >= size {
      PiecesConcat(size, a[size..], b);
      PiecesFirst(size, a + b);
      assert (a + b)[..size] == a[..size] && (a + b)[size..] == a[size..] + b;
      var d, s, t := [a[..size]], Pieces(size, a[size..]), Pieces(size, Rest(size, a) + b);
      assert d + (s + t) == d + s + t;
    } else {
      assert [] + Pieces(size, a + b) == Pieces(size, a + b);
    }
  }

  /** Whatever arrived of a stream of pieces falls into the first of these pieces. */
  lemma {:induction false} PiecesOfPrefix(size: nat, ps: seq<seq<Byte>>, bs: seq<Byte>)
    requires 0 < size && bs <= Join(ps) && forall p | p in ps :: |p| == size
    ensures Pieces(size, bs) <= ps
    ensures bs == Join(ps) ==> Pieces(size, bs) == ps
    decreases |ps|
  {
    if ps == [] {
    } else if |bs| >= size {
      assert ps[0] in ps;
      assert bs[..size] == ps[0] && bs[size..] <= Join(ps[1..]);
      PiecesOfPrefix(size, ps[1..], bs[size..]);
      assert ps == [ps[0]] + ps[1..];
      if bs == Join(ps) {
        assert bs[size..] == Join(ps[1..]);
      }
    } else {
      assert ps[0] in ps;
      assert |Join(ps)| >= size;
    }
  }

  // ---------- client requests ----------

  /** A client request as it crosses the wire, with its session number. */
  datatype Frame = Frame(seqNum: nat, request: Request)

  const FRAME_SIZE: nat := 38

  function KindByte(kind: RequestKind): Byte {
    match kind
    case OtherRequest => 0
    case NewRequest => 1
    case CancelRequest => 2
  }

  function KindOf(b: Byte): RequestKind {
    if b == 1 then NewRequest else if b == 2 then CancelRequest else OtherRequest
  }

  /** SELL is -1, in two's complement. */
  function SideByte(side: Side): Byte {
    match side
    case NoSide => 0
    case Buy => 1
    case Sell => 255
  }

  function SideOf(b: Byte): Side {
    if b == 1 then Buy else if b == 255 then Sell else NoSide
  }

  /** Every field fits the integer that carries it. */
  predicate Fits(f: Frame) {
    && f.seqNum < Bound(8) && f.request.client < Bound(4) && f.request.ticker < Bound(4)
    && f.request.orderId < Bound(8) && f.request.price < Bound(8) && f.request.qty < Bound(4)
  }

  function Encode(f: Frame): (bs: seq<Byte>)
    ensures |bs| == FRAME_SIZE
  {
    var r := f.request;
    LittleEndian(f.seqNum, 8) + [KindByte(r.kind)] + LittleEndian(r.client, 4) + LittleEndian(r.ticker, 4)
    + LittleEndian(r.orderId, 8) + [SideByte(r.side)] + LittleEndian(r.price, 8) + LittleEndian(r.qty, 4)
  }

  function Decode(bs: seq<Byte>): Frame
    requires |bs| == FRAME_SIZE
  {
    Frame(Value(bs[..8]),
          Request(KindOf(bs[8]), Value(bs[9..13]), Value(bs[13..17]), Value(bs[17..25]),
                  SideOf(bs[25]), Value(bs[26..34]), Value(bs[34..])))
  }

  lemma {:induction false} FieldsOf(f: Frame)
    ensures var bs, r := Encode(f), f.request;
            && bs[..8] == LittleEndian(f.seqNum, 8) && bs[8] == KindByte(r.kind)
            && bs[9..13] == LittleEndian(r.client, 4) && bs[13..17] == LittleEndian(r.ticker, 4)
            && bs[17..25] == LittleEndian(r.orderId, 8) && bs[25] == SideByte(r.side)
            && bs[26..34] == LittleEndian(r.price, 8) && bs[34..] == LittleEndian(r.qty, 4)
  {
    hide LittleEndian;
  }

  /** `bs` holds the low `k` bytes of `n` from `at` on, least significant first. */
  ghost predicate HoldsNumber(bs: seq<Byte>, at: nat, k: nat, n: nat)
    requires at + k <= |bs|
  {
    forall i: nat | i < k :: 0 < Bound(i) && bs[at + i] == (n / Bound(i)) % 256
  }

  lemma {:induction false} NumberHeld(bs: seq<Byte>, at: nat, k: nat, n: nat)
    requires at + k <= |bs| && bs[at..at + k] == LittleEndian(n, k)
    ensures HoldsNumber(bs, at, k, n)
  {
    hide LittleEndian, Bound;
    forall i: nat | i < k ensures 0 < Bound(i) && bs[at + i] == (n / Bound(i)) % 256 {
      ByteAt(n, k, i);
      assert bs[at + i] == bs[at..at + k][i];
    }
  }

  /** The layout of a frame: number, type, client, ticker, order id, side, price and quantity, packed
    * in this order.
    */
  lemma {:induction false} Layout(f: Frame)
    ensures var bs, r := Encode(f), f.request;
            && HoldsNumber(bs, 0, 8, f.seqNum)
            && bs[8] == (if r.kind == NewRequest then 1 else if r.kind == CancelRequest then 2 else 0)
            && HoldsNumber(bs, 9, 4, r.client) && HoldsNumber(bs, 13, 4, r.ticker) && HoldsNumber(bs, 17, 8, r.orderId)
            && bs[25] == (if r.side == Buy then 1 else if r.side == Sell then 255 else 0)
            && HoldsNumber(bs, 26, 8, r.price) && HoldsNumber(bs, 34, 4, r.qty)
  {
    hide Encode, LittleEndian, HoldsNumber;
    FieldsOf(f);
    var bs, r := Encode(f), f.request;
    assert bs[0..0 + 8] == bs[..8] && bs[34..34 + 4] == bs[34..];
    NumberHeld(bs, 0, 8, f.seqNum);
    NumberHeld(bs, 9, 4, r.client);
    NumberHeld(bs, 13, 4, r.ticker);
    NumberHeld(bs, 17, 8, r.orderId);
    NumberHeld(bs, 26, 8, r.price);
    NumberHeld(bs, 34, 4, r.qty);
  }

  /** What is sent is what is received. */
  lemma {:induction false} RoundTrip(f: Frame)
    requires Fits(f)
    ensures Decode(Encode(f)) == f
  {
    hide Encode, LittleEndian, Value, Bound;
    FieldsOf(f);
    var r := f.request;
    ValueOf(f.seqNum, 8);
    ValueOf(r.client, 4);
    ValueOf(r.ticker, 4);
    ValueOf(r.orderId, 8);
    ValueOf(r.price, 8);
    ValueOf(r.qty, 4);
  }

  // ---------- streams of frames ----------

  /** The complete frames at the front of a buffer. */
  function Frames(bs: seq<Byte>): seq<Frame> {
    var ps := Pieces(FRAME_SIZE, bs);
    seq(|ps|, i requires 0 <= i < |ps| => DecodePiece(ps, i))
  }

  function DecodePiece(ps: seq<seq<Byte>>, i: nat): Frame
    requires i < |ps| && forall p | p in ps :: |p| == FRAME_SIZE
  {
    Decode(ps[i])
  }

  /** The incomplete frame behind them. */
  function Leftover(bs: seq<Byte>): (r: seq<Byte>)
    ensures |r| < FRAME_SIZE
  {
    Rest(FRAME_SIZE, bs)
  }

  function EncodeEach(fs: seq<Frame>): (ps: seq<seq<Byte>>)
    ensures |ps| == |fs| && forall i | 0 <= i < |fs| :: ps[i] == Encode(fs[i])
  {
    seq(|fs|, i requires 0 <= i < |fs| => Encode(fs[i]))
  }

  function EncodeAll(fs: seq<Frame>): seq<Byte> {
    Join(EncodeEach(fs))
  }

  lemma {:induction false} EncodeAllAppend(fs: seq<Frame>, f: Frame)
    ensures EncodeAll(fs + [f]) == EncodeAll(fs) + Encode(f)
  {
    hide Encode, Join;
    assert EncodeEach(fs + [f]) == EncodeEach(fs) + [Encode(f)];
    JoinAppend(EncodeEach(fs), Encode(f));
  }

  /** The first frame of a buffer and what is behind it. */
  lemma {:induction false} FramesFirst(bs: seq<Byte>)
    ensures |bs| < FRAME_SIZE ==> Frames(bs) == [] && Leftover(bs) == bs
    ensures |bs| >= FRAME_SIZE ==>
              && Frames(bs) == [Decode(bs[..FRAME_SIZE])] + Frames(bs[FRAME_SIZE..])
              && Leftover(bs) == Leftover(bs[FRAME_SIZE..])
  {
    hide Decode;
  }

  /** It makes no difference in how many pieces a stream arrives. */
  lemma {:induction false} FramesConcat(a: seq<Byte>, b: seq<Byte>)
    ensures Frames(a + b) == Frames(a) + Frames(Leftover(a) + b)
    ensures Leftover(a + b) == Leftover(Leftover(a) + b)
  {
    hide Decode, Pieces, Rest;
    PiecesConcat(FRAME_SIZE, a, b);
  }

  /** Whatever arrived of a stream of frames parses to the first of these frames. */
  lemma {:induction false} FramesOfPrefix(fs: seq<Frame>, bs: seq<Byte>)
    requires bs <= EncodeAll(fs) && forall f | f in fs :: Fits(f)
    ensures Frames(bs) <= fs
    ensures bs == EncodeAll(fs) ==> Frames(bs) == fs
  {
    hide Encode, Decode, Fits, Pieces, Join;
    PiecesOfPrefix(FRAME_SIZE, EncodeEach(fs), bs);
    forall i | 0 <= i < |Frames(bs)| ensures Frames(bs)[i] == fs[i] {
      assert Pieces(FRAME_SIZE, bs)[i] == EncodeEach(fs)[i];
      assert fs[i] in fs;
      RoundTrip(fs[i]);
    }
  }
}
