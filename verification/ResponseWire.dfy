/** The packed little-endian frame in which a numbered response crosses the wire. */
module ResponseWire {
  import opened Types
  import W = Wire

  datatype Frame = Frame(seqNum: nat, response: Response)

  const FRAME_SIZE: nat := 50

  function KindByte(kind: ResponseKind): W.Byte {
    match kind
    case Rejected => 0
    case Accepted => 1
    case Canceled => 2
    case Filled => 3
    case CancelRejected => 4
  }

  function KindOf(b: W.Byte): ResponseKind {
    if b == 1 then Accepted else if b == 2 then Canceled else if b == 3 then Filled
    else if b == 4 then CancelRejected else Rejected
  }

  /** Every field fits the integer that carries it. */
  predicate Fits(f: Frame) {
    var r := f.response;
    && f.seqNum < W.Bound(8) && r.client < W.Bound(4) && r.ticker < W.Bound(4)
    && r.clientOrderId < W.Bound(8) && r.marketOrderId < W.Bound(8)
    && r.price < W.Bound(8) && r.execQty < W.Bound(4) && r.leavesQty < W.Bound(4)
  }

  function Encode(f: Frame): (bs: seq<W.Byte>)
    ensures |bs| == FRAME_SIZE
  {
    var r := f.response;
    W.LittleEndian(f.seqNum, 8) + [KindByte(r.kind)] + W.LittleEndian(r.client, 4) + W.LittleEndian(r.ticker, 4)
    + W.LittleEndian(r.clientOrderId, 8) + W.LittleEndian(r.marketOrderId, 8) + [W.SideByte(r.side)]
    + W.LittleEndian(r.price, 8) + W.LittleEndian(r.execQty, 4) + W.LittleEndian(r.leavesQty, 4)
  }

  function Decode(bs: seq<W.Byte>): Frame
    requires |bs| == FRAME_SIZE
  {
    Frame(W.Value(bs[..8]),
          Response(KindOf(bs[8]), W.Value(bs[9..13]), W.Value(bs[13..17]), W.Value(bs[17..25]), W.Value(bs[25..33]),
                   W.SideOf(bs[33]), W.Value(bs[34..42]), W.Value(bs[42..46]), W.Value(bs[46..])))
  }

  lemma {:induction false} FieldsOf(f: Frame)
    ensures var bs, r := Encode(f), f.response;
            && bs[..8] == W.LittleEndian(f.seqNum, 8) && bs[8] == KindByte(r.kind)
            && bs[9..13] == W.LittleEndian(r.client, 4) && bs[13..17] == W.LittleEndian(r.ticker, 4)
            && bs[17..25] == W.LittleEndian(r.clientOrderId, 8) && bs[25..33] == W.LittleEndian(r.marketOrderId, 8)
            && bs[33] == W.SideByte(r.side) && bs[34..42] == W.LittleEndian(r.price, 8)
            && bs[42..46] == W.LittleEndian(r.execQty, 4) && bs[46..] == W.LittleEndian(r.leavesQty, 4)
  {
    hide W.LittleEndian;
  }

  /** The layout of a frame: number, type, client, ticker, the client's order id, the market's, side,
    * price, executed and remaining quantity, packed in this order.
    */
  lemma {:induction false} Layout(f: Frame)
    ensures var bs, r := Encode(f), f.response;
            && W.HoldsNumber(bs, 0, 8, f.seqNum)
            && bs[8] == (match r.kind
                         case Rejected => 0
                         case Accepted => 1
                         case Canceled => 2
                         case Filled => 3
                         case CancelRejected => 4)
            && W.HoldsNumber(bs, 9, 4, r.client) && W.HoldsNumber(bs, 13, 4, r.ticker)
            && W.HoldsNumber(bs, 17, 8, r.clientOrderId) && W.HoldsNumber(bs, 25, 8, r.marketOrderId)
            && bs[33] == (if r.side == Buy then 1 else if r.side == Sell then 255 else 0)
            && W.HoldsNumber(bs, 34, 8, r.price)
            && W.HoldsNumber(bs, 42, 4, r.execQty) && W.HoldsNumber(bs, 46, 4, r.leavesQty)
  {
    hide Encode, W.LittleEndian, W.HoldsNumber;
    FieldsOf(f);
    var bs, r := Encode(f), f.response;
    assert bs[0..0 + 8] == bs[..8] && bs[46..46 + 4] == bs[46..];
    W.NumberHeld(bs, 0, 8, f.seqNum);
    W.NumberHeld(bs, 9, 4, r.client);
    W.NumberHeld(bs, 13, 4, r.ticker);
    W.NumberHeld(bs, 17, 8, r.clientOrderId);
    W.NumberHeld(bs, 25, 8, r.marketOrderId);
    W.NumberHeld(bs, 34, 8, r.price);
    W.NumberHeld(bs, 42, 4, r.execQty);
    W.NumberHeld(bs, 46, 4, r.leavesQty);
  }

  /** What is sent is what is received. */
  lemma {:induction false} RoundTrip(f: Frame)
    requires Fits(f)
    ensures Decode(Encode(f)) == f
  {
    hide Encode, W.LittleEndian, W.Value, W.Bound;
    FieldsOf(f);
    var r := f.response;
    W.ValueOf(f.seqNum, 8);
    W.ValueOf(r.client, 4);
    W.ValueOf(r.ticker, 4);
    W.ValueOf(r.clientOrderId, 8);
    W.ValueOf(r.marketOrderId, 8);
    W.ValueOf(r.price, 8);
    W.ValueOf(r.execQty, 4);
    W.ValueOf(r.leavesQty, 4);
  }

  // ---------- streams ----------

  /** The complete frames at the front of a buffer. */
  function Frames(bs: seq<W.Byte>): seq<Frame> {
    var ps := W.Pieces(FRAME_SIZE, bs);
    seq(|ps|, i requires 0 <= i < |ps| => DecodePiece(ps, i))
  }

  function DecodePiece(ps: seq<seq<W.Byte>>, i: nat): Frame
    requires i < |ps| && forall p | p in ps :: |p| == FRAME_SIZE
  {
    Decode(ps[i])
  }

  /** The incomplete frame behind them. */
  function Leftover(bs: seq<W.Byte>): (r: seq<W.Byte>)
    ensures |r| < FRAME_SIZE
  {
    W.Rest(FRAME_SIZE, bs)
  }

  function EncodeEach(fs: seq<Frame>): (ps: seq<seq<W.Byte>>)
    ensures |ps| == |fs| && forall i | 0 <= i < |fs| :: ps[i] == Encode(fs[i])
  {
    seq(|fs|, i requires 0 <= i < |fs| => Encode(fs[i]))
  }

  function EncodeAll(fs: seq<Frame>): seq<W.Byte> {
    W.Join(EncodeEach(fs))
  }

  lemma {:induction false} EncodeAllAppend(fs: seq<Frame>, f: Frame)
    ensures EncodeAll(fs + [f]) == EncodeAll(fs) + Encode(f)
  {
    hide Encode, W.Join;
    assert EncodeEach(fs + [f]) == EncodeEach(fs) + [Encode(f)];
    W.JoinAppend(EncodeEach(fs), Encode(f));
  }

  /** The first frame of a buffer and what is behind it. */
  lemma {:induction false} FramesFirst(bs: seq<W.Byte>)
    ensures |bs| < FRAME_SIZE ==> Frames(bs) == [] && Leftover(bs) == bs
    ensures |bs| >= FRAME_SIZE ==>
              && Frames(bs) == [Decode(bs[..FRAME_SIZE])] + Frames(bs[FRAME_SIZE..])
              && Leftover(bs) == Leftover(bs[FRAME_SIZE..])
  {
    hide Decode;
  }

  lemma {:induction false} FramesConcat(a: seq<W.Byte>, b: seq<W.Byte>)
    ensures Frames(a + b) == Frames(a) + Frames(Leftover(a) + b)
    ensures Leftover(a + b) == Leftover(Leftover(a) + b)
  {
    hide Decode, W.Pieces, W.Rest;
    W.PiecesConcat(FRAME_SIZE, a, b);
  }

  /** Whatever arrived of a stream of frames parses to the first of these frames. */
  lemma {:induction false} FramesOfPrefix(fs: seq<Frame>, bs: seq<W.Byte>)
    requires bs <= EncodeAll(fs) && forall f | f in fs :: Fits(f)
    ensures Frames(bs) <= fs
    ensures bs == EncodeAll(fs) ==> Frames(bs) == fs
  {
    hide Encode, Decode, Fits, W.Pieces, W.Join;
    W.PiecesOfPrefix(FRAME_SIZE, EncodeEach(fs), bs);
    forall i | 0 <= i < |Frames(bs)| ensures Frames(bs)[i] == fs[i] {
      assert W.Pieces(FRAME_SIZE, bs)[i] == EncodeEach(fs)[i];
      assert fs[i] in fs;
      RoundTrip(fs[i]);
    }
  }
}
