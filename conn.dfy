// A peer connection's message layer: `Read` dispatches one transport frame
// to a message, `Write` tags an encoded message with its code, and
// `ReadSnap` waits for the first snap/1 message. The rlpx transport and the
// RLP library are parameters: the frames the transport delivers, whether it
// accepts a write, and the decoder and encoder.
module Conn {

  import opened GoTypes
  import opened Messages

  /** What one transport read delivers: a frame or a failure. */
  datatype ReadResult = Frame(code: uint64, raw: Bytes) | TransportError

  /** The transport's answer to a write of (code, payload): accepted or not. */
  type Transport = (uint64, Bytes) -> bool

  /**
   * The Go types `Read` tries for a frame code, in the order it tries them:
   * for 0x01 the multi-reason disconnect first, for 24 the eth/68 typed
   * announcement first. Snap codes are not among them.
   */
  function Candidates(code: uint64): (shapes: seq<Shape>)
    ensures forall s :: s in shapes ==> ShapeCode(s) == code
    ensures forall s :: ShapeCode(s) == code && !IsSnap(s) && s != ErrorShape ==> s in shapes
    ensures |shapes| <= 2
  {
    match code
    case 0x00 => [HelloShape]
    case 0x01 => [DisconnectsShape, DisconnectShape]
    case 0x02 => [PingShape]
    case 0x03 => [PongShape]
    case 16 => [StatusShape]
    case 17 => [NewBlockHashesShape]
    case 18 => [TransactionsShape]
    case 19 => [GetBlockHeadersShape]
    case 20 => [BlockHeadersShape]
    case 21 => [GetBlockBodiesShape]
    case 22 => [BlockBodiesShape]
    case 23 => [NewBlockShape]
    case 24 => [PooledHashes68Shape, PooledHashes66Shape]
    case 25 => [GetPooledTransactionsShape]
    case 26 => [PooledTransactionsShape]
    case _ => []
  }

  /** The first candidate type, in order, that the body decodes as. */
  function FirstDecoding(dec: Decoder, shapes: seq<Shape>, raw: Bytes): (r: Option<Message>)
    ensures r.Some? ==> ShapeOf(r.value) in shapes
    ensures r.Some? <==> exists i :: 0 <= i < |shapes| && DecodeAs(dec, shapes[i], raw).Some?
    ensures r.Some? ==> exists i :: 0 <= i < |shapes| && r == DecodeAs(dec, shapes[i], raw)
                                    && forall j :: 0 <= j < i ==> DecodeAs(dec, shapes[j], raw).None?
    decreases |shapes|
  {
    if shapes == [] then None
    else
      var d := DecodeAs(dec, shapes[0], raw);
      if d.Some? then d else FirstDecoding(dec, shapes[1..], raw)
  }

  /**
   * What reading a frame yields, stated as an ordered list of candidate
   * decoders per code: the first that succeeds, else a decode error. A code
   * with no candidates is an invalid code; as `Conn.Read` does, the body is
   * then still decoded into the error value, whose type has no exported
   * fields, so RLP sees none, and a failure there is reported as a decode
   * error.
   */
  function ReadSpec(frame: ReadResult, dec: Decoder): Message
  {
    match frame
    case TransportError => Error(ReadFailure)
    case Frame(code, raw) =>
      var shapes := Candidates(code);
      if shapes == [] then
        if DecodeAs(dec, ErrorShape, raw).Some? then Error(InvalidCode(code)) else Error(DecodeFailure)
      else
        match FirstDecoding(dec, shapes, raw)
        case Some(m) => m
        case None => Error(DecodeFailure)
  }

  /** `Conn.Read`: dispatch one frame on its code and decode the body. */
  method Read(frame: ReadResult, dec: Decoder) returns (msg: Message)
    ensures msg == ReadSpec(frame, dec)
    ensures msg.Error? || (frame.Frame? && Code(msg) == frame.code)
  {
    if frame.TransportError? {
      return Error(ReadFailure);
    }
    var code, raw := frame.code, frame.raw;
    if code == 0x01 {
      DisconnectFallback(raw, dec);
    } else if code == 24 {
      PooledHashesFallback(raw, dec);
    } else if Candidates(code) != [] {
      SingleShapeCodes(code, raw, dec);
    }
    ReadNeverCrashes(frame, dec);
    var shape: Shape;
    match code {
      case 0x00 => shape := HelloShape;
      case 0x02 => shape := PingShape;
      case 0x03 => shape := PongShape;
      case 0x01 =>
        // Disconnects come in two formats: try the list of reasons first.
        shape := DisconnectsShape;
        if DecodeAs(dec, DisconnectsShape, raw).None? {
          shape := DisconnectShape;
        }
      case 16 => shape := StatusShape;
      case 19 =>
        var m := DecodeAs(dec, GetBlockHeadersShape, raw);
        if m.None? { return Error(DecodeFailure); }
        return m.value;
      case 20 =>
        var m := DecodeAs(dec, BlockHeadersShape, raw);
        if m.None? { return Error(DecodeFailure); }
        return m.value;
      case 21 =>
        var m := DecodeAs(dec, GetBlockBodiesShape, raw);
        if m.None? { return Error(DecodeFailure); }
        return m.value;
      case 22 =>
        var m := DecodeAs(dec, BlockBodiesShape, raw);
        if m.None? { return Error(DecodeFailure); }
        return m.value;
      case 23 => shape := NewBlockShape;
      case 17 => shape := NewBlockHashesShape;
      case 18 => shape := TransactionsShape;
      case 24 =>
        // Try the eth/68 typed announcement first.
        var m := DecodeAs(dec, PooledHashes68Shape, raw);
        if m.Some? { return m.value; }
        shape := PooledHashes66Shape;
      case 25 =>
        var m := DecodeAs(dec, GetPooledTransactionsShape, raw);
        if m.None? { return Error(DecodeFailure); }
        return m.value;
      case 26 =>
        var m := DecodeAs(dec, PooledTransactionsShape, raw);
        if m.None? { return Error(DecodeFailure); }
        return m.value;
      case _ =>
        // The error value is decoded into like any other message value.
        if DecodeAs(dec, ErrorShape, raw).None? { return Error(DecodeFailure); }
        return Error(InvalidCode(code));
    }
    var m := DecodeAs(dec, shape, raw);
    if m.None? {
      return Error(DecodeFailure);
    }
    msg := m.value;
  }

  /** Every read yields a message of the frame's code or the -1 error sentinel. */
  lemma ReadNeverCrashes(frame: ReadResult, dec: Decoder)
    ensures var m := ReadSpec(frame, dec);
            (m.Error? && Code(m) == -1) || (frame.Frame? && Code(m) == frame.code && !IsSnap(ShapeOf(m)))
  {
    match frame
    case TransportError =>
    case Frame(code, raw) =>
      var r := FirstDecoding(dec, Candidates(code), raw);
      if Candidates(code) != [] && r.Some? {
        assert ShapeOf(r.value) in Candidates(code);
      }
  }

  /** A transport failure and an unknown code both give the error sentinel. */
  lemma ReadErrors(frame: ReadResult, dec: Decoder)
    ensures frame.TransportError? ==> ReadSpec(frame, dec) == Error(ReadFailure)
    ensures frame.Frame? && Candidates(frame.code) == [] ==>
              ReadSpec(frame, dec) in {Error(InvalidCode(frame.code)), Error(DecodeFailure)}
  {
  }

  /**
   * Code 0x01: the multi-reason shape wins whenever it decodes; the
   * single-reason shape is used only when it does not.
   */
  lemma DisconnectFallback(raw: Bytes, dec: Decoder)
    ensures var m := ReadSpec(Frame(0x01, raw), dec);
            var many := DecodeAs(dec, DisconnectsShape, raw);
            var one := DecodeAs(dec, DisconnectShape, raw);
            m == (if many.Some? then many.value
                  else if one.Some? then one.value
                  else Error(DecodeFailure))
  {
    assert Candidates(0x01)[1..] == [DisconnectShape];
  }

  /**
   * Code 24: the eth/68 `{Types, Sizes, Hashes}` shape wins whenever it
   * decodes; the legacy bare hash list is tried only when it does not.
   */
  lemma PooledHashesFallback(raw: Bytes, dec: Decoder)
    ensures var m := ReadSpec(Frame(24, raw), dec);
            var typed := DecodeAs(dec, PooledHashes68Shape, raw);
            var legacy := DecodeAs(dec, PooledHashes66Shape, raw);
            m == (if typed.Some? then typed.value
                  else if legacy.Some? then legacy.value
                  else Error(DecodeFailure))
  {
    assert Candidates(24)[1..] == [PooledHashes66Shape];
  }

  /**
   * Every other known code has one type: a body that decodes is returned,
   * one that does not gives a decode error at once.
   */
  lemma SingleShapeCodes(code: uint64, raw: Bytes, dec: Decoder)
    requires code in {0x00, 0x02, 0x03, 16, 17, 18, 19, 20, 21, 22, 23, 25, 26}
    ensures |Candidates(code)| == 1
    ensures var d := DecodeAs(dec, Candidates(code)[0], raw);
            ReadSpec(Frame(code, raw), dec) == (if d.Some? then d.value else Error(DecodeFailure))
  {
  }

  /**
   * Round trip: the frame `Write` sends for a message, under
   * `uint64(Code())`, is read back as that message when its encoding
   * decodes back as its own type, provided that, for the two shared codes,
   * the type tried before it rejects the encoding.
   */
  lemma RoundTrip(m: Message, enc: Encoder, dec: Decoder, payload: Bytes)
    requires !m.Error? && !IsSnap(ShapeOf(m))
    requires enc(m) == Some(payload)
    requires dec(ShapeOf(m), payload) == Some(m)
    requires m.Disconnect? ==> DecodeAs(dec, DisconnectsShape, payload).None?
    requires m.NewPooledTransactionHashes66? ==> DecodeAs(dec, PooledHashes68Shape, payload).None?
    ensures ReadSpec(Frame(ToUint64(Code(m)), payload), dec) == m
  {
    assert ToUint64(Code(m)) == Code(m);
    var shapes := Candidates(Code(m));
    assert ShapeOf(m) in shapes;
    if m.Disconnect? {
      DisconnectFallback(payload, dec);
    } else if m.NewPooledTransactionHashes66? {
      PooledHashesFallback(payload, dec);
    } else {
      assert shapes == [ShapeOf(m)] || shapes[0] == ShapeOf(m);
    }
  }

  /** Why a write failed. */
  datatype WriteError = EncodeFailure | TransportWriteFailure

  /**
   * `Conn.Write`: an encoding failure is returned and nothing is sent;
   * otherwise the payload is handed to the transport under `uint64(Code())`
   * (so an error value goes out under 2^64 - 1), and the transport's answer
   * is the result.
   */
  method Write(msg: Message, enc: Encoder, transport: Transport)
    returns (err: Option<WriteError>, sent: Option<(uint64, Bytes)>)
    ensures enc(msg).None? ==> err == Some(EncodeFailure) && sent == None
    ensures enc(msg).Some? ==> sent == Some((ToUint64(Code(msg)), enc(msg).value))
    ensures enc(msg).Some? ==> (err == None <==> transport(sent.value.0, sent.value.1))
                               && err != Some(EncodeFailure)
    ensures msg.Error? && sent.Some? ==> sent.value.0 == TwoTo64 - 1
  {
    var payload := enc(msg);
    if payload.None? {
      return Some(EncodeFailure), None;
    }
    var code := ToUint64(Code(msg));
    sent := Some((code, payload.value));
    if transport(code, payload.value) {
      err := None;
    } else {
      err := Some(TransportWriteFailure);
    }
  }

  /** The snap/1 type of a frame code, if any (33 to 40). */
  function SnapShape(code: uint64): (r: Option<Shape>)
    ensures r.Some? <==> 33 <= code <= 40
    ensures r.Some? ==> IsSnap(r.value) && ShapeCode(r.value) == code
  {
    match code
    case 33 => Some(GetAccountRangeShape)
    case 34 => Some(AccountRangeShape)
    case 35 => Some(GetStorageRangesShape)
    case 36 => Some(StorageRangesShape)
    case 37 => Some(GetByteCodesShape)
    case 38 => Some(ByteCodesShape)
    case 39 => Some(GetTrieNodesShape)
    case 40 => Some(TrieNodesShape)
    case _ => None
  }

  /** How `ReadSnap` ends without a message. */
  datatype SnapFailure = SnapReadFailed | SnapDecodeFailed | TimedOut

  datatype SnapResult = Got(msg: Message) | Failed(reason: SnapFailure)

  /**
   * The `i`-th read of the transport. Past the frames it has, the transport
   * reports a failure, as a closed connection does.
   */
  function FrameAt(frames: seq<ReadResult>, i: nat): ReadResult
  {
    if i < |frames| then frames[i] else TransportError
  }

  /** A frame `ReadSnap` passes over: a successful read of a non-snap code. */
  predicate Skipped(f: ReadResult)
  {
    f.Frame? && SnapShape(f.code).None?
  }

  /**
   * `Conn.ReadSnap`: read frames, skipping non-snap codes, until a snap
   * frame arrives (decoded and returned; a decode failure ends the wait), a
   * read fails, or the time budget runs out. `bound` is the number of reads
   * the budget admits. The response id `id + 1` never equals `id`, so the
   * id plays no part in the result: no ensures below mentions it.
   */
  method ReadSnap(id: uint64, frames: seq<ReadResult>, bound: nat, dec: Decoder)
    returns (r: SnapResult, skipped: nat)
    ensures skipped <= bound
    ensures forall j :: 0 <= j < skipped ==> Skipped(FrameAt(frames, j))
    ensures r == Failed(TimedOut) <==> skipped == bound
    ensures skipped < bound && FrameAt(frames, skipped).TransportError? ==> r == Failed(SnapReadFailed)
    ensures skipped < bound && FrameAt(frames, skipped).Frame? ==>
              var f := FrameAt(frames, skipped);
              SnapShape(f.code).Some? &&
              r == match DecodeAs(dec, SnapShape(f.code).value, f.raw)
                   case Some(m) => Got(m)
                   case None => Failed(SnapDecodeFailed)
    ensures r.Got? ==> IsSnap(ShapeOf(r.msg)) && Code(r.msg) == FrameAt(frames, skipped).code
  {
    var respId := IncUint64(id);
    skipped := 0;
    while respId != id && skipped < bound
      invariant skipped <= bound
      invariant forall j :: 0 <= j < skipped ==> Skipped(FrameAt(frames, j))
    {
      var frame := FrameAt(frames, skipped);
      if frame.TransportError? {
        return Failed(SnapReadFailed), skipped;
      }
      var shape := SnapShape(frame.code);
      if shape.None? {
        skipped := skipped + 1;
        continue;
      }
      var m := DecodeAs(dec, shape.value, frame.raw);
      if m.None? {
        return Failed(SnapDecodeFailed), skipped;
      }
      return Got(m.value), skipped;
    }
    r := Failed(TimedOut);
  }
}
