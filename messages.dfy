// The wire messages of the devp2p base protocol, the `eth` protocol
// (eth/66 request ids, the eth/68 typed pooled-hash announcement) and
// `snap/1`: their Go types, their fixed codes and request ids, and the
// RLP library seen only as "these bytes decode as a value of this type".
module Messages {

  import opened GoTypes

  /** A capability announced in the handshake (name and version). */
  datatype Cap = Cap(name: string, version: uint64)

  type Hash = Bytes

  /** Why a message could not be produced; it travels inside `Error`. */
  datatype ErrorKind =
    | ReadFailure            // the transport read failed
    | InvalidCode(code: uint64)  // no message type has this code
    | DecodeFailure          // the body does not decode as the code's type

  /**
   * One value per Go message type. Packet bodies that the shown code never
   * looks into (eth and snap packet internals) are kept as opaque bytes;
   * the eth/66 packets carry their `RequestId`, the snap packets their `ID`.
   */
  datatype Message =
    | Hello(version: uint64, name: string, caps: seq<Cap>, listenPort: uint64, pubkey: Bytes, rest: seq<Bytes>)
    | Disconnect(reason: byte)
    | Disconnects(reasons: seq<byte>)
    | Ping
    | Pong
    | Status(status: Bytes)
    | NewBlockHashes(announces: Bytes)
    | Transactions(txs: Bytes)
    | GetBlockHeaders(requestId: uint64, query: Bytes)
    | BlockHeaders(requestId: uint64, headers: Bytes)
    | GetBlockBodies(requestId: uint64, blockHashes: Bytes)
    | BlockBodies(requestId: uint64, bodies: Bytes)
    | NewBlock(block: Bytes)
    | NewPooledTransactionHashes66(hashes: seq<Hash>)
    | NewPooledTransactionHashes(types: Bytes, sizes: seq<uint32>, txHashes: seq<Hash>)
    | GetPooledTransactions(requestId: uint64, txRequest: Bytes)
    | PooledTransactions(requestId: uint64, pooled: Bytes)
    | GetAccountRange(id: uint64, accountQuery: Bytes)
    | AccountRange(id: uint64, accounts: Bytes)
    | GetStorageRanges(id: uint64, storageQuery: Bytes)
    | StorageRanges(id: uint64, slots: Bytes)
    | GetByteCodes(id: uint64, codeHashes: Bytes)
    | ByteCodes(id: uint64, codes: Bytes)
    | GetTrieNodes(id: uint64, paths: Bytes)
    | TrieNodes(id: uint64, nodes: Bytes)
    | Error(err: ErrorKind)

  /** The Go type of a message, which is what an RLP decode is asked for. */
  datatype Shape =
    | HelloShape | DisconnectShape | DisconnectsShape | PingShape | PongShape
    | StatusShape | NewBlockHashesShape | TransactionsShape
    | GetBlockHeadersShape | BlockHeadersShape | GetBlockBodiesShape | BlockBodiesShape
    | NewBlockShape | PooledHashes66Shape | PooledHashes68Shape
    | GetPooledTransactionsShape | PooledTransactionsShape
    | GetAccountRangeShape | AccountRangeShape | GetStorageRangesShape | StorageRangesShape
    | GetByteCodesShape | ByteCodesShape | GetTrieNodesShape | TrieNodesShape
    | ErrorShape

  function ShapeOf(m: Message): Shape
  {
    match m
    case Hello(_, _, _, _, _, _) => HelloShape
    case Disconnect(_) => DisconnectShape
    case Disconnects(_) => DisconnectsShape
    case Ping => PingShape
    case Pong => PongShape
    case Status(_) => StatusShape
    case NewBlockHashes(_) => NewBlockHashesShape
    case Transactions(_) => TransactionsShape
    case GetBlockHeaders(_, _) => GetBlockHeadersShape
    case BlockHeaders(_, _) => BlockHeadersShape
    case GetBlockBodies(_, _) => GetBlockBodiesShape
    case BlockBodies(_, _) => BlockBodiesShape
    case NewBlock(_) => NewBlockShape
    case NewPooledTransactionHashes66(_) => PooledHashes66Shape
    case NewPooledTransactionHashes(_, _, _) => PooledHashes68Shape
    case GetPooledTransactions(_, _) => GetPooledTransactionsShape
    case PooledTransactions(_, _) => PooledTransactionsShape
    case GetAccountRange(_, _) => GetAccountRangeShape
    case AccountRange(_, _) => AccountRangeShape
    case GetStorageRanges(_, _) => GetStorageRangesShape
    case StorageRanges(_, _) => StorageRangesShape
    case GetByteCodes(_, _) => GetByteCodesShape
    case ByteCodes(_, _) => ByteCodesShape
    case GetTrieNodes(_, _) => GetTrieNodesShape
    case TrieNodes(_, _) => TrieNodesShape
    case Error(_) => ErrorShape
  }

  predicate IsControl(s: Shape)
  {
    s in {HelloShape, DisconnectShape, DisconnectsShape, PingShape, PongShape}
  }

  predicate IsEth(s: Shape)
  {
    s in {StatusShape, NewBlockHashesShape, TransactionsShape, GetBlockHeadersShape,
          BlockHeadersShape, GetBlockBodiesShape, BlockBodiesShape, NewBlockShape,
          PooledHashes66Shape, PooledHashes68Shape, GetPooledTransactionsShape,
          PooledTransactionsShape}
  }

  predicate IsSnap(s: Shape)
  {
    s in {GetAccountRangeShape, AccountRangeShape, GetStorageRangesShape, StorageRangesShape,
          GetByteCodesShape, ByteCodesShape, GetTrieNodesShape, TrieNodesShape}
  }

  /**
   * The `Code()` of each message type. The families occupy disjoint code
   * ranges, and the error sentinel -1 is outside all of them.
   */
  function ShapeCode(s: Shape): (c: int)
    ensures -1 <= c <= 40
    ensures c == -1 <==> s == ErrorShape
    ensures IsControl(s) <==> 0 <= c <= 3
    ensures IsEth(s) <==> 16 <= c <= 26
    ensures IsSnap(s) <==> 33 <= c <= 40
  {
    match s
    case HelloShape => 0x00
    case DisconnectShape => 0x01
    case DisconnectsShape => 0x01
    case PingShape => 0x02
    case PongShape => 0x03
    case StatusShape => 16
    case NewBlockHashesShape => 17
    case TransactionsShape => 18
    case GetBlockHeadersShape => 19
    case BlockHeadersShape => 20
    case GetBlockBodiesShape => 21
    case BlockBodiesShape => 22
    case NewBlockShape => 23
    case PooledHashes66Shape => 24
    case PooledHashes68Shape => 24
    case GetPooledTransactionsShape => 25
    case PooledTransactionsShape => 26
    case GetAccountRangeShape => 33
    case AccountRangeShape => 34
    case GetStorageRangesShape => 35
    case StorageRangesShape => 36
    case GetByteCodesShape => 37
    case ByteCodesShape => 38
    case GetTrieNodesShape => 39
    case TrieNodesShape => 40
    case ErrorShape => -1
  }

  /** `Message.Code()`: it depends only on the message's type. */
  function Code(m: Message): (c: int)
    ensures -1 <= c <= 40
    ensures c == -1 <==> m.Error?
  {
    ShapeCode(ShapeOf(m))
  }

  /** The only two codes shared by two types are the two fallback pairs. */
  lemma SharedCodes(s: Shape, t: Shape)
    requires s != t && ShapeCode(s) == ShapeCode(t)
    ensures {s, t} == {DisconnectShape, DisconnectsShape} || {s, t} == {PooledHashes66Shape, PooledHashes68Shape}
  {
  }

  /**
   * `Message.ReqID()`: the correlation id of request/response packets
   * (the eth/66 `RequestId`, the snap `ID`), 0 for every announcement and
   * control message, and, as written, the constant 18 for `Transactions`.
   */
  function ReqID(m: Message): (r: uint64)
    ensures (m.GetBlockHeaders? || m.BlockHeaders? || m.GetBlockBodies? || m.BlockBodies?
             || m.GetPooledTransactions? || m.PooledTransactions?) ==> r == m.requestId
    ensures IsSnap(ShapeOf(m)) ==> r == m.id
    ensures m.Transactions? ==> r == 18
    ensures (IsControl(ShapeOf(m)) || m.Status? || m.NewBlockHashes? || m.NewBlock?
             || m.NewPooledTransactionHashes66? || m.NewPooledTransactionHashes? || m.Error?) ==> r == 0
  {
    match m
    case Transactions(_) => 18
    case GetBlockHeaders(rid, _) => rid
    case BlockHeaders(rid, _) => rid
    case GetBlockBodies(rid, _) => rid
    case BlockBodies(rid, _) => rid
    case GetPooledTransactions(rid, _) => rid
    case PooledTransactions(rid, _) => rid
    case GetAccountRange(id, _) => id
    case AccountRange(id, _) => id
    case GetStorageRanges(id, _) => id
    case StorageRanges(id, _) => id
    case GetByteCodes(id, _) => id
    case ByteCodes(id, _) => id
    case GetTrieNodes(id, _) => id
    case TrieNodes(id, _) => id
    case _ => 0
  }

  /**
   * The RLP library as the connection uses it: given a Go type and raw bytes,
   * either a decoded value or failure. How bytes are parsed is not modelled.
   */
  type Decoder = (Shape, Bytes) -> Option<Message>

  /** The RLP encoder: the payload of a message, or failure. */
  type Encoder = Message -> Option<Bytes>

  /**
   * `rlp.DecodeBytes(raw, new(T))`: decoding into a Go value of type `T`
   * either fails or yields a value of type `T`, whatever the library does.
   */
  function DecodeAs(dec: Decoder, s: Shape, raw: Bytes): (r: Option<Message>)
    ensures r.Some? ==> ShapeOf(r.value) == s && r == dec(s, raw)
    ensures dec(s, raw).Some? && ShapeOf(dec(s, raw).value) == s ==> r == dec(s, raw)
  {
    var d := dec(s, raw);
    if d.Some? && ShapeOf(d.value) == s then d else None
  }
}
