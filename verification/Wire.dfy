/** Constants of the device, the machine words it counts in, and the messages
    two instances of it exchange over the mesh. */
module Wire {
  import opened Arith

  // What is used for "no node": UINT32_MAX.
  const NO_NODE: nat := 0xffff_ffff

  const HDR_LEN: nat := 60
  const MESH_MAX_MSG: nat := 0x100_0000
  const MAX_PAYLOAD: nat := MESH_MAX_MSG - HDR_LEN
  const REPLY_BUDGET: nat := 0x200_0000

  const PENDING_MS: nat := 30000
  const RNR_RETRY_MS: nat := 5000

  const RX_MAX_BYTES: nat := 4 * MESH_MAX_MSG
  const RX_MAX_MSGS: nat := 4096
  const RX_CROWDED_MS: nat := 500
  const RX_STUCK_MS: nat := 2000

  newtype byte = x: int | 0 <= x < 256

  datatype Option<+T> = None | Some(value: T)

  /** The difference of two uint64_t clocks, as C computes it. */
  function Since(now: nat, then_: nat): (d: nat)
    requires now < U64 && then_ < U64
  {
    if now >= then_ then now - then_ else U64 + now - then_
  }

  datatype Status =
    | Ok
    | LocalLenErr
    | LocalQpOperErr
    | LocalProtErr
    | LocalAccErr
    | MemMgmtOperErr
    | RemoteAccErr
    | RetryExceeded
    | RnrRetryExceeded

  /** dp_fault_status() */
  function FaultStatus(fault: Status, fallback: Status): (s: Status)
    ensures fallback != Ok ==> s != Ok
  {
    if fault != Ok then fault else fallback
  }

  datatype WireOp =
    | Send | SendImm | SendInv
    | Write | WriteImm
    | ReadReq | ReadResp
    | AtomicReq | AtomicResp
    | Ack
    | Unknown(code: nat)

  predicate IsSend(op: WireOp) {
    op.Send? || op.SendImm? || op.SendInv?
  }

  predicate IsWrite(op: WireOp) {
    op.Write? || op.WriteImm?
  }

  predicate IsResponse(op: WireOp) {
    op.Ack? || op.ReadResp? || op.AtomicResp?
  }

  predicate IsRequest(op: WireOp) {
    IsSend(op) || IsWrite(op) || op.ReadReq? || op.AtomicReq?
  }

  /** The op of the reply that answers an inbound request's op. */
  function ReplyOp(op: WireOp): (r: WireOp)
    ensures IsResponse(r)
  {
    match op
    case ReadReq => ReadResp
    case AtomicReq => AtomicResp
    case _ => Ack
  }

  /** What an atomic does to the number it finds. */
  datatype Atomic = CompareSwap(swap: nat, compare: nat) | FetchAdd(add: nat)

  /** One message: the header's fields that the protocol turns on, and the
      payload behind it. */
  datatype Msg = Msg(
    op: WireOp,
    srcQp: nat,
    dstQp: nat,
    reqId: nat,
    rkey: nat,
    va: nat,
    length: nat,
    atomic: Atomic,
    status: Status,
    payload: seq<byte>)

  /** A message as it arrives: who sent it, and what. */
  datatype Letter = Letter(src: nat, msg: Msg)

  /** The bytes of data a request's answer brings back. */
  function AnswerSize(msg: Msg): (n: nat) {
    match msg.op
    case ReadReq => msg.length
    case AtomicReq => 8
    case _ => 0
  }

  function MsgLen(m: Msg): (n: nat) {
    HDR_LEN + |m.payload|
  }

  /** One entry of a scatter/gather list. */
  datatype Sge = Sge(va: nat, len: nat, lkey: nat)
}
