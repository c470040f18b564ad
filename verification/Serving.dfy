/** What the data path makes of another node's request. */
module Serving {
  import opened Wire
  import opened Journal
  import opened RecvRings
  import opened Host
  import opened Responder
  import opened SendQueue

  /** What a message finds at its destination, and whether the mesh takes the
      reply. */
  datatype HandleEnv = HandleEnv(found: Found, replyQueued: bool)

  predicate HasQp(dp: Dp, msg: Msg) {
    msg.dstQp < |dp.qps| && dp.qps[msg.dstQp].valid
  }

  /** The ring a message's receive comes out of, if its QP exists. */
  function RingOf(dp: Dp, msg: Msg): (r: Option<RingName>) {
    if HasQp(dp, msg) then Some(RingFor(dp.qps[msg.dstQp], msg.dstQp)) else None
  }

  /** Whether a SEND finds its QP with no receive it could take. */
  predicate NoRecv(dp: Dp, msg: Msg, env: HandleEnv) {
    IsSend(msg.op) && HasQp(dp, msg) && !Takes(RingAt(dp.host, RingOf(dp, msg).value), env.found.recv)
  }

  /** What a request comes to. */
  function Served(dp: Dp, l: Letter, env: HandleEnv): (o: Outcome) {
    Execute(dp.host, RingOf(dp, l.msg), l.src, l.msg, env.found)
  }

  /** What it leaves of the data path. */
  function Carried(dp: Dp, o: Outcome): (r: Dp) { dp.(host := o.host, log := dp.log + o.events) }

  /** dp_wire_reply() */
  function ReplyTo(msg: Msg, status: Status, data: seq<byte>): (r: Msg) {
    Msg(ReplyOp(msg.op), msg.dstQp, msg.srcQp, msg.reqId, 0, 0, |data|, FetchAdd(0), status, data)
  }

  function Queue(dp: Dp, dst: nat, msg: Msg): (r: Dp) {
    dp.(outq := dp.outq + [Queued(dst, true, 0, 0, msg)])
  }

  /** A request carried out, and its reply queued or lost. */
  function Replied(dp: Dp, l: Letter, env: HandleEnv): (r: Dp) {
    var o := Served(dp, l, env);
    if env.replyQueued then Queue(Carried(dp, o), l.src, ReplyTo(l.msg, o.status, o.data)) else Carried(dp, o)
  }

  /** The ring is that of the QP a request names, its own or the one it shares; a reply
      goes to the node the request came from, and to the QP that sent it, with its
      number, and what the request came to. */
  lemma {:induction false} ReplyVerdict(dp: Dp, l: Letter, env: HandleEnv)
    requires IsRequest(l.msg.op)
    ensures var r, j, o := Replied(dp, l, env), l.msg.dstQp, Served(dp, l, env);
      && (RingOf(dp, l.msg).Some? <==> j < |dp.qps| && dp.qps[j].valid)
      && (RingOf(dp, l.msg).Some? ==>
            RingOf(dp, l.msg).value == if dp.qps[j].hasSrq then Shared(dp.qps[j].srq) else Own(j))
      && r.host == o.host && r.log == dp.log + o.events && r.qps == dp.qps && r.pend == dp.pend
      && (!env.replyQueued ==> r.outq == dp.outq)
      && (env.replyQueued ==>
            && |r.outq| == |dp.outq| + 1 && r.outq[..|dp.outq|] == dp.outq
            && var m := r.outq[|dp.outq|];
               && m.dst == l.src && m.reply && m.msg.srcQp == j && m.msg.dstQp == l.msg.srcQp
               && m.msg.reqId == l.msg.reqId && m.msg.status == o.status && m.msg.payload == o.data
               && m.msg.length == |o.data|
               && m.msg.op == (if l.msg.op.ReadReq? then ReadResp else if l.msg.op.AtomicReq? then AtomicResp else Ack))
  {
  }

  // ---------------------------------------------------------------------
  // The mesh's queue
  // ---------------------------------------------------------------------

  function Drop<T>(s: seq<T>, k: nat): (r: seq<T>)
    requires k < |s|
  {
    s[..k] + s[k + 1..]
  }

  /** The mesh has sent the k-th message it had queued, or dropped it with a
      connection. */
  function Left(dp: Dp, k: nat): (r: Dp) {
    if k < |dp.outq| then dp.(outq := Drop(dp.outq, k)) else dp
  }
}
