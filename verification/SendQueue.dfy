/** The data path's state: the QP table, the table of requests waiting for a
    peer's answer, the requests the mesh has queued, and what the guest has
    given it; and its send side's operations. Each operation is a function on
    the whole state, which the Datapath class refines. */
module SendQueue {
  import opened Arith
  import opened Wire
  import opened Journal
  import opened RecvRings
  import opened Copying
  import opened Host
  import opened WorkRequests
  import Dma
  import Regions

  datatype QpKind = RC | UC | UD | GSI

  /** GSI is the one datagram QP type besides UD. */
  predicate IsDatagram(k: QpKind) { k.UD? || k.GSI? }

  /** struct ionic_qp_ring, as far as its send queue goes. ran, which the
      device doesn't keep, counts the WQEs the send queue has moved past since
      the QP was registered. */
  datatype Qp = Qp(
    valid: bool,
    kind: QpKind,
    depth: nat,
    cons: nat,
    prod: nat,
    rnr: bool,
    rnrSince: nat,
    busy: bool,
    fault: bool,
    msn: nat,
    destValid: bool,
    destQp: nat,
    destNode: nat,
    mesh: nat,
    hasSrq: bool,
    srq: nat,
    ran: nat)

  /** The ring QP i's receives come out of. */
  function RingFor(q: Qp, i: nat): (ring: RingName) { if q.hasSrq then Shared(q.srq) else Own(i) }

  predicate IsStalled(q: Qp) { q.rnr || q.busy }

  /** struct dp_pending: a request that has been handed to the mesh and not yet
      been answered. mesh is the high half of its tag, req the low. */
  datatype Pending = Pending(
    req: nat,
    qp: nat,
    wqe: nat,
    msn: nat,
    useMsn: bool,
    signalled: bool,
    length: nat,
    local: seq<Sge>,
    deadline: nat,
    mesh: nat,
    destNode: nat,
    replyBytes: nat)

  predicate Completes(p: Pending) { p.useMsn || p.signalled }

  /** The pending table: an entry that isn't valid is None. */
  type Table = seq<Option<Pending>>

  /** A message the mesh has queued and not started to send. */
  datatype Queued = Queued(dst: nat, reply: bool, mesh: nat, req: nat, msg: Msg)

  datatype Dp = Dp(
    qps: seq<Qp>,
    pend: Table,
    nextReq: nat,
    nextMesh: nat,
    stalled: int,
    localNode: nat,
    outq: seq<Queued>,
    host: Host,
    log: Log)

  /** What running a WQE, and completing one, leave of a QP. */
  predicate Kept(a: Qp, b: Qp) {
    && b.valid == a.valid && b.kind == a.kind && b.depth == a.depth
    && b.mesh == a.mesh && b.ran == a.ran && b.hasSrq == a.hasSrq && b.srq == a.srq && b.prod == a.prod
    && b.destValid == a.destValid && b.destQp == a.destQp && b.destNode == a.destNode
    && (a.rnrSince < U64 ==> b.rnrSince < U64)
  }

  predicate Steady(a: Dp, b: Dp) {
    && |b.qps| == |a.qps| && |b.pend| == |a.pend|
    && b.nextMesh == a.nextMesh && b.localNode == a.localNode
    && a.log <= b.log
    && forall j :: 0 <= j < |a.qps| ==> Kept(a.qps[j], b.qps[j])
  }

  function Stall(q: Qp): (n: nat) { if IsStalled(q) then 1 else 0 }

  /** Only QP i differs, and the count of stalled queues follows it. */
  predicate OnlyQp(a: Dp, b: Dp, i: nat) {
    && |b.qps| == |a.qps| && i < |a.qps|
    && b.qps == a.qps[i := b.qps[i]]
    && b.stalled == a.stalled + Stall(b.qps[i]) - Stall(a.qps[i])
  }

  /** And QP i is where it was in its ring. */
  predicate InPlace(a: Dp, b: Dp, i: nat) { OnlyQp(a, b, i) && b.qps[i].cons == a.qps[i].cons }

  predicate InTable(dp: Dp, i: nat) { i < |dp.qps| && dp.qps[i].depth > 0 }

  // ---------------------------------------------------------------------
  // The pending table
  // ---------------------------------------------------------------------

  /** The first entry from n that isn't in use, or the table's length. */
  function FreeSlot(t: Table, n: nat): (s: nat)
    requires n <= |t|
    ensures n <= s <= |t|
    ensures s < |t| ==> t[s].None?
    ensures forall i :: n <= i < s ==> t[i].Some?
    decreases |t| - n
  {
    if n == |t| || t[n].None? then n else FreeSlot(t, n + 1)
  }

  predicate Holds(e: Option<Pending>, r: nat) { e.Some? && e.value.req == r }

  /** The first entry from n for request r, or the table's length. */
  function Find(t: Table, n: nat, r: nat): (s: nat)
    requires n <= |t|
    ensures n <= s <= |t|
    ensures s < |t| ==> Holds(t[s], r)
    ensures forall i :: n <= i < s ==> !Holds(t[i], r)
    decreases |t| - n
  {
    if n == |t| || Holds(t[n], r) then n else Find(t, n + 1, r)
  }

  predicate Owned(e: Option<Pending>, qp: nat) { e.Some? && e.value.qp == qp }

  /** The table with a QP's requests gone from its first n entries. */
  function Without(t: Table, n: nat, qp: nat): (r: Table)
    requires n <= |t|
    ensures |r| == |t|
  {
    seq(|t|, i requires 0 <= i < |t| => if i < n && Owned(t[i], qp) then None else t[i])
  }

  /** Whether a QP has a request whose completion is still to come. */
  predicate Awaits(t: Table, qp: nat) {
    exists i :: 0 <= i < |t| && Owned(t[i], qp) && Completes(t[i].value)
  }

  function Weight(e: Option<Pending>, node: nat): (n: nat) {
    if e.Some? && e.value.destNode == node then e.value.replyBytes else 0
  }

  /** The reply bytes the first n entries can bring back from a node. */
  function ReplyBytes(t: Table, n: nat, node: nat): (b: nat)
    requires n <= |t|
  {
    if n == 0 then 0 else ReplyBytes(t, n - 1, node) + Weight(t[n - 1], node)
  }

  /** What dropping a QP's requests leaves in the journal, entry by entry. */
  function Dropped(t: Table, n: nat, qp: nat): (l: Log)
    requires n <= |t|
  {
    if n == 0 then []
    else Dropped(t, n - 1, qp)
         + if Owned(t[n - 1], qp) then [Retired(t[n - 1].value.req, Cancelled, false)] else []
  }

  // ---------------------------------------------------------------------
  // The mesh's queue
  // ---------------------------------------------------------------------

  /** Whether ernic_mesh_cancel() with a QP's tag and the high half's mask takes
      a message back. */
  predicate OfQp(m: Queued, mesh: nat) { !m.reply && m.mesh == mesh }

  /** Whether it does with one request's tag and every bit's mask. */
  predicate OfRequest(m: Queued, mesh: nat, req: nat) { !m.reply && m.mesh == mesh && m.req == req }

  function KeepQp(s: seq<Queued>, mesh: nat): (r: seq<Queued>) {
    if s == [] then []
    else KeepQp(s[..|s| - 1], mesh) + (if OfQp(s[|s| - 1], mesh) then [] else [s[|s| - 1]])
  }

  function TakeQp(s: seq<Queued>, mesh: nat): (r: seq<nat>) {
    if s == [] then []
    else TakeQp(s[..|s| - 1], mesh) + (if OfQp(s[|s| - 1], mesh) then [s[|s| - 1].req] else [])
  }

  function KeepRequest(s: seq<Queued>, mesh: nat, req: nat): (r: seq<Queued>) {
    if s == [] then []
    else KeepRequest(s[..|s| - 1], mesh, req)
         + (if OfRequest(s[|s| - 1], mesh, req) then [] else [s[|s| - 1]])
  }

  predicate HasRequest(s: seq<Queued>, mesh: nat, req: nat) {
    exists m :: m in s && OfRequest(m, mesh, req)
  }

  // ---------------------------------------------------------------------
  // Stalls
  // ---------------------------------------------------------------------

  /** sq_stall_clear() */
  function Clear(dp: Dp, i: nat): (r: Dp)
    requires i < |dp.qps|
    ensures Steady(dp, r)
    ensures InPlace(dp, r, i)
  {
    var q := dp.qps[i];
    dp.(qps := dp.qps[i := q.(rnr := false, busy := false, fault := false)],
        stalled := if IsStalled(q) then dp.stalled - 1 else dp.stalled)
  }

  /** sq_busy_set() */
  function SetBusy(dp: Dp, i: nat): (r: Dp)
    requires i < |dp.qps|
    ensures Steady(dp, r)
    ensures InPlace(dp, r, i)
  {
    var q := dp.qps[i];
    dp.(qps := dp.qps[i := q.(busy := true)],
        stalled := if IsStalled(q) then dp.stalled else dp.stalled + 1)
  }

  /** What sq_send() does on finding no receive for an RC QP's SEND. */
  function SetRnr(dp: Dp, i: nat, now: nat): (r: Dp)
    requires i < |dp.qps| && now < U64
    ensures Steady(dp, r)
    ensures InPlace(dp, r, i)
  {
    var q := dp.qps[i];
    var dp1 := dp.(log := dp.log + [Waited(q.mesh, now)]);
    if q.rnr then dp1
    else dp1.(qps := dp.qps[i := q.(rnr := true, rnrSince := now)],
              stalled := if q.busy then dp.stalled else dp.stalled + 1)
  }

  // ---------------------------------------------------------------------
  // Flush, registration
  // ---------------------------------------------------------------------

  /** pending_cancel_qp() */
  function CancelQp(dp: Dp, i: nat): (r: Dp)
    ensures Steady(dp, r)
  {
    dp.(pend := Without(dp.pend, |dp.pend|, i), log := dp.log + Dropped(dp.pend, |dp.pend|, i))
  }

  /** ionic_datapath_flush_qp(): the QP's requests are dropped, those still
      queued in the mesh are taken back, and its send queue is emptied. */
  function Flush(dp: Dp, i: nat): (r: Dp)
    requires i < |dp.qps|
    ensures Steady(dp, r)
    ensures OnlyQp(dp, r, i)
  {
    if !dp.qps[i].valid then dp
    else
      var dp1 := CancelQp(dp, i);
      var mesh := dp.qps[i].mesh;
      var dp2 := Clear(dp1.(outq := KeepQp(dp.outq, mesh)), i);
      dp2.(qps := dp2.qps[i := dp2.qps[i].(cons := dp.qps[i].prod)],
           log := dp2.log + [Flushed(i, mesh, !dp.qps[i].hasSrq, TakeQp(dp.outq, mesh))])
  }

  /** ionic_datapath_register_qp(), once it has the rings. */
  function Register(dp: Dp, i: nat, kind: QpKind, depth: nat, rqDepth: nat): (r: Dp)
    requires i < |dp.qps|
    ensures OnlyQp(dp, r, i)
  {
    var dp1 := CancelQp(Clear(dp, i), i);
    var mesh := dp.nextMesh + 1;
    dp1.(qps := dp1.qps[i := Qp(true, kind, depth, 0, 0, false, dp.qps[i].rnrSince, false, false, 0, false,
                                dp.qps[i].destQp, NO_NODE, mesh, false, 0, 0)],
         nextMesh := mesh,
         host := SetRing(dp.host, Own(i), RecvRing(true, rqDepth, 0, 0)),
         log := dp1.log + [Opened(i, mesh, !IsDatagram(kind))] + [RingReset(Own(i))])
  }

  /** How a ring is described: its depth, whether its stride is in bounds, and
      whether its page table can be read. */
  datatype RingDesc = RingDesc(depthLog2: nat, strideOk: bool, readable: bool)

  const RING_MAX_LOG2 := 24
  const SRQ_MAX_LOG2 := 16

  /** ionic_dp_ring_geometry_ok() */
  predicate GeometryOk(r: RingDesc, most: nat) { r.depthLog2 <= most && r.strideOk }

  /** The rings a registration describes. */
  datatype Rings = Rings(sq: RingDesc, rq: RingDesc)

  /** ionic_datapath_register_qp() */
  function RegisterQp(dp: Dp, i: nat, kind: QpKind, rings: Rings): (r: Dp)
    requires i < |dp.qps|
    ensures OnlyQp(dp, r, i)
  {
    if !GeometryOk(rings.sq, RING_MAX_LOG2) || !GeometryOk(rings.rq, RING_MAX_LOG2) then dp
    else if !rings.sq.readable || !rings.rq.readable then Unregister(dp, i)
    else Register(dp, i, kind, Pow2(rings.sq.depthLog2), Pow2(rings.rq.depthLog2))
  }

  /** ionic_datapath_bind_qp_srq() */
  function BindSrq(dp: Dp, i: nat, srq: nat): (r: Dp)
    requires i < |dp.qps|
    ensures OnlyQp(dp, r, i)
  {
    if srq >= |dp.host.srq| then dp
    else dp.(qps := dp.qps[i := dp.qps[i].(hasSrq := true, srq := srq)])
  }

  /** ionic_datapath_unregister_qp() */
  function Unregister(dp: Dp, i: nat): (r: Dp)
    requires i < |dp.qps|
    ensures OnlyQp(dp, r, i)
  {
    var dp1 := Clear(CancelQp(dp, i), i);
    dp1.(qps := dp1.qps[i := dp1.qps[i].(valid := false)])
  }

  /** ionic_datapath_set_dest() */
  function SetDest(dp: Dp, i: nat, destQp: nat, destNode: nat): (r: Dp)
    requires i < |dp.qps|
    ensures OnlyQp(dp, r, i)
  {
    if !dp.qps[i].valid then dp
    else dp.(qps := dp.qps[i := dp.qps[i].(destQp := destQp, destNode := destNode, destValid := true)])
  }

  // ---------------------------------------------------------------------
  // What the guest gives the device
  // ---------------------------------------------------------------------

  /** A receive doorbell: srq_doorbell(), or a QP's own. */
  function RingBell(dp: Dp, ring: RingName, pIndex: nat): (r: Dp) {
    var rr := RingAt(dp.host, ring);
    if !HasRing(dp.host, ring) || !rr.live || rr.depth == 0 || pIndex >= rr.depth then dp
    else dp.(host := SetRing(dp.host, ring, Belled(rr, pIndex)),
             log := dp.log + [Journal.Posted(ring, Added(rr.prod, rr.depth, pIndex))])
  }

  /** The doorbell of a QP's own receive queue. */
  function RqBell(dp: Dp, i: nat, pIndex: nat): (r: Dp) {
    if i < |dp.qps| && dp.qps[i].valid then RingBell(dp, Own(i), pIndex) else dp
  }

  /** ionic_datapath_register_srq() */
  function OpenSrq(dp: Dp, s: nat, rq: RingDesc): (r: Dp) {
    var ring := Shared(s);
    if !GeometryOk(rq, SRQ_MAX_LOG2) then dp
    else if !rq.readable then dp.(host := SetRing(dp.host, ring, RingAt(dp.host, ring).(live := false)))
    else
      dp.(host := SetRing(dp.host, ring, RecvRing(true, Pow2(rq.depthLog2), 0, 0)), log := dp.log + [RingReset(ring)])
  }

  /** ionic_datapath_unregister_srq() */
  function CloseSrq(dp: Dp, s: nat): (r: Dp) {
    var ring := Shared(s);
    if !RingAt(dp.host, ring).live then dp
    else dp.(host := SetRing(dp.host, ring, RecvRing(false, 0, 0, 0)), log := dp.log + [RingReset(ring)])
  }

  /** The guest, or something else the model leaves out, writes to memory. */
  function GuestWrites(dp: Dp, writes: Dma.Memory): (r: Dp) {
    dp.(host := dp.host.(mem := Overwritten(dp.host.mem, writes)))
  }

  /** A region is registered, invalidated or unregistered. */
  function BindMr(dp: Dp, op: Regions.MrOp): (r: Dp) {
    dp.(host := dp.host.(mrs := Regions.Apply(dp.host.mrs, op)))
  }

  // ---------------------------------------------------------------------
  // Completions
  // ---------------------------------------------------------------------

  /** sq_fault_finish() */
  function FaultFinish(dp: Dp, i: nat): (r: Dp)
    requires i < |dp.qps|
    ensures Steady(dp, r)
    ensures OnlyQp(dp, r, i)
  {
    if !dp.qps[i].fault || Awaits(dp.pend, i) then dp
    else Flush(dp.(log := dp.log + [Cqe(i, ByFault(dp.qps[i].mesh), None, LocalQpOperErr)]), i)
  }

  /** pending_complete(), up to the WQE it may have held up. */
  function Retire(dp: Dp, s: nat, status: Status, how: How): (r: Dp)
    requires s < |dp.pend| && dp.pend[s].Some?
    ensures Steady(dp, r)
  {
    var p := dp.pend[s].value;
    var posts := p.qp < |dp.qps| && dp.qps[p.qp].valid && Completes(p);
    dp.(pend := dp.pend[s := None],
        log := dp.log
               + (if posts then [Cqe(p.qp, ByReq(p.req), if p.useMsn then Some(p.msn) else None, status)] else [])
               + [Retired(p.req, how, posts)])
  }

  /** pending_complete() */
  function Complete(dp: Dp, s: nat, status: Status, how: How): (r: Dp)
    requires s < |dp.pend| && dp.pend[s].Some?
    ensures Steady(dp, r)
  {
    var qp := dp.pend[s].value.qp;
    var dp1 := Retire(dp, s, status, how);
    if qp < |dp.qps| && dp.qps[qp].valid then FaultFinish(dp1, qp) else dp1
  }

  /** The timed-out entries of ionic_datapath_poll()'s last loop, from n. */
  function Expire(dp: Dp, now: nat, n: nat): (r: Dp)
    requires n <= |dp.pend|
    ensures |r.pend| == |dp.pend| && |r.qps| == |dp.qps|
    ensures Steady(dp, r)
    decreases |dp.pend| - n
  {
    if n == |dp.pend| then dp
    else if dp.pend[n].Some? && now > dp.pend[n].value.deadline then
      Expire(Complete(TakeBack(dp, dp.pend[n].value), n, RetryExceeded, TimedOut), now, n + 1)
    else Expire(dp, now, n + 1)
  }

  /** dp_mesh_cancel_request() */
  function TakeBack(dp: Dp, p: Pending): (r: Dp)
    ensures Steady(dp, r)
  {
    if HasRequest(dp.outq, p.mesh, p.req)
    then dp.(outq := KeepRequest(dp.outq, p.mesh, p.req), log := dp.log + [Journal.TakenBack(p.req)])
    else dp
  }

  /** How many bytes of an answer are to land. */
  function Wanted(p: Pending, msg: Msg): (n: nat) {
    if p.length < |msg.payload| then p.length else |msg.payload|
  }

  /** What scattering an answer's data over its request's list leaves. */
  function Scattered(dp: Dp, p: Pending, msg: Msg, reach: Reach): (r: Dp)
    ensures Steady(dp, r)
    ensures r.qps == dp.qps && r.pend == dp.pend && r.outq == dp.outq && r.nextReq == dp.nextReq
    ensures r.stalled == dp.stalled
  {
    var s := Flat(dp.host.mrs, p.local);
    var n := Went(dp.host.mem, s, Wanted(p, msg), reach);
    dp.(host := dp.host.(mem := Put(dp.host.mem, s, msg.payload, n)),
        log := dp.log + [Landed(p.req, p.local, msg.payload[..n])])
  }

  /** The status that scatter completes the request with. */
  function ScatterStatus(dp: Dp, p: Pending, msg: Msg, reach: Reach, fault: Status): (s: Status) {
    if Counted(dp.host.mem, Flat(dp.host.mrs, p.local), Wanted(p, msg), reach) == Wanted(p, msg) then Ok
    else FaultStatus(fault, LocalProtErr)
  }

  /** dp_wire_response(): reach is how far the scatter gets, and fault what it
      noted on the way. */
  function Response(dp: Dp, msg: Msg, reach: Reach, fault: Status): (r: Dp)
    ensures Steady(dp, r)
  {
    var s := Find(dp.pend, 0, msg.reqId);
    if s == |dp.pend| then dp
    else
      var p := dp.pend[s].value;
      if msg.status == Ok && msg.op != Ack then
        Complete(Scattered(dp, p, msg, reach), s, ScatterStatus(dp, p, msg, reach, fault), Answered)
      else
        Complete(dp, s, msg.status, Answered)
  }

  // ---------------------------------------------------------------------
  // Posting to another node
  // ---------------------------------------------------------------------

  /** The WQE's fields that remote_post() sends: source is what its message takes
      with it, and length the one it names. */
  datatype Post = Post(
    op: WqeOp,
    wqe: nat,
    useMsn: bool,
    signalled: bool,
    source: Source,
    length: nat,
    rkey: nat,
    va: nat,
    atomic: Atomic,
    local: seq<Sge>,
    destQp: nat,
    destNode: nat)

  datatype Posted = PostSent | PostBusy | PostSendFailed | PostFailed

  function PayloadLen(op: WireOp, p: Post): (n: nat) {
    if IsSend(op) then SourceLen(p.source) else if IsWrite(op) then p.length else 0
  }

  /** The size of the answer's data, 0 for an acknowledgement. */
  function AnswerLen(op: WireOp, p: Post): (n: nat) {
    match op
    case ReadReq => p.length
    case AtomicReq => 8
    case _ => 0
  }

  function HeaderLen(op: WireOp, p: Post): (n: nat) {
    if IsSend(op) then SourceLen(p.source) else if op.AtomicReq? then 8 else p.length
  }

  function ReplyLimit(op: WireOp, p: Post): (n: nat)
    ensures HDR_LEN <= n <= REPLY_BUDGET
  {
    HDR_LEN + if AnswerLen(op, p) <= MAX_PAYLOAD then AnswerLen(op, p) else 0
  }

  /** The same, having got so far with its list. */
  function Reaching(p: Post, reach: Reach): (r: Post) {
    if p.source.FromList? then p.(source := FromList(p.source.list, reach)) else p
  }

  /** What remote_post() makes of a request, in the order it checks. */
  function PostResult(dp: Dp, p: Post, env: MeshEnv): (r: Posted) {
    if FreeSlot(dp.pend, 0) == |dp.pend| then PostFailed else Admitted(dp.pend, dp.host, p, env)
  }

  function Admitted(t: Table, h: Host, p: Post, env: MeshEnv): (r: Posted) {
    if WireOf(p.op).None? then PostFailed
    else
      var op := WireOf(p.op).value;
      if PayloadLen(op, p) > MAX_PAYLOAD then PostFailed
      else if ReplyBytes(t, |t|, p.destNode) > REPLY_BUDGET - ReplyLimit(op, p) then PostBusy
      else if !env.hasRoom then PostBusy
      else if PayloadLen(op, p) > 0 && !(env.alloc && CanFetch(h, p.source, PayloadLen(op, p))) then PostFailed
      else match env.tx
        case TxQueued => PostSent
        case TxAgain => PostBusy
        case TxFailed => PostSendFailed
  }

  function NextMsn(q: Qp): (n: nat) { (q.msn + 1) % U32 }

  /** The message and the pending entry of a request that was sent. */
  function PostedMsg(dp: Dp, i: nat, p: Post): (m: Msg)
    requires WireOf(p.op).Some?
  {
    var op := WireOf(p.op).value;
    Msg(op, i, p.destQp, dp.nextReq + 1, p.rkey, p.va, HeaderLen(op, p), p.atomic, Ok,
        if PayloadLen(op, p) > 0 then Fetched(dp.host, p.source, PayloadLen(op, p)) else [])
  }

  function PostedEntry(dp: Dp, i: nat, now: nat, p: Post): (e: Pending)
    requires WireOf(p.op).Some? && i < |dp.qps|
  {
    var op := WireOf(p.op).value;
    Pending(dp.nextReq + 1, i, p.wqe, if p.useMsn then NextMsn(dp.qps[i]) else 0, p.useMsn, p.signalled,
            AnswerLen(op, p), if op.ReadReq? || op.AtomicReq? then p.local else [],
            now + PENDING_MS, dp.qps[i].mesh, p.destNode, ReplyLimit(op, p))
  }

  /** The event a request that is sent leaves behind. */
  function SentEvent(dp: Dp, i: nat, now: nat, p: Post): (e: Event)
    requires i < |dp.qps| && WireOf(p.op).Some?
  {
    var entry := PostedEntry(dp, i, now, p);
    Sent(dp.qps[i].mesh, dp.qps[i].ran, entry.req, if p.useMsn then Some(entry.msn) else None,
         Completes(entry), p.destNode, PostedMsg(dp, i, p), entry.local)
  }

  /** The request is the mesh's: it is parked, queued and journalled, and a
      message sequence number taken if it carries one. */
  function Parked(dp: Dp, i: nat, s: nat, e: Pending, sent: Event): (r: Dp)
    requires i < |dp.qps| && s < |dp.pend| && sent.Sent?
    ensures Steady(dp, r)
    ensures InPlace(dp, r, i)
  {
    var q := dp.qps[i];
    dp.(pend := dp.pend[s := Some(e)],
        nextReq := dp.nextReq + 1,
        qps := if e.useMsn then dp.qps[i := q.(msn := e.msn)] else dp.qps,
        outq := dp.outq + [Queued(sent.dst, false, sent.mesh, sent.req, sent.msg)],
        log := dp.log + [sent])
  }

  /** remote_post() */
  function RemotePost(dp: Dp, i: nat, now: nat, p: Post, env: MeshEnv): (r: Dp)
    requires i < |dp.qps|
    ensures Steady(dp, r)
    ensures InPlace(dp, r, i)
  {
    var s := FreeSlot(dp.pend, 0);
    if s == |dp.pend| then dp
    else if !PostResult(dp, p, env).PostSent? then dp.(nextReq := dp.nextReq + 1)
    else Parked(dp, i, s, PostedEntry(dp, i, now, p), SentEvent(dp, i, now, p))
  }

  // ---------------------------------------------------------------------
  // Running a send queue
  // ---------------------------------------------------------------------

  /** dp_is_remote() */
  predicate IsRemote(dp: Dp, q: Qp) {
    dp.localNode != NO_NODE && q.destValid && q.destNode != NO_NODE && q.destNode != dp.localNode
  }

  /** A completion by SQ index. */
  function PostNpg(dp: Dp, i: nat, status: Status): (r: Dp)
    requires i < |dp.qps|
    ensures Steady(dp, r)
    ensures InPlace(dp, r, i)
  {
    dp.(log := dp.log + [Cqe(i, ByWqe(dp.qps[i].mesh, dp.qps[i].ran), None, status)])
  }

  /** A completion by message sequence number. */
  function PostMsn(dp: Dp, i: nat, status: Status): (r: Dp)
    requires i < |dp.qps|
    ensures Steady(dp, r)
    ensures InPlace(dp, r, i)
  {
    var q := dp.qps[i];
    dp.(qps := dp.qps[i := q.(msn := NextMsn(q))],
        log := dp.log + [Cqe(i, ByWqe(q.mesh, q.ran), Some(NextMsn(q)), status)])
  }

  /** dp_complete_send() */
  function CompleteSend(dp: Dp, i: nat, status: Status): (r: Dp)
    requires i < |dp.qps|
    ensures Steady(dp, r)
    ensures InPlace(dp, r, i)
  {
    if IsDatagram(dp.qps[i].kind) then PostNpg(dp, i, status) else PostMsn(dp, i, status)
  }

  /** What running a WQE comes to: whether the queue moves past it. */
  datatype Ran = Ran(dp: Dp, past: bool)

  function Unfetched(dp: Dp, i: nat): (r: Dp)
    requires i < |dp.qps|
    ensures Steady(dp, r)
    ensures OnlyQp(dp, r, i)
  {
    var dp1 := Clear(dp, i);
    FaultFinish(dp1.(qps := dp1.qps[i := dp1.qps[i].(fault := true)]), i)
  }

  /** What a WQE has remote_post() send: a SEND names no memory. */
  function PostOf(w: Wqe, connected: bool, destQp: nat, destNode: nat): (p: Post)
    requires w.Wqe?
  {
    var far := !IsSendOp(w.op);
    Post(w.op, w.id, connected, w.signalled, FromList(w.local, w.got.gather), w.length, if far then w.rkey else 0,
         if far then w.va else 0, AtomicOf(w), w.local, destQp, destNode)
  }

  /** What process_sq_wqe() makes of remote_post()'s result. */
  function AfterPost(dp: Dp, i: nat, connected: bool, signalled: bool, posted: Posted): (r: Ran)
    requires i < |dp.qps|
    ensures Steady(dp, r.dp)
    ensures InPlace(dp, r.dp, i)
  {
    match posted
    case PostSent => Ran(dp, true)
    case PostBusy => Ran(SetBusy(dp, i), false)
    case PostSendFailed => Ran(FailPost(dp, i, connected, signalled, RetryExceeded), true)
    case PostFailed => Ran(FailPost(dp, i, connected, signalled, RemoteAccErr), true)
  }

  function FailPost(dp: Dp, i: nat, connected: bool, signalled: bool, status: Status): (r: Dp)
    requires i < |dp.qps|
    ensures Steady(dp, r)
    ensures InPlace(dp, r, i)
  {
    if connected then PostMsn(dp, i, status) else if signalled then PostNpg(dp, i, status) else dp
  }

  function RunRemote(dp: Dp, i: nat, now: nat, w: Wqe): (r: Ran)
    requires i < |dp.qps| && w.Wqe?
    ensures Steady(dp, r.dp)
    ensures InPlace(dp, r.dp, i)
  {
    var q := dp.qps[i];
    var connected := !IsDatagram(q.kind);
    var p := PostOf(w, connected, q.destQp, q.destNode);
    AfterPost(RemotePost(dp, i, now, p, w.mesh), i, connected, w.signalled, PostResult(dp, p, w.mesh))
  }

  /** Whether a datagram's bytes can be gathered. */
  predicate CanGram(h: Host, w: Wqe)
    requires w.Wqe?
  {
    CanGather(h, w.local, DatagramLen(w.local), w.got.gather)
  }

  /** What they are, the header in front. */
  function Gram(h: Host, w: Wqe): (b: seq<byte>)
    requires w.Wqe? && !w.send.Absorbed?
  {
    w.send.grh + Gathered(h, w.local, DatagramLen(w.local))
  }

  /** The datagram a UD send hands the mesh. */
  function Datagram(h: Host, w: Wqe): (p: Post)
    requires w.Wqe? && w.send.ToNode?
  {
    Post(w.op, w.id, false, false, FromBytes(Gram(h, w)), w.length, 0, 0, AtomicOf(w), [], w.send.dstQp, w.send.node)
  }

  /** The QP a SEND that stays in this device is for. */
  function SendTarget(q: Qp, i: nat, dst: nat): (j: nat) {
    if IsDatagram(q.kind) then dst else if q.destValid then q.destQp else i
  }

  /** Whether a SEND of QP q gets as far as QP j's receives: the QP exists, takes
      datagrams if it is one, under that key, and its bytes can be gathered. */
  predicate Delivers(dp: Dp, q: Qp, j: nat, w: Wqe)
    requires w.Wqe? && w.send.ToQp?
  {
    && j < |dp.qps| && dp.qps[j].valid
    && (IsDatagram(q.kind) ==> IsDatagram(dp.qps[j].kind) && w.send.keyOk)
    && (IsDatagram(dp.qps[j].kind) ==> CanGram(dp.host, w))
  }

  /** What it has for them. */
  function SendLoad(dp: Dp, j: nat, w: Wqe): (load: Load)
    requires j < |dp.qps| && w.Wqe? && w.send.ToQp?
  {
    if IsDatagram(dp.qps[j].kind) then FromHost(Gram(dp.host, w)) else FromGuest(w.local)
  }

  /** The delivery of a WQE's load to QP j of this device. */
  function DeliveryTo(dp: Dp, j: nat, w: Wqe, load: Load): (d: Delivery)
    requires j < |dp.qps| && w.Wqe?
  {
    Deliver(dp.host, RingFor(dp.qps[j], j), w.recv, load, w.got.move, w.fault)
  }

  /** What a delivery leaves, and the receive's completion if it took one. */
  function Handed(dp: Dp, j: nat, taker: Taker, load: Load, d: Delivery): (r: Dp)
    requires j < |dp.qps|
    ensures Steady(dp, r)
    ensures r.qps == dp.qps && r.pend == dp.pend && r.outq == dp.outq && r.nextReq == dp.nextReq
    ensures r.stalled == dp.stalled
  {
    dp.(host := d.host,
        log := if d.taken
               then dp.log + [Received(j, RingFor(dp.qps[j], j), taker, LoadSize(load), d.landed, d.status)]
               else dp.log)
  }

  /** A SEND to a QP of this device. */
  function RunToQp(dp: Dp, i: nat, now: nat, w: Wqe): (r: Ran)
    requires i < |dp.qps| && w.Wqe? && w.send.ToQp? && now < U64 && dp.qps[i].rnrSince < U64
    ensures Steady(dp, r.dp)
    ensures InPlace(dp, r.dp, i)
  {
    var q := dp.qps[i];
    var j := SendTarget(q, i, w.send.dst);
    if !Delivers(dp, q, j, w) then Ran(CompleteSend(dp, i, Ok), true)
    else RunDelivery(dp, i, now, j, w, SendLoad(dp, j, w))
  }

  /** One that gets as far as QP j's receives. */
  function RunDelivery(dp: Dp, i: nat, now: nat, j: nat, w: Wqe, load: Load): (r: Ran)
    requires i < |dp.qps| && j < |dp.qps| && w.Wqe? && now < U64 && dp.qps[i].rnrSince < U64
    ensures Steady(dp, r.dp)
    ensures InPlace(dp, r.dp, i)
  {
    var q := dp.qps[i];
    var d := DeliveryTo(dp, j, w, load);
    var dp1 := Handed(dp, j, ForWqe(q.mesh, q.ran), load, d);
    if d.taken || !q.kind.RC? then Ran(CompleteSend(dp1, i, Ok), true) else RunRnr(dp1, i, now)
  }

  /** An RC SEND for which there is no receive. */
  function RunRnr(dp: Dp, i: nat, now: nat): (r: Ran)
    requires i < |dp.qps| && now < U64 && dp.qps[i].rnrSince < U64
    ensures Steady(dp, r.dp)
    ensures InPlace(dp, r.dp, i)
  {
    var dp1 := SetRnr(dp, i, now);
    if Since(now, dp1.qps[i].rnrSince) < RNR_RETRY_MS then Ran(dp1, false)
    else Ran(CompleteSend(dp1, i, RnrRetryExceeded), true)
  }

  function RunSend(dp: Dp, i: nat, now: nat, w: Wqe): (r: Ran)
    requires i < |dp.qps| && w.Wqe? && now < U64 && dp.qps[i].rnrSince < U64
    ensures Steady(dp, r.dp)
    ensures InPlace(dp, r.dp, i)
  {
    match w.send
    case Absorbed => Ran(CompleteSend(dp, i, Ok), true)
    case ToQp(_, _, _) => RunToQp(dp, i, now, w)
    case ToNode(_, _, _) =>
      if !IsDatagram(dp.qps[i].kind) || !CanGram(dp.host, w) then Ran(CompleteSend(dp, i, Ok), true)
      else
        var dp1 := RemotePost(dp, i, now, Datagram(dp.host, w), w.mesh);
        if PostResult(dp, Datagram(dp.host, w), w.mesh).PostBusy? then Ran(SetBusy(dp1, i), false)
        else Ran(CompleteSend(dp1, i, Ok), true)
  }

  /** What a REG_MR or LOCAL_INV does to the regions. */
  function RunReg(dp: Dp, w: Wqe): (r: Dp)
    requires w.Wqe?
    ensures Steady(dp, r)
    ensures r == dp.(host := r.host)
  {
    BindMr(dp, RegOpOf(w))
  }

  /** The receive a WRITE_IMM within the device takes, once its bytes have landed. */
  function RunImmediate(dp: Dp, i: nat, w: Wqe): (r: Dp)
    requires i < |dp.qps| && w.Wqe?
    ensures Steady(dp, r)
    ensures r.qps == dp.qps && r.pend == dp.pend && r.outq == dp.outq && r.nextReq == dp.nextReq
    ensures r.stalled == dp.stalled
  {
    var q := dp.qps[i];
    var j := if q.destValid then q.destQp else i;
    if j >= |dp.qps| || !dp.qps[j].valid then dp
    else Handed(dp, j, ForWqe(q.mesh, q.ran), Immediate(w.length), DeliveryTo(dp, j, w, Immediate(w.length)))
  }

  /** An RDMA or an atomic within the device. */
  function RunLocal(dp: Dp, i: nat, w: Wqe): (r: Dp)
    requires i < |dp.qps| && w.Wqe?
    ensures Steady(dp, r)
    ensures InPlace(dp, r, i)
  {
    var m := LocalOp(dp.host, w);
    var dp1 := dp.(host := m.host);
    CompleteSend(if w.op.OpWriteImm? && m.status == Ok then RunImmediate(dp1, i, w) else dp1, i, m.status)
  }

  /** process_sq_wqe() */
  function Run(dp: Dp, i: nat, now: nat, w: Wqe): (r: Ran)
    requires i < |dp.qps| && now < U64 && dp.qps[i].rnrSince < U64
    ensures Steady(dp, r.dp)
    ensures OnlyQp(dp, r.dp, i) && (r.past ==> r.dp.qps[i].cons == dp.qps[i].cons)
  {
    if w.Unreadable? then Ran(Unfetched(dp, i), false)
    else if w.op.OpRegMr? || w.op.OpLocalInv? then Ran(PostNpg(RunReg(dp, w), i, RegStatus(w)), true)
    else if w.early.Some? then Ran(CompleteSend(dp, i, MalformedStatus(w.early.value)), true)
    else if !SgesOk(dp.host.mrs, w.local) then Ran(CompleteSend(dp, i, LocalProtErr), true)
    else if IsRemote(dp, dp.qps[i]) then RunRemote(dp, i, now, w)
    else RunHere(dp, i, now, w)
  }

  /** process_sq_wqe(), for a WQE that stays in this process, or whose op or address
      handle says where it goes. */
  function RunHere(dp: Dp, i: nat, now: nat, w: Wqe): (r: Ran)
    requires i < |dp.qps| && w.Wqe? && now < U64 && dp.qps[i].rnrSince < U64
    ensures Steady(dp, r.dp)
    ensures InPlace(dp, r.dp, i)
  {
    if IsSendOp(w.op) then RunSend(dp, i, now, w)
    else if w.op.OpOther? then Ran(CompleteSend(dp, i, LocalQpOperErr), true)
    else Ran(RunLocal(dp, i, w), true)
  }

  /** The send queue moves past the WQE it ran. */
  function Advance(dp: Dp, i: nat): (r: Dp)
    requires InTable(dp, i)
    ensures OnlyQp(dp, r, i)
  {
    var dp1 := Clear(dp, i);
    var q := dp1.qps[i];
    dp1.(qps := dp1.qps[i := q.(cons := (q.cons + 1) % U32, ran := q.ran + 1)],
         log := dp1.log + [Moved(q.mesh, Rem(q.cons, q.depth))])
  }

  /** Whether the send queue has nothing left before its last doorbell. */
  predicate Drained(q: Qp)
    requires q.depth > 0
  {
    Rem(q.cons, q.depth) == q.prod
  }

  /** sq_service()'s loop, from its n-th turn: at(s) is the WQE it finds in slot s. */
  function ServiceFrom(dp: Dp, i: nat, now: nat, at: nat -> Wqe, n: nat): (r: Dp)
    requires InTable(dp, i) && now < U64 && dp.qps[i].rnrSince < U64
    ensures |r.pend| == |dp.pend| && OnlyQp(dp, r, i)
    ensures r.qps[i].depth == dp.qps[i].depth && r.qps[i].rnrSince < U64
    decreases if n < dp.qps[i].depth then dp.qps[i].depth - n else 0, 1
  {
    if Drained(dp.qps[i]) || n >= dp.qps[i].depth then dp else ServiceTurn(dp, i, now, at, n)
  }

  /** One turn of it, and the rest. */
  function ServiceTurn(dp: Dp, i: nat, now: nat, at: nat -> Wqe, n: nat): (r: Dp)
    requires InTable(dp, i) && now < U64 && dp.qps[i].rnrSince < U64 && n < dp.qps[i].depth
    ensures |r.pend| == |dp.pend| && OnlyQp(dp, r, i)
    ensures r.qps[i].depth == dp.qps[i].depth && r.qps[i].rnrSince < U64
    decreases dp.qps[i].depth - n, 0
  {
    var r := Run(dp, i, now, at(Rem(dp.qps[i].cons, dp.qps[i].depth)));
    if r.past then ServiceFrom(Advance(r.dp, i), i, now, at, n + 1) else r.dp
  }

  /** sq_service() */
  function Service(dp: Dp, i: nat, now: nat, at: nat -> Wqe): (r: Dp)
    requires InTable(dp, i) && now < U64 && dp.qps[i].rnrSince < U64
    ensures |r.pend| == |dp.pend| && OnlyQp(dp, r, i)
    ensures r.qps[i].depth == dp.qps[i].depth && r.qps[i].rnrSince < U64
  {
    if dp.qps[i].fault then dp else ServiceFrom(dp, i, now, at, 0)
  }

  /** A send queue's doorbell. */
  function Doorbell(dp: Dp, i: nat, pIndex: nat, now: nat, at: nat -> Wqe): (r: Dp)
    requires InTable(dp, i) && now < U64 && dp.qps[i].rnrSince < U64
  {
    if !dp.qps[i].valid then dp
    else
      var q := dp.qps[i];
      Service(dp.(qps := dp.qps[i := q.(prod := Rem(pIndex, q.depth))], log := dp.log + [SqRung(q.mesh)]), i, now, at)
  }

  /** Every QP's ring has a size, and its clock is a uint64_t. */
  predicate Shaped(dp: Dp) {
    forall i :: 0 <= i < |dp.qps| ==> DepthOk(dp.qps[i].depth) && dp.qps[i].depth > 0 && dp.qps[i].rnrSince < U64
  }

  /** ionic_datapath_poll()'s retry of stalled send queues, from QP n: it stops
      as soon as none is left. */
  function RetryFrom(dp: Dp, n: nat, now: nat, at: nat -> nat -> Wqe): (r: Dp)
    requires n <= |dp.qps| && now < U64 && Shaped(dp)
    decreases |dp.qps| - n
  {
    if dp.stalled == 0 || n == |dp.qps| then dp
    else RetryFrom(RetryOne(dp, n, now, at(n)), n + 1, now, at)
  }

  function RetryOne(dp: Dp, n: nat, now: nat, at: nat -> Wqe): (r: Dp)
    requires n < |dp.qps| && now < U64 && Shaped(dp)
    ensures |r.qps| == |dp.qps| && Shaped(r)
    ensures OnlyQp(dp, r, n)
  {
    if dp.qps[n].valid && IsStalled(dp.qps[n]) then
      var r := Service(dp, n, now, at);
      assert forall i :: 0 <= i < |r.qps| ==> r.qps[i] == (if i == n then r.qps[n] else dp.qps[i]);
      r
    else dp
  }
}
