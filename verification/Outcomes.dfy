/** What one turn of a send queue does, told in terms of the WQE it runs and the QP
    that runs it: what a request that is sent says, and which status each WQE that
    the device completes itself completes with. */
module Outcomes {
  import opened Arith
  import opened Wire
  import opened Journal
  import opened RecvRings
  import opened Copying
  import opened CopyLoops
  import opened Placement
  import opened Host
  import opened WorkRequests
  import opened SendQueue
  import opened Quiet
  import Regions

  // ---------------------------------------------------------------------
  // Turns
  // ---------------------------------------------------------------------

  /** What QP i's send queue makes of the WQE it is at. */
  predicate IsTurn(dp: Dp, i: nat, now: nat, w: Wqe, r: Ran) {
    i < |dp.qps| && now < U64 && dp.qps[i].rnrSince < U64 && r == Run(dp, i, now, w)
  }

  /** Whether a WQE is of the kind that goes somewhere, and none of its own fields, nor
      its list, stops it. */
  predicate Sendable(dp: Dp, w: Wqe) {
    && w.Wqe? && !w.op.OpRegMr? && !w.op.OpLocalInv? && w.early.None?
    && forall i :: 0 <= i < |w.local| ==>
         w.local[i].len == 0 || Regions.Covers(dp.host.mrs, w.local[i].lkey, w.local[i].va, w.local[i].len)
  }

  /** Whether the QP's peer is another node. */
  predicate Elsewhere(dp: Dp, q: Qp) {
    q.destValid && q.destNode != dp.localNode && q.destNode != 0xffff_ffff && dp.localNode != 0xffff_ffff
  }

  /** A turn of a WQE for another node, and one of a WQE that isn't. */
  predicate RemoteTurn(dp: Dp, i: nat, now: nat, w: Wqe, r: Ran) {
    && i < |dp.qps| && now < U64 && dp.qps[i].rnrSince < U64
    && Sendable(dp, w) && Elsewhere(dp, dp.qps[i]) && r == RunRemote(dp, i, now, w)
  }

  predicate LocalTurn(dp: Dp, i: nat, now: nat, w: Wqe, r: Ran) {
    && i < |dp.qps| && now < U64 && dp.qps[i].rnrSince < U64
    && Sendable(dp, w) && !Elsewhere(dp, dp.qps[i]) && r == RunHere(dp, i, now, w)
  }

  /** A WQE that nothing stops is for another node, or isn't. */
  lemma {:induction false} Dispatched(dp: Dp, i: nat, now: nat, w: Wqe, r: Ran)
    requires IsTurn(dp, i, now, w, r) && Sendable(dp, w)
    ensures RemoteTurn(dp, i, now, w, r) || LocalTurn(dp, i, now, w, r)
  {
    assert SgesOk(dp.host.mrs, w.local);
  }

  // ---------------------------------------------------------------------
  // What a request says
  // ---------------------------------------------------------------------

  /** Whether a message is of a WQE's op. */
  predicate SameOp(op: WqeOp, m: WireOp) {
    match op
    case OpSend => m == Send
    case OpSendInv => m == SendInv
    case OpSendImm => m == SendImm
    case OpRead => m == ReadReq
    case OpWrite => m == Write
    case OpWriteImm => m == WriteImm
    case OpAtomicCs => m == AtomicReq
    case OpAtomicFa => m == AtomicReq
    case _ => false
  }

  /** Whether a message asks for what a WQE does: it names the WQE's key and address,
      its operands if it is an atomic, and as many bytes. */
  predicate Says(w: Wqe, m: Msg) {
    && w.Wqe?
    && SameOp(w.op, m.op) && m.status == Ok
    && (IsSendOp(w.op) ==> m.rkey == m.va == 0 && m.length == ListLen(w.local) == |m.payload|)
    && (!IsSendOp(w.op) ==> m.rkey == w.rkey && m.va == w.va)
    && (w.op.OpWrite? || w.op.OpWriteImm? ==> m.length == w.length == |m.payload|)
    && (w.op.OpRead? ==> m.length == w.length && m.payload == [])
    && (w.op.OpAtomicCs? ==> m.atomic == CompareSwap(w.swapAdd, w.compare) && m.length == 8 && m.payload == [])
    && (w.op.OpAtomicFa? ==> m.atomic == FetchAdd(w.swapAdd) && m.length == 8 && m.payload == [])
  }

  /** How many bytes a WQE's request takes with it. */
  function Cargo(w: Wqe): (n: nat)
    requires w.Wqe?
  {
    if IsSendOp(w.op) then ListLen(w.local) else if w.op.OpWrite? || w.op.OpWriteImm? then w.length else 0
  }

  /** Whether a message has the bytes the WQE's list names, each of which is there. */
  predicate Laden(dp: Dp, w: Wqe, m: Msg) {
    && w.Wqe?
    && var s, n := Flat(dp.host.mrs, w.local), Cargo(w);
       if n == 0 then m.payload == []
       else n <= |s| && Reachable(dp.host.mem, s[..n]) && m.payload == DataOf(dp.host.mem, s[..n])
  }

  /** Whether a request goes from QP i to its peer, for the WQE it is at, and its
      answer to where the WQE says. */
  predicate Asks(dp: Dp, i: nat, w: Wqe, e: Event) {
    && i < |dp.qps| && w.Wqe?
    && var q := dp.qps[i];
       && e.Sent? && Says(w, e.msg)
       && e.mesh == q.mesh && e.k == q.ran && e.req == e.msg.reqId == dp.nextReq + 1
       && e.dst == q.destNode && e.msg.dstQp == q.destQp && e.msg.srcQp == i
       && e.msn == (if q.kind.RC? || q.kind.UC? then Some((q.msn + 1) % U32) else None)
       && e.completes == (q.kind.RC? || q.kind.UC? || w.signalled)
       && e.local == (if w.op.OpRead? || w.op.OpAtomicCs? || w.op.OpAtomicFa? then w.local else [])
       && Laden(dp, w, e.msg)
  }

  /** Whether a datagram goes where its address handle says, with its header and as
      much of its list as one takes in front. */
  predicate Datagrams(dp: Dp, i: nat, w: Wqe, e: Event) {
    && i < |dp.qps| && w.Wqe?
    && var q, s := dp.qps[i], Flat(dp.host.mrs, w.local);
       && e.Sent? && w.send.ToNode? && (q.kind.UD? || q.kind.GSI?) && IsSendOp(w.op) && SameOp(w.op, e.msg.op)
       && e.mesh == q.mesh && e.k == q.ran && e.req == e.msg.reqId == dp.nextReq + 1
       && e.dst == w.send.node && e.msg.dstQp == w.send.dstQp && e.msg.srcQp == i
       && e.msn.None? && !e.completes && e.local == []
       && e.msg.status == Ok && e.msg.rkey == e.msg.va == 0 && e.msg.length == |e.msg.payload|
       && e.msg.payload == w.send.grh + DataOf(dp.host.mem, if |s| < 8192 then s else s[..8192])
  }

  /** What the request leaves in the table, for its answer or its deadline. */
  predicate Parks(dp: Dp, i: nat, now: nat, w: Wqe, e: Event, p: Pending) {
    && i < |dp.qps| && w.Wqe? && e.Sent?
    && p.req == e.req && p.qp == i && p.wqe == w.id && p.mesh == e.mesh && p.destNode == e.dst
    && p.local == e.local && p.deadline == now + 30000
    && p.useMsn == e.msn.Some? && (e.msn.Some? ==> p.msn == e.msn.value) && Completes(p) == e.completes
    && p.length == (if e.msg.op.ReadReq? then w.length else if e.msg.op.AtomicReq? then 8 else 0)
    && p.replyBytes == ReplyRoom(w)
  }

  // ---------------------------------------------------------------------
  // A WQE for another node
  // ---------------------------------------------------------------------

  /** How long its answer can be. */
  function ReplyRoom(w: Wqe): (n: nat)
    requires w.Wqe?
  {
    if w.op.OpRead? && w.length <= 0xff_ffc4 then 60 + w.length
    else if w.op.OpAtomicCs? || w.op.OpAtomicFa? then 68 else 60
  }

  /** What a node's answers to the parked requests can come to. */
  function Owed(t: Table, node: nat): (n: nat) {
    if t == [] then 0
    else
      var e := t[|t| - 1];
      Owed(t[..|t| - 1], node) + if e.Some? && e.value.destNode == node then e.value.replyBytes else 0
  }

  lemma {:induction false} OwedIs(t: Table, n: nat, node: nat)
    requires n <= |t|
    ensures Owed(t[..n], node) == ReplyBytes(t, n, node)
  {
    if n > 0 {
      OwedIs(t, n - 1, node);
      assert t[..n][..n - 1] == t[..n - 1];
    }
  }

  /** Whether there is no place for its request, or it can't be made. */
  predicate Unsendable(dp: Dp, w: Wqe) {
    w.Wqe? && ((forall s :: 0 <= s < |dp.pend| ==> dp.pend[s].Some?) || w.op.OpOther? || Cargo(w) > 0xff_ffc4)
  }

  /** Whether it has to wait: the answers its peer still owes leave no room for one
      more, or the mesh has none. */
  predicate Crowded(dp: Dp, q: Qp, w: Wqe) {
    w.Wqe? && (Owed(dp.pend, q.destNode) + ReplyRoom(w) > 0x200_0000 || !w.mesh.hasRoom)
  }

  /** Whether its bytes can be gathered. */
  predicate Loads(dp: Dp, w: Wqe) {
    && w.Wqe?
    && var s := Flat(dp.host.mrs, w.local);
       Cargo(w) > 0 ==>
         w.mesh.alloc && Cargo(w) <= |s| && Reachable(dp.host.mem, s[..Cargo(w)]) && Lets(w.got.gather, Cargo(w))
  }

  /** The completion of the WQE QP i is at, by its next message sequence number if the
      QP is connected. */
  predicate Completed(dp: Dp, i: nat, e: Event, status: Status) {
    && i < |dp.qps|
    && var q := dp.qps[i];
       e == Cqe(i, ByWqe(q.mesh, q.ran), if q.kind.RC? || q.kind.UC? then Some((q.msn + 1) % U32) else None, status)
  }

  /** Whether a turn ends with that and nothing else, or if the QP isn't connected and
      the WQE not signalled, with nothing. */
  predicate FailsWith(dp: Dp, i: nat, w: Wqe, r: Ran, status: Status) {
    && i < |dp.qps| && w.Wqe?
    && r.past
    && if dp.qps[i].kind.RC? || dp.qps[i].kind.UC? || w.signalled
       then |r.dp.log| == |dp.log| + 1 && dp.log <= r.dp.log && Completed(dp, i, r.dp.log[|dp.log|], status)
       else r.dp.log == dp.log
  }

  /** Whether the queue stops at the WQE, to try it again when the mesh has room. */
  predicate WaitsForMesh(dp: Dp, i: nat, r: Ran) {
    && i < |dp.qps| == |r.dp.qps| && !r.past && r.dp.qps[i].busy
    && r.dp.log == dp.log && r.dp.outq == dp.outq && r.dp.pend == dp.pend
  }

  /** Whether it goes: the request is queued, parked and journalled. */
  predicate Goes(dp: Dp, i: nat, now: nat, w: Wqe, r: Ran) {
    && i < |dp.qps| && w.Wqe?
    && r.past && |r.dp.log| == |dp.log| + 1 && dp.log <= r.dp.log
    && var e := r.dp.log[|dp.log|];
       && Asks(dp, i, w, e) && r.dp.outq == dp.outq + [Queued(e.dst, false, e.mesh, e.req, e.msg)]
       && |r.dp.pend| == |dp.pend|
       && exists s :: 0 <= s < |dp.pend| && dp.pend[s].None? && r.dp.pend[s].Some?
                      && Parks(dp, i, now, w, e, r.dp.pend[s].value)
                      && forall x :: 0 <= x < |dp.pend| && x != s ==> r.dp.pend[x] == dp.pend[x]
  }

  lemma {:induction false} TableFull(t: Table, n: nat)
    requires n <= |t|
    ensures FreeSlot(t, n) == |t| <==> forall s :: n <= s < |t| ==> t[s].Some?
  {
  }

  /** What a WQE has remote_post() do, and its result. */
  predicate IsPost(dp: Dp, i: nat, w: Wqe, p: Post, posted: Posted) {
    && i < |dp.qps| && w.Wqe? && !w.op.OpRegMr? && !w.op.OpLocalInv?
    && p == PostOf(w, !IsDatagram(dp.qps[i].kind), dp.qps[i].destQp, dp.qps[i].destNode)
    && posted == PostResult(dp, p, w.mesh)
  }

  predicate PostedAs(dp: Dp, i: nat, w: Wqe, posted: Posted) {
    && i < |dp.qps| && w.Wqe?
    && posted == if Unsendable(dp, w) then PostFailed
                 else if Crowded(dp, dp.qps[i], w) then PostBusy
                 else if !Loads(dp, w) then PostFailed
                 else if w.mesh.tx.TxQueued? then PostSent
                 else if w.mesh.tx.TxAgain? then PostBusy
                 else PostSendFailed
  }

  lemma {:induction false} PostIs(dp: Dp, i: nat, w: Wqe, p: Post, posted: Posted)
    requires IsPost(dp, i, w, p, posted)
    ensures PostedAs(dp, i, w, posted)
  {
    TableFull(dp.pend, 0);
    OwedIs(dp.pend, |dp.pend|, dp.qps[i].destNode);
    assert dp.pend[..|dp.pend|] == dp.pend;
    AllCounted(dp.host.mem, Flat(dp.host.mrs, w.local), Cargo(w), w.got.gather);
  }

  /** What is sent of one. */
  predicate SentFor(dp: Dp, i: nat, now: nat, w: Wqe, p: Post) {
    && i < |dp.qps| && WireOf(p.op).Some?
    && Asks(dp, i, w, SentEvent(dp, i, now, p))
    && Parks(dp, i, now, w, SentEvent(dp, i, now, p), PostedEntry(dp, i, now, p))
  }

  lemma {:induction false} SentOfWqe(dp: Dp, i: nat, now: nat, w: Wqe, p: Post, posted: Posted)
    requires IsPost(dp, i, w, p, posted) && !Unsendable(dp, w) && Loads(dp, w)
    ensures SentFor(dp, i, now, w, p)
  {
    ListLenIs(dp.host.mrs, w.local);
  }

  /** What becomes of a post that is refused or put off. */
  lemma {:induction false} UnsentAs(dp: Dp, i: nat, now: nat, w: Wqe, p: Post, posted: Posted, r: Ran)
    requires IsPost(dp, i, w, p, posted) && RemoteTurn(dp, i, now, w, r)
    ensures posted.PostFailed? ==> FailsWith(dp, i, w, r, RemoteAccErr)
    ensures posted.PostSendFailed? ==> FailsWith(dp, i, w, r, RetryExceeded)
    ensures posted.PostBusy? ==> WaitsForMesh(dp, i, r)
  {
  }

  /** And of one that is sent. */
  lemma {:induction false} WentAs(dp: Dp, i: nat, now: nat, w: Wqe, p: Post, r: Ran)
    requires IsPost(dp, i, w, p, PostSent) && RemoteTurn(dp, i, now, w, r) && SentFor(dp, i, now, w, p)
    ensures Goes(dp, i, now, w, r)
  {
    var s := FreeSlot(dp.pend, 0);
    var e := SentEvent(dp, i, now, p);
    assert r.dp == Parked(dp, i, s, PostedEntry(dp, i, now, p), e);
    assert r.dp.log[|dp.log|] == e;
    assert r.dp.pend[s] == Some(PostedEntry(dp, i, now, p));
  }

  /** What can come of a WQE for another node: it fails with an access error if there
      is no place for its request or it can't be made, waits if there is no room, and
      is otherwise the mesh's, unless the mesh wants it later, or can't take it, which
      is an exhausted retry. */
  predicate RemoteEnds(dp: Dp, i: nat, now: nat, w: Wqe, r: Ran) {
    && i < |dp.qps| == |r.dp.qps| && w.Wqe?
    && (if Unsendable(dp, w) then FailsWith(dp, i, w, r, RemoteAccErr)
       else if Crowded(dp, dp.qps[i], w) then WaitsForMesh(dp, i, r)
       else if !Loads(dp, w) then FailsWith(dp, i, w, r, RemoteAccErr)
       else match w.mesh.tx
         case TxQueued => Goes(dp, i, now, w, r)
         case TxAgain => WaitsForMesh(dp, i, r)
         case TxFailed => FailsWith(dp, i, w, r, RetryExceeded))
  }

  lemma {:induction false} RemoteVerdict(dp: Dp, i: nat, now: nat, w: Wqe, r: Ran)
    requires RemoteTurn(dp, i, now, w, r)
    ensures RemoteEnds(dp, i, now, w, r)
  {
    var q := dp.qps[i];
    var p := PostOf(w, !IsDatagram(q.kind), q.destQp, q.destNode);
    var posted := PostResult(dp, p, w.mesh);
    PostIs(dp, i, w, p, posted);
    UnsentAs(dp, i, now, w, p, posted, r);
    if posted.PostSent? {
      SentOfWqe(dp, i, now, w, p, posted);
      WentAs(dp, i, now, w, p, r);
    }
  }

  // ---------------------------------------------------------------------
  // A WQE that stays in this process, or that the device refuses
  // ---------------------------------------------------------------------

  /** Whether a turn ends with the WQE's completion. */
  predicate EndsWith(dp: Dp, i: nat, r: Ran, status: Status) {
    i < |dp.qps| && r.past && |r.dp.log| > |dp.log| && Completed(dp, i, r.dp.log[|r.dp.log| - 1], status)
  }

  /** And has nothing before it. */
  predicate JustEnds(dp: Dp, i: nat, r: Ran, status: Status) {
    i < |dp.qps| && EndsWith(dp, i, r, status) && r.dp.log == dp.log + [r.dp.log[|dp.log|]]
  }

  lemma {:induction false} CompleteEnds(dp: Dp, b: Dp, i: nat, status: Status)
    requires i < |dp.qps| && b.qps == dp.qps
    ensures Completed(dp, i, CompleteSend(b, i, status).log[|b.log|], status)
    ensures CompleteSend(b, i, status).log == b.log + [CompleteSend(b, i, status).log[|b.log|]]
    ensures CompleteSend(b, i, status).host == b.host
  {
  }

  /** What a WQE completes with if its own fields are wrong. */
  predicate WrongWith(m: Malformed, status: Status) {
    status == if m.InlineTooLong? || m.ListTooLong? then LocalLenErr else LocalQpOperErr
  }

  /** What a WQE that is refused completes with. */
  predicate Refused(dp: Dp, i: nat, w: Wqe, r: Ran) {
    && w.Wqe?
    && (w.early.Some? ==> exists s :: WrongWith(w.early.value, s) && JustEnds(dp, i, r, s))
    && (w.early.None? ==> JustEnds(dp, i, r, LocalProtErr))
  }

  predicate IsReg(w: Wqe) { w.Wqe? && (w.op.OpRegMr? || w.op.OpLocalInv?) }

  predicate IsAtomicOp(w: Wqe) { w.Wqe? && (w.op.OpAtomicCs? || w.op.OpAtomicFa?) }

  /** A WQE whose own fields, or whose list, are wrong. */
  lemma {:induction false} RefusedVerdict(dp: Dp, i: nat, now: nat, w: Wqe, r: Ran)
    requires IsTurn(dp, i, now, w, r) && w.Wqe? && !IsReg(w) && !Sendable(dp, w)
    ensures Refused(dp, i, w, r)
  {
    CompleteEnds(dp, dp, i, LocalProtErr);
    if w.early.Some? {
      var s := MalformedStatus(w.early.value);
      CompleteEnds(dp, dp, i, s);
      assert WrongWith(w.early.value, s) && JustEnds(dp, i, r, s);
    }
  }

  /** And one whose op the device doesn't have. */
  lemma {:induction false} UnknownVerdict(dp: Dp, i: nat, now: nat, w: Wqe, r: Ran)
    requires LocalTurn(dp, i, now, w, r) && w.Wqe? && w.op.OpOther?
    ensures JustEnds(dp, i, r, LocalQpOperErr)
  {
    CompleteEnds(dp, dp, i, LocalQpOperErr);
  }

  /** What an RDMA or an atomic has done by the time it is completed. */
  function BeforeEnd(dp: Dp, i: nat, w: Wqe): (b: Dp)
    requires i < |dp.qps| && w.Wqe?
    ensures b.qps == dp.qps && dp.log <= b.log && b.host.mem == LocalOp(dp.host, w).host.mem
  {
    var m := LocalOp(dp.host, w);
    var dp1 := dp.(host := m.host);
    if w.op.OpWriteImm? && m.status == Ok then RunImmediate(dp1, i, w) else dp1
  }

  predicate LocalEnds(dp: Dp, i: nat, w: Wqe, r: Ran) {
    && i < |dp.qps| && w.Wqe?
    && var b := BeforeEnd(dp, i, w);
       && EndsWith(dp, i, r, LocalOp(dp.host, w).status) && |r.dp.log| == |b.log| + 1 && b.log <= r.dp.log
       && r.dp.host == b.host
  }

  lemma {:induction false} LocalIs(dp: Dp, i: nat, now: nat, w: Wqe, r: Ran)
    requires LocalTurn(dp, i, now, w, r) && w.Wqe? && (IsRdmaOp(w.op) || IsAtomicOp(w))
    ensures LocalEnds(dp, i, w, r)
  {
    CompleteEnds(dp, BeforeEnd(dp, i, w), i, LocalOp(dp.host, w).status);
  }

  /** An RDMA within the device completes with success if and only if it can be done,
      the bytes then being where they were to go, and otherwise says at which end it
      failed. */
  predicate RdmaEnds(dp: Dp, i: nat, w: Wqe, r: Ran) {
    && w.Wqe?
    && var s, d := Flat(dp.host.mrs, SourceList(w)), Flat(dp.host.mrs, DestList(w));
       if RdmaCan(dp.host, w) then
         && EndsWith(dp, i, r, Ok)
         && (Apart(s, d) ==> r.dp.host.mem == Linear(dp.host.mem, s[..w.length], d[..w.length]))
       else if !Regions.Covers(dp.host.mrs, w.rkey, w.va, w.length) then EndsWith(dp, i, r, RemoteAccErr)
       else EndsWith(dp, i, r, if w.fault != Ok then w.fault else LocalProtErr)
  }

  lemma {:induction false} RdmaVerdict(dp: Dp, i: nat, now: nat, w: Wqe, r: Ran)
    requires LocalTurn(dp, i, now, w, r) && w.Wqe? && IsRdmaOp(w.op)
    ensures RdmaEnds(dp, i, w, r)
  {
    LocalIs(dp, i, now, w, r);
    RdmaMeans(dp.host, w);
  }

  /** And so does an atomic. */
  predicate AtomicEnds(dp: Dp, i: nat, w: Wqe, r: Ran) {
    && w.Wqe? && r.dp.host.mem == LocalAtomic(dp.host, w).host.mem
    && (if AtomicCan(dp.host, w) then EndsWith(dp, i, r, Ok)
        else EndsWith(dp, i, r, if w.fault != Ok then w.fault else AtomicFault(dp.host, w)))
  }

  lemma {:induction false} AtomicVerdict(dp: Dp, i: nat, now: nat, w: Wqe, r: Ran)
    requires LocalTurn(dp, i, now, w, r) && IsAtomicOp(w)
    ensures AtomicEnds(dp, i, w, r)
  {
    LocalIs(dp, i, now, w, r);
    AtomicExactly(dp.host, w);
  }

  /** The ring QP j's receives come out of. */
  function RecvsOf(dp: Dp, j: nat): (ring: RingName)
    requires j < |dp.qps|
  {
    if dp.qps[j].hasSrq then Shared(dp.qps[j].srq) else Own(j)
  }

  /** Whether QP j has a receive to take. */
  predicate HasRecv(dp: Dp, j: nat, recv: Option<seq<Sge>>) {
    && j < |dp.qps|
    && var ring := RingAt(dp.host, RecvsOf(dp, j));
       ring.live && ring.cons != ring.prod && recv.Some?
  }

  /** Whether a turn took one of QP j's for the WQE that QP i is at, as the first thing
      it did. */
  predicate Took(dp: Dp, i: nat, j: nat, r: Ran, total: nat) {
    && i < |dp.qps| && j < |dp.qps|
    && var q := dp.qps[i];
       && |r.dp.log| > |dp.log| && dp.log <= r.dp.log
       && var e := r.dp.log[|dp.log|];
          && e.Received? && e.qp == j && e.ring == RecvsOf(dp, j) && e.taker == ForWqe(q.mesh, q.ran)
          && e.total == total && (e.landed < total ==> e.status != Ok) && (e.landed >= total ==> e.status == Ok)
  }

  /** A WRITE_IMM within the device that succeeds takes a receive of the QP it is for,
      if there is one; nothing else does. */
  predicate ImmediateEnds(dp: Dp, i: nat, w: Wqe, r: Ran) {
    && i < |dp.qps| && w.Wqe?
    && var j := if dp.qps[i].destValid then dp.qps[i].destQp else i;
       if w.op.OpWriteImm? && RdmaCan(dp.host, w) && j < |dp.qps| && dp.qps[j].valid && HasRecv(dp, j, w.recv)
       then Took(dp, i, j, r, w.length) && |r.dp.log| == |dp.log| + 2
       else |r.dp.log| == |dp.log| + 1
  }

  lemma {:induction false} ImmediateVerdict(dp: Dp, i: nat, now: nat, w: Wqe, r: Ran)
    requires LocalTurn(dp, i, now, w, r) && w.Wqe? && (IsRdmaOp(w.op) || IsAtomicOp(w))
    ensures ImmediateEnds(dp, i, w, r)
  {
    LocalIs(dp, i, now, w, r);
    if IsRdmaOp(w.op) {
      RdmaMeans(dp.host, w);
    }
    ImmediateLog(dp, i, w);
  }

  lemma {:induction false} ImmediateLog(dp: Dp, i: nat, w: Wqe)
    requires i < |dp.qps| && w.Wqe?
    ensures var b, q := BeforeEnd(dp, i, w), dp.qps[i];
      var j := if q.destValid then q.destQp else i;
      if w.op.OpWriteImm? && LocalOp(dp.host, w).status == Ok
         && j < |dp.qps| && dp.qps[j].valid && HasRecv(dp, j, w.recv)
      then b.log == dp.log + [Received(j, RecvsOf(dp, j), ForWqe(q.mesh, q.ran), w.length, w.length, Ok)]
      else b.log == dp.log
  {
  }

  /** The QP a SEND that stays in this process is for. */
  function PeerOf(dp: Dp, i: nat, w: Wqe): (j: nat)
    requires i < |dp.qps| && w.Wqe? && w.send.ToQp?
  {
    var q := dp.qps[i];
    if q.kind.UD? || q.kind.GSI? then w.send.dst else if q.destValid then q.destQp else i
  }

  /** How much of its list a datagram takes, and whether it can be gathered. */
  predicate GramLoads(dp: Dp, w: Wqe) {
    && w.Wqe?
    && var s := Flat(dp.host.mrs, w.local);
       var n := if |s| < 8192 then |s| else 8192;
       Reachable(dp.host.mem, s[..n]) && Lets(w.got.gather, n)
  }

  /** Whether a SEND gets as far as QP j's receives. */
  predicate GetsTo(dp: Dp, i: nat, j: nat, w: Wqe) {
    && i < |dp.qps| && w.Wqe? && w.send.ToQp?
    && var q := dp.qps[i];
       && j < |dp.qps| && dp.qps[j].valid
       && (q.kind.UD? || q.kind.GSI? ==> w.send.keyOk && (dp.qps[j].kind.UD? || dp.qps[j].kind.GSI?))
       && (dp.qps[j].kind.UD? || dp.qps[j].kind.GSI? ==> GramLoads(dp, w))
  }

  /** How many bytes it has for them. */
  function SendSize(dp: Dp, j: nat, w: Wqe): (n: nat)
    requires j < |dp.qps| && w.Wqe? && w.send.ToQp?
  {
    if dp.qps[j].kind.UD? || dp.qps[j].kind.GSI? then |w.send.grh| + Min(ListLen(w.local), 8192) else ListLen(w.local)
  }

  /** Whether the queue stops at the WQE, to try it again when there is a receive. */
  predicate WaitsForRecv(dp: Dp, i: nat, now: nat, r: Ran) {
    i < |dp.qps| == |r.dp.qps| && !r.past && r.dp.qps[i].rnr && r.dp.log == dp.log + [Waited(dp.qps[i].mesh, now)]
  }

  /** How long the WQE has waited for one. */
  function WaitedFor(q: Qp, now: nat): (t: nat)
    requires now < U64 && q.rnrSince < U64
  {
    if !q.rnr then 0 else if now >= q.rnrSince then now - q.rnrSince else U64 + now - q.rnrSince
  }

  lemma {:induction false} GramLoadsIs(dp: Dp, w: Wqe)
    requires w.Wqe?
    ensures CanGram(dp.host, w) == GramLoads(dp, w)
  {
    var s := Flat(dp.host.mrs, w.local);
    ListLenIs(dp.host.mrs, w.local);
    AllCounted(dp.host.mem, s, DatagramLen(w.local), w.got.gather);
  }

  /** A SEND to a QP of this device. */
  predicate SendsTo(dp: Dp, i: nat, w: Wqe) { i < |dp.qps| && w.Wqe? && IsSendOp(w.op) && w.send.ToQp? }

  predicate Delivered(dp: Dp, i: nat, now: nat, w: Wqe, r: Ran) {
    && SendsTo(dp, i, w) && now < U64 && dp.qps[i].rnrSince < U64
    && var j := PeerOf(dp, i, w);
       GetsTo(dp, i, j, w) && r == RunDelivery(dp, i, now, j, w, SendLoad(dp, j, w))
  }

  lemma {:induction false} SendIsTo(dp: Dp, i: nat, now: nat, w: Wqe, r: Ran)
    requires LocalTurn(dp, i, now, w, r) && SendsTo(dp, i, w)
    ensures Delivered(dp, i, now, w, r) || (!GetsTo(dp, i, PeerOf(dp, i, w), w) && JustEnds(dp, i, r, Ok))
  {
    GramLoadsIs(dp, w);
    CompleteEnds(dp, dp, i, Ok);
  }

  /** What can come of a SEND within this process: one that gets as far as a QP's
      receives takes one, and is completed with success. If there is none, one of an
      RC QP waits for it, and gives up once it has waited five seconds; any other is
      lost, as is one that doesn't get so far. */
  predicate SendEnds(dp: Dp, i: nat, now: nat, w: Wqe, r: Ran) {
    && i < |dp.qps| == |r.dp.qps| && now < U64 && dp.qps[i].rnrSince < U64 && w.Wqe? && w.send.ToQp?
    && var j := PeerOf(dp, i, w);
       if !GetsTo(dp, i, j, w) then JustEnds(dp, i, r, Ok)
       else if HasRecv(dp, j, w.recv) then
         Took(dp, i, j, r, SendSize(dp, j, w)) && EndsWith(dp, i, r, Ok) && |r.dp.log| == |dp.log| + 2
       else if !dp.qps[i].kind.RC? then JustEnds(dp, i, r, Ok)
       else if WaitedFor(dp.qps[i], now) < 5000 then WaitsForRecv(dp, i, now, r)
       else GivesUp(dp, i, now, r)
  }

  predicate GivesUp(dp: Dp, i: nat, now: nat, r: Ran) {
    && i < |dp.qps|
    && EndsWith(dp, i, r, RnrRetryExceeded) && |r.dp.log| == |dp.log| + 2
    && r.dp.log[..|dp.log| + 1] == dp.log + [Waited(dp.qps[i].mesh, now)]
  }

  lemma {:induction false} SendVerdict(dp: Dp, i: nat, now: nat, w: Wqe, r: Ran)
    requires LocalTurn(dp, i, now, w, r) && SendsTo(dp, i, w)
    ensures SendEnds(dp, i, now, w, r)
  {
    SendIsTo(dp, i, now, w, r);
    if GetsTo(dp, i, PeerOf(dp, i, w), w) {
      DeliveryEnds(dp, i, now, w, r);
    }
  }

  /** What finding no receive comes to for an RC QP. */
  lemma {:induction false} RnrEnds(dp: Dp, i: nat, now: nat)
    requires i < |dp.qps| && now < U64 && dp.qps[i].rnrSince < U64
    ensures var r := RunRnr(dp, i, now);
      if WaitedFor(dp.qps[i], now) < 5000 then WaitsForRecv(dp, i, now, r)
      else GivesUp(dp, i, now, r)
  {
  }

  /** And what taking one does. */
  lemma {:induction false} TakenEnds(dp: Dp, i: nat, j: nat, total: nat, load: Load, d: Delivery, r: Ran)
    requires i < |dp.qps| && j < |dp.qps| && d.taken && total == LoadSize(load)
    requires (d.landed < total ==> d.status != Ok) && (d.landed >= total ==> d.status == Ok)
    requires r == Ran(CompleteSend(Handed(dp, j, ForWqe(dp.qps[i].mesh, dp.qps[i].ran), load, d), i, Ok), true)
    ensures Took(dp, i, j, r, total) && EndsWith(dp, i, r, Ok) && |r.dp.log| == |dp.log| + 2
  {
  }

  lemma {:induction false} LoadIs(dp: Dp, j: nat, w: Wqe)
    requires j < |dp.qps| && w.Wqe? && w.send.ToQp?
    ensures LoadSize(SendLoad(dp, j, w)) == SendSize(dp, j, w)
  {
    ListLenIs(dp.host.mrs, w.local);
  }

  lemma {:induction false} DeliveryEnds(dp: Dp, i: nat, now: nat, w: Wqe, r: Ran)
    requires Delivered(dp, i, now, w, r)
    ensures SendEnds(dp, i, now, w, r)
  {
    var j := PeerOf(dp, i, w);
    var load := SendLoad(dp, j, w);
    var d := DeliveryTo(dp, j, w, load);
    LoadIs(dp, j, w);
    OneTaken(dp.host, RecvsOf(dp, j), w.recv, load, w.got.move, w.fault);
    if d.taken {
      TakenEnds(dp, i, j, SendSize(dp, j, w), load, d, r);
    } else {
      NoneTaken(dp.host, RecvsOf(dp, j), w.recv, load, w.got.move, w.fault);
      var dp1 := Handed(dp, j, ForWqe(dp.qps[i].mesh, dp.qps[i].ran), load, d);
      assert dp1 == dp;
      RnrEnds(dp, i, now);
      CompleteEnds(dp, dp, i, Ok);
    }
  }

  /** Whether a SEND finds a receive at QP j. */
  predicate Finds(dp: Dp, i: nat, j: nat, w: Wqe) {
    SendsTo(dp, i, w) && j == PeerOf(dp, i, w) && GetsTo(dp, i, j, w) && HasRecv(dp, j, w.recv)
  }

  /** What a SEND within this process to a connected QP leaves: its receive completes
      with success if and only if its list holds all the SEND's bytes, each of them at
      both ends can be reached and the mapping layer lets it. If the ends don't
      overlap, the one then holds what the other did, and nothing else has changed. */
  predicate SendLanded(dp: Dp, i: nat, j: nat, w: Wqe, r: Ran) {
    && Finds(dp, i, j, w) && |r.dp.log| > |dp.log| && r.dp.log[|dp.log|].Received?
    && var ok := r.dp.log[|dp.log|].status == Ok;
       var s, d := Flat(dp.host.mrs, w.local), Flat(dp.host.mrs, w.recv.value);
       && (ok <==> Both(dp.host.mem, s, d, |s|) && Lets(w.got.move, |s|))
       && (ok && Apart(s, d) ==> r.dp.host.mem == Linear(dp.host.mem, s, d[..|s|]))
       && RingsAfter(dp.host, r.dp.host, RecvsOf(dp, j), w.recv)
  }

  lemma {:induction false} SendLands(dp: Dp, i: nat, now: nat, j: nat, w: Wqe, r: Ran)
    requires LocalTurn(dp, i, now, w, r) && Finds(dp, i, j, w) && (dp.qps[j].kind.RC? || dp.qps[j].kind.UC?)
    ensures SendLanded(dp, i, j, w, r)
  {
    SendIsTo(dp, i, now, w, r);
    GuestLands(dp.host, RecvsOf(dp, j), w.local, w.recv.value, w.got.move, w.fault);
    DeliveredTo(dp, i, now, j, w, r);
  }

  /** What the receive completes with, and what it leaves, are the delivery's. */
  predicate Landed(dp: Dp, j: nat, w: Wqe, load: Load, r: Ran) {
    && j < |dp.qps| && w.Wqe? && |r.dp.log| > |dp.log| && r.dp.log[|dp.log|].Received?
    && var d := Deliver(dp.host, RecvsOf(dp, j), w.recv, load, w.got.move, w.fault);
       r.dp.log[|dp.log|].status == d.status && r.dp.host == d.host
  }

  lemma {:induction false} DeliveredTo(dp: Dp, i: nat, now: nat, j: nat, w: Wqe, r: Ran)
    requires Delivered(dp, i, now, w, r) && Finds(dp, i, j, w)
    ensures Landed(dp, j, w, SendLoad(dp, j, w), r)
  {
  }

  lemma {:induction false} GuestLands(h: Host, ring: RingName, sl: seq<Sge>, list: seq<Sge>, reach: Reach,
                                      fault: Status)
    requires Takes(RingAt(h, ring), Some(list))
    ensures var s, t := Flat(h.mrs, sl), Flat(h.mrs, list);
      var d := Deliver(h, ring, Some(list), FromGuest(sl), reach, fault);
      && (d.status == Ok <==> Both(h.mem, s, t, |s|) && Lets(reach, |s|))
      && (d.status == Ok && Apart(s, t) ==> d.host.mem == Linear(h.mem, s, t[..|s|]))
      && RingsAfter(h, d.host, ring, Some(list))
  {
    var s, t := Flat(h.mrs, sl), Flat(h.mrs, list);
    ListLenIs(h.mrs, sl);
    AllAlong(h, sl, list, |s|, reach);
    OneTaken(h, ring, Some(list), FromGuest(sl), reach, fault);
    if Deliver(h, ring, Some(list), FromGuest(sl), reach, fault).status == Ok && Apart(s, t) {
      WalkedApart(h.mrs, sl, list, h.mem, |s|);
      assert s[..|s|] == s;
    }
  }

  /** What one to a datagram QP leaves: the header and as much of the list as a
      datagram takes, in that order, whole if and only if the receive holds them. */
  predicate GramLanded(dp: Dp, i: nat, j: nat, w: Wqe, r: Ran) {
    && Finds(dp, i, j, w) && |r.dp.log| > |dp.log| && r.dp.log[|dp.log|].Received?
    && var ok := r.dp.log[|dp.log|].status == Ok;
       var s, d := Flat(dp.host.mrs, w.local), Flat(dp.host.mrs, w.recv.value);
       var data := w.send.grh + DataOf(dp.host.mem, if |s| < 8192 then s else s[..8192]);
       && (ok <==> |data| <= |d| && Reachable(dp.host.mem, d[..|data|]) && Lets(w.got.move, |data|))
       && (ok ==> r.dp.host.mem == Put(dp.host.mem, d, data, |data|))
       && RingsAfter(dp.host, r.dp.host, RecvsOf(dp, j), w.recv)
  }

  lemma {:induction false} DatagramLands(dp: Dp, i: nat, now: nat, j: nat, w: Wqe, r: Ran)
    requires LocalTurn(dp, i, now, w, r) && Finds(dp, i, j, w) && (dp.qps[j].kind.UD? || dp.qps[j].kind.GSI?)
    ensures GramLanded(dp, i, j, w, r)
  {
    SendIsTo(dp, i, now, w, r);
    GramIs(dp.host, w, w.send.grh);
    var data := Gram(dp.host, w);
    LandsWhole(dp.host, RecvsOf(dp, j), w.recv.value, data, w.got.move, w.fault);
    OneTaken(dp.host, RecvsOf(dp, j), w.recv, FromHost(data), w.got.move, w.fault);
    DeliveredTo(dp, i, now, j, w, r);
  }

  lemma {:induction false} GramIs(h: Host, w: Wqe, grh: seq<byte>)
    requires w.Wqe? && !w.send.Absorbed? && grh == w.send.grh
    ensures var s := Flat(h.mrs, w.local);
      Gram(h, w) == grh + DataOf(h.mem, if |s| < 8192 then s else s[..8192])
  {
    var s := Flat(h.mrs, w.local);
    ListLenIs(h.mrs, w.local);
    assert s[..|s|] == s;
  }

  // ---------------------------------------------------------------------
  // Datagrams to another node
  // ---------------------------------------------------------------------

  /** How long a datagram is. */
  function GramSize(w: Wqe): (n: nat)
    requires w.Wqe? && w.send.ToNode?
  {
    |w.send.grh| + Min(ListLen(w.local), 8192)
  }

  /** Whether there is a place for it. */
  predicate GramFits(dp: Dp, w: Wqe) {
    w.Wqe? && w.send.ToNode? && (exists s :: 0 <= s < |dp.pend| && dp.pend[s].None?) && GramSize(w) <= 0xff_ffc4
  }

  predicate GramCrowded(dp: Dp, w: Wqe) {
    w.Wqe? && w.send.ToNode? && (Owed(dp.pend, w.send.node) + 60 > 0x200_0000 || !w.mesh.hasRoom)
  }

  /** What comes of one: it waits if there is no room for it; otherwise its WQE
      completes with success, sent or lost. */
  predicate GramEnds(dp: Dp, i: nat, w: Wqe, r: Ran) {
    && i < |dp.qps| && w.Wqe? && w.send.ToNode?
    && (if dp.qps[i].kind.RC? || dp.qps[i].kind.UC? || !GramLoads(dp, w) || !GramFits(dp, w) then JustEnds(dp, i, r, Ok)
        else if GramCrowded(dp, w) then WaitsForMesh(dp, i, r)
        else if GramSize(w) > 0 && !w.mesh.alloc then JustEnds(dp, i, r, Ok)
        else match w.mesh.tx
          case TxAgain => WaitsForMesh(dp, i, r)
          case TxFailed => JustEnds(dp, i, r, Ok)
          case TxQueued => GramGoes(dp, i, w, r))
  }

  predicate GramGoes(dp: Dp, i: nat, w: Wqe, r: Ran) {
    && EndsWith(dp, i, r, Ok) && |r.dp.log| == |dp.log| + 2 && dp.log <= r.dp.log
    && var e := r.dp.log[|dp.log|];
       Datagrams(dp, i, w, e) && r.dp.outq == dp.outq + [Queued(e.dst, false, e.mesh, e.req, e.msg)]
  }

  lemma {:induction false} DatagramVerdict(dp: Dp, i: nat, now: nat, w: Wqe, r: Ran)
    requires LocalTurn(dp, i, now, w, r) && w.Wqe? && IsSendOp(w.op) && w.send.ToNode?
    ensures GramEnds(dp, i, w, r)
  {
    GramLoadsIs(dp, w);
    CompleteEnds(dp, dp, i, Ok);
    if IsDatagram(dp.qps[i].kind) && GramLoads(dp, w) {
      var p := Datagram(dp.host, w);
      var posted := PostResult(dp, p, w.mesh);
      GramPosted(dp, i, w, p, posted);
      GramRan(dp, i, now, w, p, posted, r);
    }
  }

  /** What a datagram has remote_post() do, and its result. */
  predicate IsGram(dp: Dp, i: nat, w: Wqe, p: Post, posted: Posted) {
    && i < |dp.qps| && IsDatagram(dp.qps[i].kind) && w.Wqe? && IsSendOp(w.op) && w.send.ToNode? && CanGram(dp.host, w)
    && p == Datagram(dp.host, w) && posted == PostResult(dp, p, w.mesh)
  }

  predicate GramPostedAs(dp: Dp, w: Wqe, posted: Posted) {
    && w.Wqe? && w.send.ToNode?
    && posted == if !GramFits(dp, w) then PostFailed
                 else if GramCrowded(dp, w) then PostBusy
                 else if GramSize(w) > 0 && !w.mesh.alloc then PostFailed
                 else if w.mesh.tx.TxQueued? then PostSent
                 else if w.mesh.tx.TxAgain? then PostBusy
                 else PostSendFailed
  }

  lemma {:induction false} GramPosted(dp: Dp, i: nat, w: Wqe, p: Post, posted: Posted)
    requires IsGram(dp, i, w, p, posted)
    ensures GramPostedAs(dp, w, posted)
  {
    TableFull(dp.pend, 0);
    OwedIs(dp.pend, |dp.pend|, w.send.node);
    assert dp.pend[..|dp.pend|] == dp.pend;
    ListLenIs(dp.host.mrs, w.local);
  }

  lemma {:induction false} GramRan(dp: Dp, i: nat, now: nat, w: Wqe, p: Post, posted: Posted, r: Ran)
    requires LocalTurn(dp, i, now, w, r) && IsGram(dp, i, w, p, posted)
    ensures posted.PostBusy? ==> WaitsForMesh(dp, i, r)
    ensures posted.PostSent? ==> GramGoes(dp, i, w, r)
    ensures posted.PostFailed? || posted.PostSendFailed? ==> JustEnds(dp, i, r, Ok)
  {
    if posted.PostSent? {
      GramSent(dp, i, now, w, p, posted);
      assert r.dp.log[|dp.log|] == SentEvent(dp, i, now, p);
    }
  }

  predicate GramSentAs(dp: Dp, i: nat, now: nat, w: Wqe, p: Post) {
    i < |dp.qps| && WireOf(p.op).Some? && Datagrams(dp, i, w, SentEvent(dp, i, now, p))
  }

  lemma {:induction false} GramSent(dp: Dp, i: nat, now: nat, w: Wqe, p: Post, posted: Posted)
    requires IsGram(dp, i, w, p, posted)
    ensures GramSentAs(dp, i, now, w, p)
  {
    GramIs(dp.host, w, w.send.grh);
    var g := Gram(dp.host, w);
    assert g[..|g|] == g;
  }

  /** A SEND to nothing, or to a target that takes it without a receive. */
  lemma {:induction false} AbsorbedVerdict(dp: Dp, i: nat, now: nat, w: Wqe, r: Ran)
    requires LocalTurn(dp, i, now, w, r) && w.Wqe? && IsSendOp(w.op) && w.send.Absorbed?
    ensures JustEnds(dp, i, r, Ok)
  {
    CompleteEnds(dp, dp, i, Ok);
  }

  // ---------------------------------------------------------------------
  // Regions, and a WQE that can't be read
  // ---------------------------------------------------------------------

  /** What a REG_MR registers. */
  function Asked(w: Wqe): (op: Regions.MrOp)
    requires w.Wqe? && w.reg.Binds?
  {
    Regions.Register(w.key, w.reg.va, w.reg.length, w.reg.desc, w.reg.table)
  }

  /** A REG_MR or LOCAL_INV completes by itself, whatever the QP. A REG_MR succeeds if
      and only if what it registers is accepted, and then its key, and none of its
      index's others, reaches each byte where that puts it; if it fails none of them
      reaches anything. A LOCAL_INV takes away its own key's binding. */
  predicate RegEnds(dp: Dp, i: nat, w: Wqe, k: nat, x: nat, r: Ran) {
    && i < |dp.qps| && IsReg(w)
    && var good := w.op.OpLocalInv? || (w.reg.Binds? && Regions.Accepts(Asked(w)));
       var cause := ByWqe(dp.qps[i].mesh, dp.qps[i].ran);
       && r.past && r.dp.log == dp.log + [Cqe(i, cause, None, if good then Ok else MemMgmtOperErr)]
       && r.dp.host.mem == dp.host.mem
       && ByteOf(r.dp.host.mrs, Va(k, x))
          == if w.op.OpRegMr? && w.key == k && good then Placed(Asked(w), x)
             else if w.key == k || (w.op.OpRegMr? && w.key / 256 == k / 256) then None
             else ByteOf(dp.host.mrs, Va(k, x))
  }

  lemma {:induction false} RegVerdict(dp: Dp, i: nat, now: nat, w: Wqe, k: nat, x: nat, r: Ran)
    requires IsTurn(dp, i, now, w, r) && IsReg(w) && k != 0 && Regions.RegionsOk(dp.host.mrs)
    ensures RegEnds(dp, i, w, k, x, r)
  {
    RegMeans(dp.host.mrs, w);
    StepPlaces(dp.host.mrs, RegOpOf(w), k, x);
  }

  /** Whether a request of the QP is still to be completed. */
  predicate Outstanding(dp: Dp, i: nat) {
    exists s :: 0 <= s < |dp.pend| && dp.pend[s].Some? && dp.pend[s].value.qp == i
                && (dp.pend[s].value.useMsn || dp.pend[s].value.signalled)
  }

  /** A WQE that can't be read stops its queue. The guest is told once none of the
      QP's requests is outstanding, and the QP is flushed with it. */
  predicate UnreadEnds(dp: Dp, i: nat, r: Ran) {
    && i < |dp.qps| == |r.dp.qps| && !r.past
    && var q, q' := dp.qps[i], r.dp.qps[i];
       && !q'.rnr && !q'.busy
       && (Outstanding(dp, i) ==> q'.fault && r.dp.log == dp.log && r.dp.pend == dp.pend)
       && (!Outstanding(dp, i) ==>
             && dp.log + [Cqe(i, ByFault(q.mesh), None, LocalQpOperErr)] <= r.dp.log
             && (q.valid ==> !q'.fault && q'.cons == q'.prod))
  }

  lemma {:induction false} UnreadVerdict(dp: Dp, i: nat, now: nat, r: Ran)
    requires IsTurn(dp, i, now, Unreadable, r)
    ensures UnreadEnds(dp, i, r)
  {
    assert Outstanding(dp, i) == Awaits(dp.pend, i) by {
      if Outstanding(dp, i) {
        var s :| 0 <= s < |dp.pend| && dp.pend[s].Some? && dp.pend[s].value.qp == i
                 && (dp.pend[s].value.useMsn || dp.pend[s].value.signalled);
        assert Owned(dp.pend[s], i) && Completes(dp.pend[s].value);
      }
    }
  }

  // ---------------------------------------------------------------------
  // One turn
  // ---------------------------------------------------------------------

  /** What remote_post()'s failures come to. */
  function RemoteStatus(dp: Dp, q: Qp, w: Wqe): (s: Option<Status>)
    requires w.Wqe?
  {
    if Unsendable(dp, w) then Some(RemoteAccErr)
    else if Crowded(dp, q, w) then None
    else if !Loads(dp, w) then Some(RemoteAccErr)
    else if w.mesh.tx.TxFailed? then Some(RetryExceeded)
    else None
  }

  function SendStatus(dp: Dp, i: nat, now: nat, w: Wqe): (s: Option<Status>)
    requires w.Wqe?
  {
    if i >= |dp.qps| || now >= U64 || dp.qps[i].rnrSince >= U64 then None else
    var q := dp.qps[i];
    match w.send
    case Absorbed => Some(Ok)
    case ToQp(_, _, _) =>
      var j := PeerOf(dp, i, w);
      if !GetsTo(dp, i, j, w) || HasRecv(dp, j, w.recv) || !q.kind.RC? then Some(Ok)
      else if WaitedFor(q, now) < 5000 then None
      else Some(RnrRetryExceeded)
    case ToNode(_, _, _) =>
      if q.kind.RC? || q.kind.UC? || !GramLoads(dp, w) || !GramFits(dp, w) then Some(Ok)
      else if GramCrowded(dp, w) || (w.mesh.tx.TxAgain? && (GramSize(w) > 0 ==> w.mesh.alloc)) then None
      else Some(Ok)
  }

  /** The status a WQE completes with if the device completes it itself in this turn:
      it doesn't when the WQE waits, when its answer will complete it, when it can't be
      read, and when it fails at a QP that isn't connected and wasn't to say so. */
  function Verdict(dp: Dp, i: nat, now: nat, w: Wqe): (s: Option<Status>) {
    if i >= |dp.qps| then None else
    var q := dp.qps[i];
    if w.Unreadable? then None
    else if w.op.OpLocalInv? then Some(Ok)
    else if w.op.OpRegMr? then Some(if w.reg.Binds? && Regions.Accepts(Asked(w)) then Ok else MemMgmtOperErr)
    else if w.early.Some? then
      Some(if w.early.value.InlineTooLong? || w.early.value.ListTooLong? then LocalLenErr else LocalQpOperErr)
    else if !Sendable(dp, w) then Some(LocalProtErr)
    else if Elsewhere(dp, q) then
      if q.kind.RC? || q.kind.UC? || w.signalled then RemoteStatus(dp, q, w) else None
    else if IsSendOp(w.op) then SendStatus(dp, i, now, w)
    else if w.op.OpOther? then Some(LocalQpOperErr)
    else if IsRdmaOp(w.op) then
      if RdmaCan(dp.host, w) then Some(Ok)
      else if !Regions.Covers(dp.host.mrs, w.rkey, w.va, w.length) then Some(RemoteAccErr)
      else Some(if w.fault != Ok then w.fault else LocalProtErr)
    else if AtomicCan(dp.host, w) then Some(Ok)
    else Some(if w.fault != Ok then w.fault else AtomicFault(dp.host, w))
  }

  /** An event that only a turn of a send queue leaves. */
  predicate OwnEvent(e: Event) { e.Sent? || (e.Cqe? && e.cause.ByWqe?) }

  predicate OwnCqe(dp: Dp, i: nat, w: Wqe, e: Event, status: Status) {
    && i < |dp.qps| && w.Wqe?
    && var q := dp.qps[i];
       var counted := (q.kind.RC? || q.kind.UC?) && !w.op.OpRegMr? && !w.op.OpLocalInv?;
       e == Cqe(i, ByWqe(q.mesh, q.ran), if counted then Some((q.msn + 1) % U32) else None, status)
  }

  predicate Departs(dp: Dp, i: nat, w: Wqe, e: Event) {
    i < |dp.qps| && w.Wqe? && Sendable(dp, w) &&
    if Elsewhere(dp, dp.qps[i]) then Asks(dp, i, w, e) else Datagrams(dp, i, w, e)
  }

  /** Whether a turn's events are those its WQE calls for: if there is a verdict the
      last of them is the WQE's completion with that status, and no other is one; and
      what is sent asks for what the WQE does. */
  predicate TurnSays(dp: Dp, i: nat, w: Wqe, r: Ran, v: Option<Status>) {
    && i < |dp.qps|
    && dp.log <= r.dp.log
    && (v.Some? ==> w.Wqe? && r.past && |r.dp.log| > |dp.log| && OwnCqe(dp, i, w, r.dp.log[|r.dp.log| - 1], v.value))
    && forall k :: |dp.log| <= k < |r.dp.log| && OwnEvent(r.dp.log[k]) ==>
         && w.Wqe?
         && (r.dp.log[k].Sent? ==> Departs(dp, i, w, r.dp.log[k]))
         && (r.dp.log[k].Cqe? ==> v.Some? && k == |r.dp.log| - 1)
  }

  lemma {:induction false} UnreadSays(dp: Dp, i: nat, now: nat, r: Ran)
    requires IsTurn(dp, i, now, Unreadable, r)
    ensures TurnSays(dp, i, Unreadable, r, None)
  {
    UnfetchedQuiet(dp, i);
  }

  lemma {:induction false} RegSays(dp: Dp, i: nat, now: nat, w: Wqe, r: Ran)
    requires IsTurn(dp, i, now, w, r) && IsReg(w)
    ensures TurnSays(dp, i, w, r, Verdict(dp, i, now, w))
  {
    RegMeans(dp.host.mrs, w);
  }

  lemma {:induction false} RefusedSays(dp: Dp, i: nat, now: nat, w: Wqe, r: Ran)
    requires w.Wqe? && !IsReg(w) && !Sendable(dp, w) && Refused(dp, i, w, r)
    ensures TurnSays(dp, i, w, r, Verdict(dp, i, now, w))
  {
  }

  lemma {:induction false} RemoteSays(dp: Dp, i: nat, now: nat, w: Wqe, r: Ran)
    requires i < |dp.qps| && Sendable(dp, w) && Elsewhere(dp, dp.qps[i]) && RemoteEnds(dp, i, now, w, r)
    ensures TurnSays(dp, i, w, r, Verdict(dp, i, now, w))
  {
  }

  /** A turn that ends with the completion, and has at most one event before it. */
  predicate EndsSoon(dp: Dp, i: nat, w: Wqe, r: Ran, status: Status) {
    && EndsWith(dp, i, r, status) && dp.log <= r.dp.log && |r.dp.log| <= |dp.log| + 2
    && var e := r.dp.log[|dp.log|];
       |r.dp.log| == |dp.log| + 1 || e.Received? || e.Waited? || (e.Sent? && Departs(dp, i, w, e))
  }

  lemma {:induction false} EndSays(dp: Dp, i: nat, w: Wqe, r: Ran, status: Status)
    requires w.Wqe? && !IsReg(w) && EndsSoon(dp, i, w, r, status)
    ensures TurnSays(dp, i, w, r, Some(status))
  {
  }

  /** And one that stops at its WQE. */
  predicate StopsSoon(dp: Dp, i: nat, r: Ran) {
    && i < |dp.qps| && dp.log <= r.dp.log
    && (|r.dp.log| == |dp.log| || (|r.dp.log| == |dp.log| + 1 && r.dp.log[|dp.log|].Waited?))
  }

  lemma {:induction false} StopSays(dp: Dp, i: nat, w: Wqe, r: Ran)
    requires w.Wqe? && StopsSoon(dp, i, r)
    ensures TurnSays(dp, i, w, r, None)
  {
  }

  lemma {:induction false} ToQpSays(dp: Dp, i: nat, now: nat, w: Wqe, r: Ran, v: Option<Status>)
    requires SendsTo(dp, i, w) && Sendable(dp, w) && dp.log <= r.dp.log && SendEnds(dp, i, now, w, r)
    requires v == SendStatus(dp, i, now, w)
    ensures TurnSays(dp, i, w, r, v)
  {
    if v.Some? {
      EndSays(dp, i, w, r, v.value);
    } else {
      StopSays(dp, i, w, r);
    }
  }

  lemma {:induction false} ToNodeSays(dp: Dp, i: nat, now: nat, w: Wqe, r: Ran, v: Option<Status>)
    requires i < |dp.qps| && now < U64 && dp.qps[i].rnrSince < U64
    requires Sendable(dp, w) && !Elsewhere(dp, dp.qps[i]) && IsSendOp(w.op)
    requires dp.log <= r.dp.log && GramEnds(dp, i, w, r)
    requires v == SendStatus(dp, i, now, w)
    ensures TurnSays(dp, i, w, r, v)
  {
    if v.Some? {
      EndSays(dp, i, w, r, v.value);
    } else {
      StopSays(dp, i, w, r);
    }
  }

  lemma {:induction false} SendSays(dp: Dp, i: nat, now: nat, w: Wqe, r: Ran)
    requires LocalTurn(dp, i, now, w, r) && w.Wqe? && IsSendOp(w.op)
    ensures TurnSays(dp, i, w, r, Verdict(dp, i, now, w))
  {
    var v := SendStatus(dp, i, now, w);
    match w.send
    case Absorbed => AbsorbedVerdict(dp, i, now, w, r); EndSays(dp, i, w, r, Ok);
    case ToQp(_, _, _) => SendVerdict(dp, i, now, w, r); ToQpSays(dp, i, now, w, r, v);
    case ToNode(_, _, _) => DatagramVerdict(dp, i, now, w, r); ToNodeSays(dp, i, now, w, r, v);
  }

  lemma {:induction false} LocalSays(dp: Dp, i: nat, now: nat, w: Wqe, r: Ran)
    requires LocalTurn(dp, i, now, w, r) && w.Wqe? && !IsSendOp(w.op)
    ensures TurnSays(dp, i, w, r, Verdict(dp, i, now, w))
  {
    if w.op.OpOther? {
      UnknownVerdict(dp, i, now, w, r);
    } else {
      ImmediateVerdict(dp, i, now, w, r);
      if IsRdmaOp(w.op) {
        RdmaVerdict(dp, i, now, w, r);
      } else {
        AtomicVerdict(dp, i, now, w, r);
      }
    }
    EndSays(dp, i, w, r, Verdict(dp, i, now, w).value);
  }

  /** Every turn is as its WQE, its QP and what the device finds say. */
  lemma {:induction false} TurnVerdict(dp: Dp, i: nat, now: nat, w: Wqe, r: Ran)
    requires IsTurn(dp, i, now, w, r)
    ensures TurnSays(dp, i, w, r, Verdict(dp, i, now, w))
  {
    if w.Unreadable? {
      UnreadSays(dp, i, now, r);
    } else if IsReg(w) {
      RegSays(dp, i, now, w, r);
    } else if !Sendable(dp, w) {
      RefusedVerdict(dp, i, now, w, r);
      RefusedSays(dp, i, now, w, r);
    } else {
      Dispatched(dp, i, now, w, r);
      if Elsewhere(dp, dp.qps[i]) {
        RemoteVerdict(dp, i, now, w, r);
        RemoteSays(dp, i, now, w, r);
      } else if IsSendOp(w.op) {
        SendSays(dp, i, now, w, r);
      } else {
        LocalSays(dp, i, now, w, r);
      }
    }
  }

  // ---------------------------------------------------------------------
  // From one slot to the next
  // ---------------------------------------------------------------------

  predicate CanServe(dp: Dp, i: nat, now: nat) {
    InTable(dp, i) && now < U64 && dp.qps[i].rnrSince < U64 && DepthOk(dp.qps[i].depth)
  }

  /** One turn of sq_service(). */
  function Turned(dp: Dp, i: nat, now: nat, w: Wqe): (r: Ran)
    requires CanServe(dp, i, now)
  {
    var r := Run(dp, i, now, w);
    assert Kept(dp.qps[i], r.dp.qps[i]);
    if r.past then Ran(Advance(r.dp, i), true) else r
  }

  /** A queue that moves past a WQE is then at the next one's slot. */
  lemma {:induction false} TurnedOn(dp: Dp, i: nat, now: nat, w: Wqe)
    requires CanServe(dp, i, now)
    ensures var r := Turned(dp, i, now, w);
      r.past ==> r.dp.qps[i].cons == (dp.qps[i].cons + 1) % U32 && r.dp.qps[i].ran == dp.qps[i].ran + 1
  {
  }

  lemma {:induction false} SlotIs(x: nat, y: nat, depth: nat)
    requires DepthOk(depth) && depth > 0 && x % U32 == y % U32
    ensures Rem(x, depth) == Rem(y, depth)
  {
    SameSlot(x, depth);
    SameSlot(y, depth);
  }

  lemma {:induction false} WrapNext(x: nat, y: nat)
    requires x % U32 == y % U32
    ensures ((x + 1) % U32) % U32 == (y + 1) % U32
  {
  }
}
