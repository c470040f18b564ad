/** What every operation of the send side keeps: the count of stalled queues is
    exact, a queue stopped on an unreadable WQE has a completion coming that
    will restart it, and what is pending fits the QPs and the reply budget. */
module SendQueueInv {
  import opened Arith
  import opened Wire
  import opened Journal
  import opened Host
  import opened WorkRequests
  import opened SendQueue
  import opened Serving
  import Dma
  import Regions

  // ---------------------------------------------------------------------
  // Stalled queues
  // ---------------------------------------------------------------------

  function StalledUpTo(qps: seq<Qp>, n: nat): (c: nat)
    requires n <= |qps|
  {
    if n == 0 then 0 else StalledUpTo(qps, n - 1) + Stall(qps[n - 1])
  }

  /** A stopped send queue belongs to a valid QP, and is stopped for one
      reason: it waits for a receive or the mesh, or on a WQE it couldn't read. */
  predicate QpOk(q: Qp) {
    && q.prod < q.depth && q.rnrSince < U64 && q.msn < U32 && DepthOk(q.depth)
    && (IsStalled(q) ==> q.valid)
    && (q.fault ==> q.valid && !IsStalled(q))
  }

  predicate StallOk(qps: seq<Qp>, stalled: int) {
    && stalled == StalledUpTo(qps, |qps|)
    && forall i :: 0 <= i < |qps| ==> QpOk(qps[i])
  }

  lemma {:induction false} StalledUpdate(qps: seq<Qp>, n: nat, i: nat, q: Qp)
    requires n <= |qps| && i < |qps|
    ensures StalledUpTo(qps[i := q], n)
         == StalledUpTo(qps, n) + (if i < n then Stall(q) - Stall(qps[i]) else 0)
  {
    if n > 0 {
      StalledUpdate(qps, n - 1, i, q);
    }
  }

  lemma {:induction false} OnlyQpStallOk(a: Dp, b: Dp, i: nat)
    requires StallOk(a.qps, a.stalled) && OnlyQp(a, b, i) && QpOk(b.qps[i])
    ensures StallOk(b.qps, b.stalled)
  {
    StalledUpdate(a.qps, |a.qps|, i, b.qps[i]);
  }

  /** The count is 0 exactly when no send queue is stalled. */
  lemma {:induction false} StalledZero(qps: seq<Qp>, n: nat)
    requires n <= |qps|
    ensures StalledUpTo(qps, n) == 0 <==> forall i :: 0 <= i < n ==> !IsStalled(qps[i])
  {
    if n > 0 {
      StalledZero(qps, n - 1);
    }
  }

  lemma {:induction false} RemotePostQp(dp: Dp, i: nat, now: nat, p: Post, env: MeshEnv)
    requires i < |dp.qps| && QpOk(dp.qps[i])
    ensures QpOk(RemotePost(dp, i, now, p, env).qps[i])
    ensures var q' := RemotePost(dp, i, now, p, env).qps[i]; q' == dp.qps[i].(msn := q'.msn)
  {
    if PostResult(dp, p, env).PostSent? {
      ParkedQp(dp, i, FreeSlot(dp.pend, 0), PostedEntry(dp, i, now, p), SentEvent(dp, i, now, p));
    }
  }

  lemma {:induction false} ParkedQp(dp: Dp, i: nat, s: nat, e: Pending, sent: Event)
    requires i < |dp.qps| && QpOk(dp.qps[i]) && s < |dp.pend| && sent.Sent? && e.msn < U32
    ensures var q' := Parked(dp, i, s, e, sent).qps[i]; QpOk(q') && q' == dp.qps[i].(msn := q'.msn)
  {
  }

  lemma {:induction false} CompleteSendQp(dp: Dp, i: nat, status: Status)
    requires i < |dp.qps| && QpOk(dp.qps[i])
    ensures QpOk(CompleteSend(dp, i, status).qps[i])
    ensures var q' := CompleteSend(dp, i, status).qps[i]; q' == dp.qps[i].(msn := q'.msn)
  {
  }

  lemma {:induction false} RunRemoteQp(dp: Dp, i: nat, now: nat, w: Wqe)
    requires i < |dp.qps| && w.Wqe?
    requires QpOk(dp.qps[i]) && dp.qps[i].valid && !dp.qps[i].fault
    ensures var r := RunRemote(dp, i, now, w); QpOk(r.dp.qps[i]) && !r.dp.qps[i].fault && r.dp.qps[i].valid
  {
    var q := dp.qps[i];
    var connected := !IsDatagram(q.kind);
    var p := PostOf(w, connected, q.destQp, q.destNode);
    RemotePostQp(dp, i, now, p, w.mesh);
    AfterPostQp(RemotePost(dp, i, now, p, w.mesh), i, connected, w.signalled, PostResult(dp, p, w.mesh));
  }

  /** What follows an attempt to send. */
  lemma {:induction false} AfterPostQp(dp: Dp, i: nat, connected: bool, signalled: bool, r: Posted)
    requires i < |dp.qps| && QpOk(dp.qps[i]) && dp.qps[i].valid && !dp.qps[i].fault
    ensures var q := AfterPost(dp, i, connected, signalled, r).dp.qps[i]; QpOk(q) && !q.fault && q.valid
  {
  }

  lemma {:induction false} RunRnrQp(dp: Dp, i: nat, now: nat)
    requires i < |dp.qps| && now < U64 && QpOk(dp.qps[i]) && dp.qps[i].valid && !dp.qps[i].fault
    ensures var r := RunRnr(dp, i, now); QpOk(r.dp.qps[i]) && !r.dp.qps[i].fault && r.dp.qps[i].valid
  {
    CompleteSendQp(SetRnr(dp, i, now), i, RnrRetryExceeded);
  }

  lemma {:induction false} ToQpQp(dp: Dp, i: nat, now: nat, w: Wqe)
    requires i < |dp.qps| && w.Wqe? && now < U64 && w.send.ToQp?
    requires QpOk(dp.qps[i]) && dp.qps[i].valid && !dp.qps[i].fault
    ensures var r := RunToQp(dp, i, now, w); QpOk(r.dp.qps[i]) && !r.dp.qps[i].fault && r.dp.qps[i].valid
  {
    var q := dp.qps[i];
    var j := SendTarget(q, i, w.send.dst);
    CompleteSendQp(dp, i, Ok);
    if j < |dp.qps| {
      var dp1 := Handed(dp, j, ForWqe(q.mesh, q.ran), SendLoad(dp, j, w), DeliveryTo(dp, j, w, SendLoad(dp, j, w)));
      CompleteSendQp(dp1, i, Ok);
      RunRnrQp(dp1, i, now);
    }
  }

  lemma {:induction false} ToNodeQp(dp: Dp, i: nat, now: nat, w: Wqe)
    requires i < |dp.qps| && w.Wqe? && now < U64 && w.send.ToNode?
    requires QpOk(dp.qps[i]) && dp.qps[i].valid && !dp.qps[i].fault
    ensures var r := RunSend(dp, i, now, w); QpOk(r.dp.qps[i]) && !r.dp.qps[i].fault && r.dp.qps[i].valid
  {
    var p := Datagram(dp.host, w);
    RemotePostQp(dp, i, now, p, w.mesh);
    var dp1 := RemotePost(dp, i, now, p, w.mesh);
    CompleteSendQp(dp, i, Ok);
    CompleteSendQp(dp1, i, Ok);
  }

  lemma {:induction false} RunSendQp(dp: Dp, i: nat, now: nat, w: Wqe)
    requires i < |dp.qps| && w.Wqe? && now < U64
    requires QpOk(dp.qps[i]) && dp.qps[i].valid && !dp.qps[i].fault
    ensures var r := RunSend(dp, i, now, w); QpOk(r.dp.qps[i]) && !r.dp.qps[i].fault && r.dp.qps[i].valid
  {
    if w.send.ToQp? {
      ToQpQp(dp, i, now, w);
    } else if w.send.ToNode? {
      ToNodeQp(dp, i, now, w);
    } else {
      CompleteSendQp(dp, i, Ok);
    }
  }

  lemma {:induction false} RunLocalQp(dp: Dp, i: nat, w: Wqe)
    requires i < |dp.qps| && w.Wqe?
    requires QpOk(dp.qps[i]) && dp.qps[i].valid && !dp.qps[i].fault
    ensures var q := RunLocal(dp, i, w).qps[i]; QpOk(q) && !q.fault && q.valid
  {
    var m := LocalOp(dp.host, w);
    var dp1 := dp.(host := m.host);
    CompleteSendQp(if w.op.OpWriteImm? && m.status == Ok then RunImmediate(dp1, i, w) else dp1, i, m.status);
  }

  lemma {:induction false} UnfetchedQp(dp: Dp, i: nat)
    requires i < |dp.qps| && QpOk(dp.qps[i]) && dp.qps[i].valid
    ensures QpOk(Unfetched(dp, i).qps[i])
  {
  }

  /** Running a WQE keeps its QP well-formed; only a WQE that couldn't be read
      leaves the queue stopped on a fault. */
  lemma {:induction false} RunQp(dp: Dp, i: nat, now: nat, w: Wqe)
    requires i < |dp.qps| && now < U64
    requires QpOk(dp.qps[i]) && dp.qps[i].valid && !dp.qps[i].fault
    ensures var r := Run(dp, i, now, w);
      QpOk(r.dp.qps[i]) && r.dp.qps[i].valid && (r.past ==> !r.dp.qps[i].fault)
  {
    if w.Unreadable? {
      UnfetchedQp(dp, i);
    } else if w.op.OpRegMr? || w.op.OpLocalInv? {
    } else if w.early.Some? {
      CompleteSendQp(dp, i, MalformedStatus(w.early.value));
    } else if !SgesOk(dp.host.mrs, w.local) {
      CompleteSendQp(dp, i, LocalProtErr);
    } else if IsRemote(dp, dp.qps[i]) {
      RunRemoteQp(dp, i, now, w);
    } else if IsSendOp(w.op) {
      RunSendQp(dp, i, now, w);
    } else if w.op.OpOther? {
      CompleteSendQp(dp, i, LocalQpOperErr);
    } else {
      RunLocalQp(dp, i, w);
    }
  }

  // ---------------------------------------------------------------------
  // What is pending
  // ---------------------------------------------------------------------

  /** A pending request names a valid QP, and carries that QP's current mesh_id
      in its tag. */
  predicate EntryOk(qps: seq<Qp>, nextReq: nat, p: Pending) {
    && p.req <= nextReq
    && p.qp < |qps| && qps[p.qp].valid
    && p.mesh == qps[p.qp].mesh
    && p.useMsn == !IsDatagram(qps[p.qp].kind)
  }

  predicate Distinct(t: Table) {
    forall a, b :: 0 <= a < b < |t| && t[a].Some? && t[b].Some? ==> t[a].value.req != t[b].value.req
  }

  predicate EntriesOk(qps: seq<Qp>, nextReq: nat, t: Table) {
    forall s :: 0 <= s < |t| && t[s].Some? ==> EntryOk(qps, nextReq, t[s].value)
  }

  ghost predicate BudgetOk(t: Table) {
    forall node: nat :: ReplyBytes(t, |t|, node) <= REPLY_BUDGET
  }

  ghost predicate PendOk(dp: Dp) {
    EntriesOk(dp.qps, dp.nextReq, dp.pend) && Distinct(dp.pend) && BudgetOk(dp.pend)
  }

  /** b's entries are some of a's. */
  predicate SubTable(a: Table, b: Table) {
    |a| == |b| && forall s :: 0 <= s < |a| ==> b[s].None? || b[s] == a[s]
  }

  lemma {:induction false} ReplyBytesSub(a: Table, b: Table, n: nat, node: nat)
    requires SubTable(a, b) && n <= |a|
    ensures ReplyBytes(b, n, node) <= ReplyBytes(a, n, node)
  {
    if n > 0 {
      ReplyBytesSub(a, b, n - 1, node);
    }
  }

  lemma {:induction false} ReplyBytesUpdate(t: Table, n: nat, s: nat, e: Option<Pending>, node: nat)
    requires n <= |t| && s < |t|
    ensures ReplyBytes(t[s := e], n, node)
         == ReplyBytes(t, n, node) + (if s < n then Weight(e, node) - Weight(t[s], node) else 0)
  {
    if n > 0 {
      ReplyBytesUpdate(t, n - 1, s, e, node);
    }
  }

  lemma {:induction false} BudgetSub(a: Table, b: Table)
    requires BudgetOk(a) && SubTable(a, b)
    ensures BudgetOk(b)
  {
    forall node: nat ensures ReplyBytes(b, |b|, node) <= REPLY_BUDGET {
      ReplyBytesSub(a, b, |a|, node);
    }
  }

  /** Dropping entries, and changing only QPs that have none, keeps what is
      left in order. */
  lemma {:induction false} PendSub(a: Dp, b: Dp)
    requires PendOk(a) && SubTable(a.pend, b.pend) && a.nextReq <= b.nextReq && |a.qps| == |b.qps|
    requires forall s :: 0 <= s < |b.pend| && b.pend[s].Some? && b.pend[s].value.qp < |a.qps| ==>
      Kept(a.qps[b.pend[s].value.qp], b.qps[b.pend[s].value.qp])
    ensures PendOk(b)
  {
    BudgetSub(a.pend, b.pend);
    forall s | 0 <= s < |b.pend| && b.pend[s].Some?
      ensures EntryOk(b.qps, b.nextReq, b.pend[s].value)
    {
      assert EntryOk(a.qps, a.nextReq, a.pend[s].value);
    }
  }

  lemma {:induction false} PendSteady(a: Dp, b: Dp)
    requires PendOk(a) && SubTable(a.pend, b.pend) && a.nextReq <= b.nextReq && Steady(a, b)
    ensures PendOk(b)
  {
    PendSub(a, b);
  }

  /** A request is sent only while its answer fits the budget beside those
      already asked of the node, so the budget is never exceeded. */
  lemma {:induction false} RemotePostPend(dp: Dp, i: nat, now: nat, p: Post, env: MeshEnv)
    requires PendOk(dp) && i < |dp.qps| && dp.qps[i].valid && p.useMsn == !IsDatagram(dp.qps[i].kind)
    ensures PendOk(RemotePost(dp, i, now, p, env))
  {
    var dp' := RemotePost(dp, i, now, p, env);
    if PostResult(dp, p, env).PostSent? {
      ParkPend(dp, i, now, p, dp');
    } else {
      PendSteady(dp, dp');
    }
  }

  lemma {:induction false} ParkPend(dp: Dp, i: nat, now: nat, p: Post, dp': Dp)
    requires PendOk(dp) && i < |dp.qps| && dp.qps[i].valid && p.useMsn == !IsDatagram(dp.qps[i].kind)
    requires WireOf(p.op).Some? && FreeSlot(dp.pend, 0) < |dp.pend|
    requires ReplyBytes(dp.pend, |dp.pend|, p.destNode) <= REPLY_BUDGET - ReplyLimit(WireOf(p.op).value, p)
    requires dp'.pend == dp.pend[FreeSlot(dp.pend, 0) := Some(PostedEntry(dp, i, now, p))]
    requires dp'.nextReq == dp.nextReq + 1 && Steady(dp, dp')
    ensures PendOk(dp')
  {
    var s := FreeSlot(dp.pend, 0);
    var e := PostedEntry(dp, i, now, p);
    forall node: nat ensures ReplyBytes(dp'.pend, |dp'.pend|, node) <= REPLY_BUDGET {
      ReplyBytesUpdate(dp.pend, |dp.pend|, s, Some(e), node);
    }
    forall t | 0 <= t < |dp'.pend| && dp'.pend[t].Some?
      ensures EntryOk(dp'.qps, dp'.nextReq, dp'.pend[t].value)
    {
      if t != s {
        assert EntryOk(dp.qps, dp.nextReq, dp.pend[t].value);
      }
    }
    forall a, b | 0 <= a < b < |dp'.pend| && dp'.pend[a].Some? && dp'.pend[b].Some?
      ensures dp'.pend[a].value.req != dp'.pend[b].value.req
    {
      if a != s { assert EntryOk(dp.qps, dp.nextReq, dp.pend[a].value); }
      if b != s { assert EntryOk(dp.qps, dp.nextReq, dp.pend[b].value); }
    }
  }

  /** With nothing pending to a node, the budget refuses it nothing. */
  lemma {:induction false} BudgetAdmitsFirst(dp: Dp, p: Post, env: MeshEnv)
    requires forall s :: 0 <= s < |dp.pend| && dp.pend[s].Some? ==> dp.pend[s].value.destNode != p.destNode
    requires env.hasRoom && !env.tx.TxAgain?
    ensures !PostResult(dp, p, env).PostBusy?
  {
    NothingPending(dp.pend, |dp.pend|, p.destNode);
  }

  lemma {:induction false} NothingPending(t: Table, n: nat, node: nat)
    requires n <= |t|
    requires forall s :: 0 <= s < |t| && t[s].Some? ==> t[s].value.destNode != node
    ensures ReplyBytes(t, n, node) == 0
  {
    if n > 0 {
      NothingPending(t, n - 1, node);
    }
  }

  // ---------------------------------------------------------------------
  // Queues stopped on a WQE that couldn't be read
  // ---------------------------------------------------------------------

  ghost predicate FaultOk(dp: Dp) {
    forall i :: 0 <= i < |dp.qps| && dp.qps[i].fault ==> Awaits(dp.pend, i)
  }

  /** Every QP but i awaits what it did. */
  ghost predicate OthersAwait(a: Table, b: Table, i: nat) {
    forall j: nat :: j != i && Awaits(a, j) ==> Awaits(b, j)
  }

  /** Entries that may go belong to QP i. */
  predicate KeepsOthers(a: Table, b: Table, i: nat) {
    |a| == |b| && forall s :: 0 <= s < |a| && a[s].Some? && a[s].value.qp != i ==> b[s] == a[s]
  }

  lemma {:induction false} KeepsOthersAwait(a: Table, b: Table, i: nat)
    requires KeepsOthers(a, b, i)
    ensures OthersAwait(a, b, i)
  {
    forall j: nat | j != i && Awaits(a, j) ensures Awaits(b, j) {
      var s :| 0 <= s < |a| && Owned(a[s], j) && Completes(a[s].value);
      assert b[s] == a[s];
    }
  }

  lemma {:induction false} OnlyQpFaultOk(a: Dp, b: Dp, i: nat)
    requires FaultOk(a) && OnlyQp(a, b, i) && KeepsOthers(a.pend, b.pend, i)
    requires b.qps[i].fault ==> Awaits(b.pend, i)
    ensures FaultOk(b)
  {
    KeepsOthersAwait(a.pend, b.pend, i);
    forall j | 0 <= j < |b.qps| && b.qps[j].fault ensures Awaits(b.pend, j) {
      if j != i {
        assert b.qps[j] == a.qps[j];
      }
    }
  }

  // ---------------------------------------------------------------------
  // The invariant, and the operations that keep it
  // ---------------------------------------------------------------------

  ghost predicate Inv(dp: Dp) {
    && StallOk(dp.qps, dp.stalled)
    && PendOk(dp)
    && FaultOk(dp)
  }

  lemma {:induction false} InvFrom(a: Dp, b: Dp, i: nat)
    requires Inv(a) && OnlyQp(a, b, i) && QpOk(b.qps[i]) && PendOk(b)
    requires KeepsOthers(a.pend, b.pend, i)
    requires b.qps[i].fault ==> Awaits(b.pend, i)
    ensures Inv(b)
  {
    OnlyQpStallOk(a, b, i);
    OnlyQpFaultOk(a, b, i);
  }

  lemma {:induction false} FlushTable(dp: Dp, i: nat)
    requires i < |dp.qps|
    ensures SubTable(dp.pend, Flush(dp, i).pend) && KeepsOthers(dp.pend, Flush(dp, i).pend, i)
    ensures !dp.qps[i].valid ==> Flush(dp, i) == dp
    ensures dp.qps[i].valid ==> !Flush(dp, i).qps[i].fault && !IsStalled(Flush(dp, i).qps[i])
    ensures Flush(dp, i).nextReq == dp.nextReq
  {
  }

  /** The requests a flush is for are gone from the table, and those of other
      QPs stay. */
  lemma {:induction false} FlushInv(dp: Dp, i: nat)
    requires Inv(dp) && i < |dp.qps|
    ensures Inv(Flush(dp, i))
  {
    FlushTable(dp, i);
    var dp' := Flush(dp, i);
    PendSteady(dp, dp');
    InvFrom(dp, dp', i);
  }

  /** sq_fault_finish() restores the invariant when the QP's last awaited
      completion has just gone. */
  lemma {:induction false} FaultFinishInv(a: Dp, dp: Dp, i: nat)
    requires Inv(a) && i < |a.qps| && PendOk(dp) && OnlyQp(a, dp, i) && QpOk(dp.qps[i])
    requires KeepsOthers(a.pend, dp.pend, i)
    ensures Inv(FaultFinish(dp, i))
  {
    var dp' := FaultFinish(dp, i);
    if !dp.qps[i].fault || Awaits(dp.pend, i) {
      InvFrom(a, dp, i);
    } else {
      var dp1 := dp.(log := dp.log + [Cqe(i, ByFault(dp.qps[i].mesh), None, LocalQpOperErr)]);
      FlushTable(dp1, i);
      assert Flush(dp1, i).pend == dp'.pend;
      PendSteady(dp, dp');
      InvFrom(a, dp', i);
    }
  }

  lemma {:induction false} CompleteInv(dp: Dp, s: nat, status: Status, how: How)
    requires Inv(dp) && s < |dp.pend| && dp.pend[s].Some?
    ensures Inv(Complete(dp, s, status, how))
  {
    var i := dp.pend[s].value.qp;
    assert EntryOk(dp.qps, dp.nextReq, dp.pend[s].value);
    var dp1 := Retire(dp, s, status, how);
    PendSteady(dp, dp1);
    assert OnlyQp(dp, dp1, i);
    FaultFinishInv(dp, dp1, i);
  }

  /** The journal, the mesh's queue and what the guest gave are no part of it. */
  lemma {:induction false} JournalInv(dp: Dp, log: Log, outq: seq<Queued>, host: Host)
    requires Inv(dp)
    ensures Inv(dp.(log := log, outq := outq, host := host))
  {
    var dp' := dp.(log := log, outq := outq, host := host);
    PendSub(dp, dp');
  }

  lemma {:induction false} ResponseInv(dp: Dp, msg: Msg, reach: Reach, fault: Status)
    requires Inv(dp)
    ensures Inv(Response(dp, msg, reach, fault))
  {
    var s := Find(dp.pend, 0, msg.reqId);
    if s < |dp.pend| {
      var p := dp.pend[s].value;
      if msg.status == Ok && msg.op != Ack {
        var dp1 := Scattered(dp, p, msg, reach);
        JournalInv(dp, dp1.log, dp.outq, dp1.host);
        CompleteInv(dp1, s, ScatterStatus(dp, p, msg, reach, fault), Answered);
      } else {
        CompleteInv(dp, s, msg.status, Answered);
      }
    }
  }

  lemma {:induction false} ExpireInv(dp: Dp, now: nat, n: nat)
    requires Inv(dp) && n <= |dp.pend|
    ensures Inv(Expire(dp, now, n))
    decreases |dp.pend| - n
  {
    if n < |dp.pend| {
      if dp.pend[n].Some? && now > dp.pend[n].value.deadline {
        var dp1 := TakeBack(dp, dp.pend[n].value);
        JournalInv(dp, dp1.log, dp1.outq, dp.host);
        CompleteInv(dp1, n, RetryExceeded, TimedOut);
        ExpireInv(Complete(dp1, n, RetryExceeded, TimedOut), now, n + 1);
      } else {
        ExpireInv(dp, now, n + 1);
      }
    }
  }

  lemma {:induction false} UnregisterInv(dp: Dp, i: nat)
    requires Inv(dp) && i < |dp.qps|
    ensures Inv(Unregister(dp, i))
  {
    var dp' := Unregister(dp, i);
    PendSub(dp, dp');
    InvFrom(dp, dp', i);
  }

  lemma {:induction false} RegisterInv(dp: Dp, i: nat, kind: QpKind, depth: nat, rqDepth: nat)
    requires Inv(dp) && i < |dp.qps| && DepthOk(depth) && depth > 0
    ensures Inv(Register(dp, i, kind, depth, rqDepth))
  {
    var dp' := Register(dp, i, kind, depth, rqDepth);
    PendSub(dp, dp');
    InvFrom(dp, dp', i);
  }

  lemma {:induction false} RegisterQpInv(dp: Dp, i: nat, kind: QpKind, rings: Rings)
    requires Inv(dp) && i < |dp.qps|
    ensures Inv(RegisterQp(dp, i, kind, rings))
  {
    if GeometryOk(rings.sq, RING_MAX_LOG2) && GeometryOk(rings.rq, RING_MAX_LOG2) {
      if rings.sq.readable && rings.rq.readable {
        assert DepthOk(Pow2(rings.sq.depthLog2));
        RegisterInv(dp, i, kind, Pow2(rings.sq.depthLog2), Pow2(rings.rq.depthLog2));
      } else {
        UnregisterInv(dp, i);
      }
    }
  }

  /** A QP with another's doorbell, destination and shared ring. */
  function Settable(a: Qp, b: Qp): (q: Qp) {
    a.(prod := b.prod, destValid := b.destValid, destQp := b.destQp, destNode := b.destNode, hasSrq := b.hasSrq,
       srq := b.srq)
  }

  /** A change of a QP's doorbell or destination. */
  lemma {:induction false} SetQpInv(dp: Dp, i: nat, q: Qp)
    requires Inv(dp) && i < |dp.qps| && Kept(Settable(dp.qps[i], q), q) && QpOk(q)
    requires q.rnr == dp.qps[i].rnr && q.busy == dp.qps[i].busy && q.fault == dp.qps[i].fault
    ensures Inv(dp.(qps := dp.qps[i := q]))
  {
    var dp' := dp.(qps := dp.qps[i := q]);
    forall s | 0 <= s < |dp'.pend| && dp'.pend[s].Some?
      ensures EntryOk(dp'.qps, dp'.nextReq, dp'.pend[s].value)
    {
      assert EntryOk(dp.qps, dp.nextReq, dp.pend[s].value);
    }
    InvFrom(dp, dp', i);
  }

  // ---------------------------------------------------------------------
  // Running send queues
  // ---------------------------------------------------------------------

  /** What running a WQE does to the pending table. */
  ghost predicate RunTableOk(a: Dp, b: Dp, i: nat) {
    PendOk(b) && KeepsOthers(a.pend, b.pend, i)
  }

  lemma {:induction false} SameTable(a: Dp, b: Dp, i: nat)
    requires PendOk(a) && Steady(a, b) && b.pend == a.pend && b.nextReq >= a.nextReq
    ensures RunTableOk(a, b, i)
  {
    PendSteady(a, b);
  }

  lemma {:induction false} RemotePostTable(dp: Dp, i: nat, now: nat, p: Post, env: MeshEnv, b: Dp)
    requires PendOk(dp) && i < |dp.qps| && dp.qps[i].valid && p.useMsn == !IsDatagram(dp.qps[i].kind)
    requires var dp1 := RemotePost(dp, i, now, p, env);
      Steady(dp1, b) && b.pend == dp1.pend && b.nextReq == dp1.nextReq
    ensures RunTableOk(dp, b, i)
  {
    RemotePostPend(dp, i, now, p, env);
    PendSteady(RemotePost(dp, i, now, p, env), b);
  }

  lemma {:induction false} RunRemoteTable(dp: Dp, i: nat, now: nat, w: Wqe)
    requires PendOk(dp) && i < |dp.qps| && dp.qps[i].valid && w.Wqe?
    ensures RunTableOk(dp, RunRemote(dp, i, now, w).dp, i)
  {
    var q := dp.qps[i];
    var connected := !IsDatagram(q.kind);
    var p := PostOf(w, connected, q.destQp, q.destNode);
    RemotePostTable(dp, i, now, p, w.mesh, RunRemote(dp, i, now, w).dp);
  }

  lemma {:induction false} ToQpTable(dp: Dp, i: nat, now: nat, w: Wqe)
    requires i < |dp.qps| && w.Wqe? && w.send.ToQp? && now < U64 && dp.qps[i].rnrSince < U64
    ensures var r := RunToQp(dp, i, now, w).dp; r.pend == dp.pend && r.nextReq == dp.nextReq
  {
  }

  lemma {:induction false} RunSendTable(dp: Dp, i: nat, now: nat, w: Wqe)
    requires PendOk(dp) && i < |dp.qps| && dp.qps[i].valid && w.Wqe? && now < U64 && dp.qps[i].rnrSince < U64
    ensures RunTableOk(dp, RunSend(dp, i, now, w).dp, i)
  {
    var dp' := RunSend(dp, i, now, w).dp;
    if w.send.ToNode? && IsDatagram(dp.qps[i].kind) && CanGram(dp.host, w) {
      RemotePostTable(dp, i, now, Datagram(dp.host, w), w.mesh, dp');
    } else if w.send.ToQp? {
      ToQpTable(dp, i, now, w);
      SameTable(dp, dp', i);
    } else {
      SameTable(dp, dp', i);
    }
  }

  lemma {:induction false} UnfetchedInv(dp: Dp, i: nat)
    requires Inv(dp) && i < |dp.qps| && dp.qps[i].valid
    ensures Inv(Unfetched(dp, i))
  {
    var dp1 := Clear(dp, i);
    var dp2 := dp1.(qps := dp1.qps[i := dp1.qps[i].(fault := true)]);
    PendSteady(dp, dp2);
    FaultFinishInv(dp, dp2, i);
  }

  lemma {:induction false} RunTable(dp: Dp, i: nat, now: nat, w: Wqe)
    requires PendOk(dp) && i < |dp.qps| && dp.qps[i].valid && now < U64 && dp.qps[i].rnrSince < U64 && w.Wqe?
    ensures RunTableOk(dp, Run(dp, i, now, w).dp, i)
  {
    if w.op.OpRegMr? || w.op.OpLocalInv? || w.early.Some? || !SgesOk(dp.host.mrs, w.local) {
      SameTable(dp, Run(dp, i, now, w).dp, i);
    } else if IsRemote(dp, dp.qps[i]) {
      RunRemoteTable(dp, i, now, w);
    } else if IsSendOp(w.op) {
      RunSendTable(dp, i, now, w);
    } else {
      SameTable(dp, Run(dp, i, now, w).dp, i);
    }
  }

  /** A WQE that runs without a fault leaves none. */
  lemma {:induction false} RunNoFault(dp: Dp, i: nat, now: nat, w: Wqe)
    requires i < |dp.qps| && now < U64 && w.Wqe?
    requires QpOk(dp.qps[i]) && dp.qps[i].valid && !dp.qps[i].fault
    ensures !Run(dp, i, now, w).dp.qps[i].fault
  {
    if w.op.OpRegMr? || w.op.OpLocalInv? || w.early.Some? || !SgesOk(dp.host.mrs, w.local) {
    } else if IsRemote(dp, dp.qps[i]) {
      RunRemoteQp(dp, i, now, w);
    } else if IsSendOp(w.op) {
      RunSendQp(dp, i, now, w);
    } else if !w.op.OpOther? {
      RunLocalQp(dp, i, w);
    }
  }

  lemma {:induction false} RunInv(dp: Dp, i: nat, now: nat, w: Wqe)
    requires Inv(dp) && i < |dp.qps| && dp.qps[i].valid && !dp.qps[i].fault && now < U64
    ensures Inv(Run(dp, i, now, w).dp)
  {
    if w.Unreadable? {
      UnfetchedInv(dp, i);
    } else {
      RunQp(dp, i, now, w);
      RunTable(dp, i, now, w);
      RunNoFault(dp, i, now, w);
      InvFrom(dp, Run(dp, i, now, w).dp, i);
    }
  }

  lemma {:induction false} AdvanceInv(dp: Dp, i: nat)
    requires Inv(dp) && i < |dp.qps|
    ensures Inv(Advance(dp, i))
    ensures Advance(dp, i).qps[i].valid == dp.qps[i].valid && !Advance(dp, i).qps[i].fault
  {
    var dp' := Advance(dp, i);
    var q' := dp'.qps[i];
    forall s | 0 <= s < |dp'.pend| && dp'.pend[s].Some?
      ensures EntryOk(dp'.qps, dp'.nextReq, dp'.pend[s].value)
    {
      assert EntryOk(dp.qps, dp.nextReq, dp.pend[s].value);
    }
    InvFrom(dp, dp', i);
  }

  /** The queue is valid and not stopped on a fault, so it may run a WQE. */
  ghost predicate MayRun(dp: Dp, i: nat) {
    Inv(dp) && i < |dp.qps| && dp.qps[i].valid && !dp.qps[i].fault
  }

  lemma {:induction false} TurnInv(dp: Dp, i: nat, now: nat, w: Wqe, r: Ran)
    requires MayRun(dp, i) && now < U64 && r == Run(dp, i, now, w)
    ensures Inv(r.dp)
    ensures r.past ==> InTable(r.dp, i)
    ensures r.past ==> MayRun(Advance(r.dp, i), i)
    ensures r.past ==> Advance(r.dp, i).qps[i].depth == dp.qps[i].depth
  {
    RunInv(dp, i, now, w);
    RunQp(dp, i, now, w);
    if r.past {
      AdvanceInv(r.dp, i);
    }
  }

  /** P holds whenever the queue may run a WQE, and Q whenever it has stopped. */
  ghost predicate TurnKeeps(P: Dp -> bool, Q: Dp -> bool, d: Dp, i: nat, now: nat, w: Wqe)
    requires InTable(d, i) && now < U64 && d.qps[i].rnrSince < U64
  {
    var r := Run(d, i, now, w);
    if r.past then P(Advance(r.dp, i)) else Q(r.dp)
  }

  ghost predicate Runnable(d: Dp, i: nat) {
    InTable(d, i) && d.qps[i].rnrSince < U64
  }

  /** And has a WQE to run. */
  ghost predicate AtWork(d: Dp, i: nat) { Runnable(d, i) && !Drained(d.qps[i]) }

  /** One turn of the service. */
  lemma {:induction false} TurnThenRest(P: Dp -> bool, Q: Dp -> bool, dp: Dp, i: nat, now: nat,
                                        at: nat -> Wqe, n: nat, out: Dp)
    returns (past: bool, next: Dp)
    requires now < U64 && Runnable(dp, i) && n < dp.qps[i].depth && out == ServiceTurn(dp, i, now, at, n)
    requires TurnKeeps(P, Q, dp, i, now, at(Rem(dp.qps[i].cons, dp.qps[i].depth)))
    requires forall d :: P(d) ==> Runnable(d, i)
    ensures past ==> P(next) && Runnable(next, i) && out == ServiceFrom(next, i, now, at, n + 1)
    ensures past ==> next.qps[i].depth == dp.qps[i].depth
    ensures !past ==> Q(out)
  {
    var r := Run(dp, i, now, at(Rem(dp.qps[i].cons, dp.qps[i].depth)));
    past := r.past;
    next := if past then Advance(r.dp, i) else dp;
  }

  lemma {:induction false} TurnAt(P: Dp -> bool, Q: Dp -> bool, dp: Dp, i: nat, now: nat, w: Wqe)
    requires now < U64 && AtWork(dp, i) && P(dp)
    requires forall d, w :: P(d) && AtWork(d, i) ==> TurnKeeps(P, Q, d, i, now, w)
    ensures TurnKeeps(P, Q, dp, i, now, w)
  {
  }

  /** The state after the next turn, if the queue moves past a WQE in it. */
  lemma {:induction false} NextTurn(P: Dp -> bool, Q: Dp -> bool, dp: Dp, i: nat, now: nat,
                                    at: nat -> Wqe, n: nat, out: Dp)
    returns (past: bool, next: Dp)
    requires now < U64 && Runnable(dp, i) && out == ServiceFrom(dp, i, now, at, n) && P(dp)
    requires forall d :: P(d) ==> Runnable(d, i) && Q(d)
    requires forall d, w :: P(d) && AtWork(d, i) ==> TurnKeeps(P, Q, d, i, now, w)
    ensures past ==> n < dp.qps[i].depth && P(next) && Runnable(next, i) && out == ServiceFrom(next, i, now, at, n + 1)
    ensures past ==> next.qps[i].depth == dp.qps[i].depth
    ensures !past ==> Q(out)
  {
    past, next := false, dp;
    if !Drained(dp.qps[i]) && n < dp.qps[i].depth {
      TurnAt(P, Q, dp, i, now, at(Rem(dp.qps[i].cons, dp.qps[i].depth)));
      past, next := TurnThenRest(P, Q, dp, i, now, at, n, out);
    }
  }

  /** What every turn keeps, the service of a whole send queue keeps; left
      bounds the turns it has left. */
  lemma {:induction false} ServiceKeeps(P: Dp -> bool, Q: Dp -> bool, dp: Dp, i: nat, now: nat,
                                        at: nat -> Wqe, n: nat, out: Dp, left: nat)
    requires now < U64 && Runnable(dp, i) && out == ServiceFrom(dp, i, now, at, n) && P(dp)
    requires forall d :: P(d) ==> Runnable(d, i) && Q(d)
    requires forall d, w :: P(d) && AtWork(d, i) ==> TurnKeeps(P, Q, d, i, now, w)
    requires n + left >= dp.qps[i].depth
    ensures Q(out)
    decreases left
  {
    var past, next := NextTurn(P, Q, dp, i, now, at, n, out);
    if past {
      ServiceKeeps(P, Q, next, i, now, at, n + 1, out, left - 1);
    }
  }

  lemma {:induction false} ServiceInv(dp: Dp, i: nat, now: nat, at: nat -> Wqe)
    requires Inv(dp) && i < |dp.qps| && dp.qps[i].valid && now < U64
    ensures Inv(Service(dp, i, now, at))
  {
    if !dp.qps[i].fault {
      var P := (d: Dp) => MayRun(d, i);
      var Q := (d: Dp) => Inv(d);
      forall d, w | P(d) && AtWork(d, i) ensures TurnKeeps(P, Q, d, i, now, w) {
        TurnInv(d, i, now, w, Run(d, i, now, w));
      }
      ServiceKeeps(P, Q, dp, i, now, at, 0, Service(dp, i, now, at), dp.qps[i].depth);
    }
  }

  lemma {:induction false} DoorbellInv(dp: Dp, i: nat, pIndex: nat, now: nat, at: nat -> Wqe)
    requires Inv(dp) && i < |dp.qps| && now < U64
    ensures Inv(Doorbell(dp, i, pIndex, now, at))
  {
    var q := dp.qps[i];
    if q.valid {
      var q' := q.(prod := Rem(pIndex, q.depth));
      SetQpInv(dp, i, q');
      var dp1 := dp.(qps := dp.qps[i := q']);
      JournalInv(dp1, dp.log + [SqRung(q.mesh)], dp.outq, dp.host);
      ServiceInv(dp1.(log := dp.log + [SqRung(q.mesh)]), i, now, at);
    }
  }

  lemma {:induction false} RetryOneInv(dp: Dp, n: nat, now: nat, at: nat -> Wqe)
    requires Inv(dp) && Shaped(dp) && n < |dp.qps| && now < U64
    ensures Inv(RetryOne(dp, n, now, at))
  {
    if dp.qps[n].valid && IsStalled(dp.qps[n]) {
      ServiceInv(dp, n, now, at);
    }
  }

  lemma {:induction false} RetryInv(dp: Dp, n: nat, now: nat, at: nat -> nat -> Wqe)
    requires Inv(dp) && Shaped(dp) && n <= |dp.qps| && now < U64
    ensures Inv(RetryFrom(dp, n, now, at))
    decreases |dp.qps| - n
  {
    if dp.stalled != 0 && n < |dp.qps| {
      RetryOneInv(dp, n, now, at(n));
      RetryInv(RetryOne(dp, n, now, at(n)), n + 1, now, at);
    }
  }

  // ---------------------------------------------------------------------
  // Runs
  // ---------------------------------------------------------------------

  /** What a guest can change of what it has given the device. */
  datatype Gift =
    | RecvBell(i: nat, pIndex: nat)
    | SrqBell(s: nat, pIndex: nat)
    | NewSrq(s: nat, rq: RingDesc)
    | EndSrq(s: nat)
    | Writes(writes: Dma.Memory)
    | Binds(op: Regions.MrOp)

  function Given(dp: Dp, g: Gift): (r: Dp)
    ensures r == dp.(log := r.log, host := r.host)
  {
    match g
    case RecvBell(i, pIndex) => RqBell(dp, i, pIndex)
    case SrqBell(s, pIndex) => RingBell(dp, Shared(s), pIndex)
    case NewSrq(s, rq) => OpenSrq(dp, s, rq)
    case EndSrq(s) => CloseSrq(dp, s)
    case Writes(writes) => GuestWrites(dp, writes)
    case Binds(op) => BindMr(dp, op)
  }

  /** What an administrator can do to a QP. */
  datatype QpOp =
    | Flushes
    | Registers(kind: QpKind, rings: Rings)
    | Unregisters
    | SetsDest(destQp: nat, destNode: nat)
    | BindsSrq(srq: nat)

  function Administered(dp: Dp, i: nat, op: QpOp): (r: Dp)
    requires i < |dp.qps|
  {
    match op
    case Flushes => Flush(dp, i)
    case Registers(kind, rings) => RegisterQp(dp, i, kind, rings)
    case Unregisters => Unregister(dp, i)
    case SetsDest(q, n) => SetDest(dp, i, q, n)
    case BindsSrq(s) => BindSrq(dp, i, s)
  }

  lemma {:induction false} AdministeredInv(dp: Dp, i: nat, op: QpOp)
    requires Inv(dp) && i < |dp.qps|
    ensures Inv(Administered(dp, i, op))
  {
    match op
    case Flushes => FlushInv(dp, i);
    case Registers(kind, rings) => RegisterQpInv(dp, i, kind, rings);
    case Unregisters => UnregisterInv(dp, i);
    case SetsDest(q, n) =>
      if dp.qps[i].valid {
        SetQpInv(dp, i, dp.qps[i].(destQp := q, destNode := n, destValid := true));
      }
    case BindsSrq(s) => SetQpInv(dp, i, dp.qps[i].(hasSrq := true, srq := s));
  }

  /** What the guest, the peers and the clock can have the data path do. */
  datatype Cmd =
    | Ring(i: nat, pIndex: nat, now: nat, at: nat -> Wqe)
    | Retry(now: nat, all: nat -> nat -> Wqe)
    | Tick(now: nat)
    | Answer(msg: Msg, reach: Reach, fault: Status)
    | Admin(i: nat, op: QpOp)
    | Gives(gift: Gift)
    | Serves(l: Letter, env: HandleEnv)
    | Leaves(k: nat)

  /** What its own guest, administrator and clock can. */
  predicate IsOwn(c: Cmd) { !c.Answer? && !c.Serves? && !c.Leaves? }

  /** Every operation bounds-checks the QP it is given. */
  ghost function Do(dp: Dp, c: Cmd): (r: Dp)
    requires Shaped(dp)
  {
    match c
    case Ring(i, pIndex, now, at) =>
      if i < |dp.qps| && now < U64 then Doorbell(dp, i, pIndex, now, at) else dp
    case Retry(now, all) => if now < U64 then RetryFrom(dp, 0, now, all) else dp
    case Tick(now) => Expire(dp, now, 0)
    case Answer(msg, reach, fault) => Response(dp, msg, reach, fault)
    case Admin(i, op) => if i < |dp.qps| then Administered(dp, i, op) else dp
    case Gives(g) => Given(dp, g)
    case Serves(l, env) => if IsRequest(l.msg.op) then Replied(dp, l, env) else dp
    case Leaves(k) => Left(dp, k)
  }

  lemma {:induction false} InvShaped(dp: Dp)
    requires Inv(dp)
    ensures Shaped(dp)
  {
  }

  lemma {:induction false} DoInv(dp: Dp, c: Cmd)
    requires Inv(dp) && Shaped(dp)
    ensures Inv(Do(dp, c))
  {
    match c
    case Ring(i, pIndex, now, at) =>
      if i < |dp.qps| && now < U64 { DoorbellInv(dp, i, pIndex, now, at); }
    case Retry(now, all) => if now < U64 { RetryInv(dp, 0, now, all); }
    case Tick(now) => ExpireInv(dp, now, 0);
    case Answer(msg, reach, fault) => ResponseInv(dp, msg, reach, fault);
    case Admin(i, op) => if i < |dp.qps| { AdministeredInv(dp, i, op); }
    case Gives(g) => JournalInv(dp, Given(dp, g).log, dp.outq, Given(dp, g).host);
    case Serves(l, env) => JournalInv(dp, Replied(dp, l, env).log, Replied(dp, l, env).outq, Replied(dp, l, env).host);
    case Leaves(k) => JournalInv(dp, dp.log, Left(dp, k).outq, dp.host);
  }

  // ---------------------------------------------------------------------
  // What an operation leaves for later ones
  // ---------------------------------------------------------------------

  lemma {:induction false} CompleteTable(dp: Dp, s: nat, status: Status, how: How)
    requires s < |dp.pend| && dp.pend[s].Some?
    ensures SubTable(dp.pend, Complete(dp, s, status, how).pend) && Complete(dp, s, status, how).pend[s].None?
  {
    var dp1 := Retire(dp, s, status, how);
    var qp := dp.pend[s].value.qp;
    if qp < |dp.qps| && dp.qps[qp].valid && dp1.qps[qp].fault && !Awaits(dp1.pend, qp) {
      FlushTable(dp1.(log := dp1.log + [Cqe(qp, ByFault(dp1.qps[qp].mesh), None, LocalQpOperErr)]), qp);
    }
  }

  /** Whether an entry is in time. */
  predicate InTime(e: Option<Pending>, now: nat) { e.Some? ==> now <= e.value.deadline }

  /** Timing out leaves no request overdue, and drops none of the others but
      those a flush it brings about takes. */
  lemma {:induction false} NoneOverdue(dp: Dp, now: nat, n: nat)
    requires n <= |dp.pend| && forall s :: 0 <= s < n ==> InTime(dp.pend[s], now)
    ensures var t := Expire(dp, now, n).pend;
      SubTable(dp.pend, t) && forall s :: 0 <= s < |t| ==> InTime(t[s], now)
    decreases |dp.pend| - n
  {
    if n < |dp.pend| {
      if dp.pend[n].Some? && now > dp.pend[n].value.deadline {
        var dp1 := TakeBack(dp, dp.pend[n].value);
        var dp2 := Complete(dp1, n, RetryExceeded, TimedOut);
        CompleteTable(dp1, n, RetryExceeded, TimedOut);
        NoneOverdue(dp2, now, n + 1);
      } else {
        NoneOverdue(dp, now, n + 1);
      }
    }
  }
}
