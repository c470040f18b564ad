/** Every operation of the data path keeps its books. */
module LedgerOps {
  import opened Arith
  import opened Wire
  import opened Journal
  import opened RecvRings
  import opened Host
  import opened Responder
  import opened WorkRequests
  import opened SendQueue
  import opened Serving
  import opened SendQueueInv
  import opened Ledger

  ghost predicate JOk(dp: Dp, mid: int) {
    && ReqsOk(dp.pend, dp.nextReq, dp.log)
    && MeshesOk(dp.qps, dp.nextMesh, dp.log, mid)
    && NowOk(dp.qps, dp.nextMesh, dp.log, mid)
    && RingsOk(dp.host, dp.log)
  }

  // ---------------------------------------------------------------------
  // Small changes
  // ---------------------------------------------------------------------

  /** An event about no request, of no send queue and of no ring. */
  predicate Plain(e: Event) { Quiet(e) && AboutNone(e) && Still(e) && Ringless(e) }

  lemma {:induction false} NoteJ(dp: Dp, mid: int, e: Event)
    requires JOk(dp, mid) && Plain(e) && MayFollow(dp.log, e)
    ensures JOk(dp.(log := dp.log + [e]), mid)
  {
    OtherEvent(dp.pend, dp.nextReq, dp.log, e);
    QuietEvent(dp.qps, dp.nextMesh, dp.log, mid, e);
    StillNow(dp.qps, dp.nextMesh, dp.log, mid, e);
    RinglessEvent(dp.host, dp.log, e);
  }

  lemma {:induction false} FlagsBooks(qps: seq<Qp>, nextMesh: nat, log: Log, mid: int, i: nat, q: Qp)
    requires MeshesOk(qps, nextMesh, log, mid) && i < |qps| && SameBooks(qps[i], q)
    ensures MeshesOk(qps[i := q], nextMesh, log, mid)
  {
  }

  lemma {:induction false} FlagsJ(dp: Dp, mid: int, i: nat, q: Qp, stalled: int, outq: seq<Queued>)
    requires JOk(dp, mid) && i < |dp.qps| && SameBooks(dp.qps[i], q) && SameNow(dp.qps[i], q)
    ensures JOk(dp.(qps := dp.qps[i := q], stalled := stalled, outq := outq), mid)
  {
    FlagsBooks(dp.qps, dp.nextMesh, dp.log, mid, i, q);
    FlagsNow(dp.qps, dp.nextMesh, dp.log, mid, i, q);
  }

  /** Guest memory and regions are no part of the books. */
  lemma {:induction false} HostJ(dp: Dp, mid: int, host: Host)
    requires JOk(dp, mid) && host.rq == dp.host.rq && host.srq == dp.host.srq
    ensures JOk(dp.(host := host), mid)
  {
    SameRings(dp.host, host, dp.log);
  }

  /** An event of one QP's own send queue, which gives no WQE its fate, and the
      QP after it. */
  lemma {:induction false} OwnJ(dp: Dp, i: nat, q: Qp, e: Event, dp': Dp)
    requires JOk(dp, -1) && i < |dp.qps| && dp.qps[i].valid && q.valid && SameBooks(dp.qps[i], q)
    requires Quiet(e) && AboutNone(e) && Ringless(e) && MayFollow(dp.log, e) && Stirs(e, q.mesh)
    requires QpNow(q, i, dp.log + [e], false)
    requires dp' == dp.(qps := dp.qps[i := q], log := dp.log + [e], stalled := dp'.stalled, outq := dp'.outq)
    ensures JOk(dp', -1)
  {
    OtherEvent(dp.pend, dp.nextReq, dp.log, e);
    QuietEvent(dp.qps, dp.nextMesh, dp.log, -1, e);
    FlagsBooks(dp.qps, dp.nextMesh, dp.log + [e], -1, i, q);
    OwnNow(dp.qps, dp.nextMesh, dp.log, -1, i, q, e);
    RinglessEvent(dp.host, dp.log, e);
  }

  // ---------------------------------------------------------------------
  // Flush, registration
  // ---------------------------------------------------------------------

  lemma {:induction false} CancelJ(dp: Dp, i: nat)
    requires JOk(dp, -1) && Distinct(dp.pend)
    ensures JOk(CancelQp(dp, i), -1)
  {
    CancelReqs(dp.pend, dp.nextReq, dp.log, |dp.pend|, i);
    QuietDrops(dp.qps, dp.nextMesh, dp.log, -1, dp.pend, |dp.pend|, i);
    DropsNow(dp.qps, dp.nextMesh, dp.log, -1, dp.pend, |dp.pend|, i);
    DropsRings(dp.host, dp.log, dp.pend, |dp.pend|, i);
  }

  /** The flushed queue has nothing left to run. */
  lemma {:induction false} FlushedNow(q: Qp, i: nat, log: Log, q': Qp, e: Event)
    requires QpNow(q, i, log, false) && q.prod < q.depth
    requires q' == q.(rnr := false, busy := false, fault := false, cons := q.prod)
    requires e.Flushed? && e.mesh == q.mesh
    ensures QpNow(q', i, log + [e], false)
  {
    NowAfter(log, e, q.mesh);
    RegAfter(log, e, i);
  }

  lemma {:induction false} FlushJ(dp: Dp, i: nat)
    requires JOk(dp, -1) && Distinct(dp.pend) && i < |dp.qps| && dp.qps[i].prod < dp.qps[i].depth
    ensures JOk(Flush(dp, i), -1)
  {
    if dp.qps[i].valid {
      var dp1 := CancelQp(dp, i);
      CancelJ(dp, i);
      var q := dp.qps[i];
      var q' := q.(rnr := false, busy := false, fault := false, cons := q.prod);
      var e := Flushed(i, q.mesh, !q.hasSrq, TakeQp(dp.outq, q.mesh));
      FlushedNow(q, i, dp1.log, q', e);
      OwnJ(dp1, i, q', e, Flush(dp, i));
    }
  }

  lemma {:induction false} UnregisterJ(dp: Dp, i: nat)
    requires JOk(dp, -1) && Distinct(dp.pend) && i < |dp.qps|
    ensures JOk(Unregister(dp, i), -1)
  {
    CancelJ(dp, i);
    var dp1 := CancelQp(dp, i);
    var dp' := Unregister(dp, i);
    FlagsJ(dp1, -1, i, dp'.qps[i], dp'.stalled, dp'.outq);
    assert dp' == dp1.(qps := dp1.qps[i := dp'.qps[i]], stalled := dp'.stalled, outq := dp'.outq);
  }

  lemma {:induction false} OpenedJ(dp: Dp, i: nat, q: Qp, stalled: int)
    requires JOk(dp, -1) && i < |dp.qps| && q.mesh == dp.nextMesh + 1 && q.ran == 0 && q.msn == 0 && !q.rnr
    ensures JOk(dp.(qps := dp.qps[i := q], nextMesh := q.mesh, stalled := stalled,
                    log := dp.log + [Opened(i, q.mesh, !IsDatagram(q.kind))]), -1)
  {
    var e := Opened(i, q.mesh, !IsDatagram(q.kind));
    OtherEvent(dp.pend, dp.nextReq, dp.log, e);
    OpenedEvent(dp.qps, dp.nextMesh, dp.log, i, q);
    OpenedNow(dp.qps, dp.nextMesh, dp.log, i, q, e);
    RinglessEvent(dp.host, dp.log, e);
  }

  /** An event of one ring, and the ring after it. */
  lemma {:induction false} RingJ(dp: Dp, e: Event, r: RecvRing)
    requires JOk(dp, -1) && (e.RingReset? || e.Posted?)
    requires HasRing(dp.host, e.ring) ==> RingTrue(r, dp.log + [e], e.ring)
    ensures JOk(dp.(host := SetRing(dp.host, e.ring, r), log := dp.log + [e]), -1)
  {
    OtherEvent(dp.pend, dp.nextReq, dp.log, e);
    QuietEvent(dp.qps, dp.nextMesh, dp.log, -1, e);
    StillNow(dp.qps, dp.nextMesh, dp.log, -1, e);
    RingEvent(dp.host, dp.log, e, r);
  }

  lemma {:induction false} ResetJ(dp: Dp, ring: RingName, live: bool, depth: nat)
    requires JOk(dp, -1)
    ensures JOk(dp.(host := SetRing(dp.host, ring, RecvRing(live, depth, 0, 0)), log := dp.log + [RingReset(ring)]), -1)
  {
    RingAfter(dp.log, RingReset(ring), ring);
    RingJ(dp, RingReset(ring), RecvRing(live, depth, 0, 0));
  }

  lemma {:induction false} RegisterJ(dp: Dp, i: nat, kind: QpKind, depth: nat, rqDepth: nat)
    requires JOk(dp, -1) && Distinct(dp.pend) && i < |dp.qps|
    ensures JOk(Register(dp, i, kind, depth, rqDepth), -1)
  {
    var dp' := Register(dp, i, kind, depth, rqDepth);
    var dp1 := CancelQp(dp, i);
    CancelJ(dp, i);
    var q := dp'.qps[i];
    OpenedJ(dp1, i, q, dp'.stalled);
    var dp2 := dp1.(qps := dp1.qps[i := q], nextMesh := q.mesh, stalled := dp'.stalled,
                    log := dp1.log + [Opened(i, q.mesh, !IsDatagram(kind))]);
    ResetJ(dp2, Own(i), true, rqDepth);
    assert dp'.qps == dp1.qps[i := q];
  }

  lemma {:induction false} RegisterQpJ(dp: Dp, i: nat, kind: QpKind, rings: Rings)
    requires JOk(dp, -1) && Distinct(dp.pend) && i < |dp.qps|
    ensures JOk(RegisterQp(dp, i, kind, rings), -1)
  {
    if GeometryOk(rings.sq, RING_MAX_LOG2) && GeometryOk(rings.rq, RING_MAX_LOG2) {
      if rings.sq.readable && rings.rq.readable {
        RegisterJ(dp, i, kind, Pow2(rings.sq.depthLog2), Pow2(rings.rq.depthLog2));
      } else {
        UnregisterJ(dp, i);
      }
    }
  }

  // ---------------------------------------------------------------------
  // What the guest gives
  // ---------------------------------------------------------------------

  lemma {:induction false} RingBellJ(dp: Dp, ring: RingName, pIndex: nat)
    requires JOk(dp, -1)
    ensures JOk(RingBell(dp, ring, pIndex), -1)
  {
    var r := RingAt(dp.host, ring);
    if HasRing(dp.host, ring) && r.live && r.depth > 0 && pIndex < r.depth {
      var e := Journal.Posted(ring, Added(r.prod, r.depth, pIndex));
      RingAfter(dp.log, e, ring);
      WrapAdd(PostedTo(dp.log, ring), e.n);
      RingJ(dp, e, Belled(r, pIndex));
    }
  }

  lemma {:induction false} OpenSrqJ(dp: Dp, s: nat, rq: RingDesc)
    requires JOk(dp, -1)
    ensures JOk(OpenSrq(dp, s, rq), -1)
  {
    if GeometryOk(rq, SRQ_MAX_LOG2) {
      if rq.readable {
        ResetJ(dp, Shared(s), true, Pow2(rq.depthLog2));
      } else {
        var h := OpenSrq(dp, s, rq).host;
        forall ring | HasRing(h, ring) ensures RingTrue(RingAt(h, ring), dp.log, ring) {
          assert RingTrue(RingAt(dp.host, ring), dp.log, ring);
        }
      }
    }
  }

  lemma {:induction false} GivenJ(dp: Dp, g: Gift)
    requires JOk(dp, -1)
    ensures JOk(Given(dp, g), -1)
  {
    match g
    case RecvBell(i, pIndex) => RingBellJ(dp, Own(i), pIndex);
    case SrqBell(s, pIndex) => RingBellJ(dp, Shared(s), pIndex);
    case NewSrq(s, rq) => OpenSrqJ(dp, s, rq);
    case EndSrq(s) => ResetJ(dp, Shared(s), false, 0);
    case Writes(writes) => HostJ(dp, -1, Given(dp, g).host);
    case Binds(op) => HostJ(dp, -1, Given(dp, g).host);
  }

  // ---------------------------------------------------------------------
  // Completions
  // ---------------------------------------------------------------------

  lemma {:induction false} FaultFinishJ(dp: Dp, i: nat)
    requires JOk(dp, -1) && Distinct(dp.pend) && i < |dp.qps| && dp.qps[i].valid && dp.qps[i].prod < dp.qps[i].depth
    ensures JOk(FaultFinish(dp, i), -1)
  {
    if dp.qps[i].fault && !Awaits(dp.pend, i) {
      var e := Cqe(i, ByFault(dp.qps[i].mesh), None, LocalQpOperErr);
      assert QpNow(dp.qps[i], i, dp.log, false);
      NoteJ(dp, -1, e);
      FlushJ(dp.(log := dp.log + [e]), i);
    }
  }

  /** An event about a request, for the rest of the books. */
  lemma {:induction false} RequestJ(dp: Dp, log: Log, e: Event)
    requires MeshesOk(dp.qps, dp.nextMesh, log, -1) && NowOk(dp.qps, dp.nextMesh, log, -1) && RingsOk(dp.host, log)
    requires e.Landed? || e.Retired? || (e.Cqe? && e.cause.ByReq?)
    ensures MeshesOk(dp.qps, dp.nextMesh, log + [e], -1) && NowOk(dp.qps, dp.nextMesh, log + [e], -1)
    ensures RingsOk(dp.host, log + [e])
  {
    QuietEvent(dp.qps, dp.nextMesh, log, -1, e);
    StillNow(dp.qps, dp.nextMesh, log, -1, e);
    RinglessEvent(dp.host, log, e);
  }

  lemma {:induction false} RetireJ(dp: Dp, s: nat, status: Status, how: How)
    requires JOk(dp, -1) && Distinct(dp.pend) && s < |dp.pend| && dp.pend[s].Some? && !how.Cancelled?
    requires EntryOk(dp.qps, dp.nextReq, dp.pend[s].value)
    ensures JOk(Retire(dp, s, status, how), -1)
  {
    var p := dp.pend[s].value;
    var posts := Completes(p);
    var done := Retired(p.req, how, posts);
    if posts {
      assert QpNow(dp.qps[p.qp], p.qp, dp.log, false);
      RetireWithCqe(dp.pend, dp.nextReq, dp.log, s, how, status);
      RequestJ(dp, dp.log, CqeOf(p, status));
      RequestJ(dp, dp.log + [CqeOf(p, status)], done);
    } else {
      RetireSilently(dp.pend, dp.nextReq, dp.log, s, how);
      RequestJ(dp, dp.log, done);
      assert dp.log + [] + [done] == dp.log + [done];
    }
  }

  lemma {:induction false} CompleteJ(dp: Dp, s: nat, status: Status, how: How)
    requires Inv(dp) && JOk(dp, -1) && s < |dp.pend| && dp.pend[s].Some? && !how.Cancelled?
    ensures JOk(Complete(dp, s, status, how), -1)
  {
    assert EntryOk(dp.qps, dp.nextReq, dp.pend[s].value);
    RetireJ(dp, s, status, how);
    var dp1 := Retire(dp, s, status, how);
    DistinctSub(dp.pend, dp1.pend);
    FaultFinishJ(dp1, dp.pend[s].value.qp);
  }

  lemma {:induction false} ScatteredJ(dp: Dp, s: nat, msg: Msg, reach: Reach)
    requires JOk(dp, -1) && s < |dp.pend| && dp.pend[s].Some?
    ensures JOk(Scattered(dp, dp.pend[s].value, msg, reach), -1)
  {
    var dp' := Scattered(dp, dp.pend[s].value, msg, reach);
    var e := dp'.log[|dp.log|];
    LandEvent(dp.pend, dp.nextReq, dp.log, s, e.data);
    RequestJ(dp, dp.log, e);
    SameRings(dp.host, dp'.host, dp'.log);
  }

  lemma {:induction false} ResponseJ(dp: Dp, msg: Msg, reach: Reach, fault: Status)
    requires Inv(dp) && JOk(dp, -1)
    ensures JOk(Response(dp, msg, reach, fault), -1)
  {
    var s := Find(dp.pend, 0, msg.reqId);
    if s < |dp.pend| {
      var p := dp.pend[s].value;
      if msg.status == Ok && msg.op != Ack {
        var dp1 := Scattered(dp, p, msg, reach);
        ScatteredJ(dp, s, msg, reach);
        JournalInv(dp, dp1.log, dp.outq, dp1.host);
        CompleteJ(dp1, s, ScatterStatus(dp, p, msg, reach, fault), Answered);
      } else {
        CompleteJ(dp, s, msg.status, Answered);
      }
    }
  }

  lemma {:induction false} TakeBackJ(dp: Dp, p: Pending)
    requires JOk(dp, -1)
    ensures JOk(TakeBack(dp, p), -1)
  {
    if HasRequest(dp.outq, p.mesh, p.req) {
      NoteJ(dp, -1, Journal.TakenBack(p.req));
    }
  }

  lemma {:induction false} ExpireJ(dp: Dp, now: nat, n: nat)
    requires JOk(dp, -1) && Inv(dp) && n <= |dp.pend|
    ensures JOk(Expire(dp, now, n), -1)
    decreases |dp.pend| - n
  {
    if n < |dp.pend| {
      if dp.pend[n].Some? && now > dp.pend[n].value.deadline {
        var dp1 := TakeBack(dp, dp.pend[n].value);
        JournalInv(dp, dp1.log, dp1.outq, dp.host);
        TakeBackJ(dp, dp.pend[n].value);
        CompleteInv(dp1, n, RetryExceeded, TimedOut);
        CompleteJ(dp1, n, RetryExceeded, TimedOut);
        ExpireJ(Complete(dp1, n, RetryExceeded, TimedOut), now, n + 1);
      } else {
        ExpireJ(dp, now, n + 1);
      }
    }
  }

  // ---------------------------------------------------------------------
  // Running a WQE
  // ---------------------------------------------------------------------

  /** QP i's send queue may run a WQE. */
  ghost predicate Live(dp: Dp, i: nat) {
    JOk(dp, -1) && i < |dp.qps| && dp.qps[i].valid && !Halted(dp.log, dp.qps[i].mesh)
  }

  /** The next WQE has no fate yet. */
  lemma {:induction false} FreshFate(dp: Dp, i: nat)
    requires Live(dp, i)
    ensures var q := dp.qps[i];
      && Tally(dp.log, KFate(q.mesh, q.ran)) == 0 && RunsNext(dp.log, q.mesh, q.ran)
      && NextMsn(q) == (Tally(dp.log, KMsn(q.mesh)) + 1) % U32 && RegOf(dp.log, i) == Some(q.mesh)
  {
    assert QpBooks(dp.qps[i], dp.log, false) && QpNow(dp.qps[i], i, dp.log, false);
  }

  lemma {:induction false} LiveAfter(log: Log, e: Event, m: nat)
    requires Still(e)
    ensures Halted(log + [e], m) <==> Halted(log, m)
  {
    NowAfter(log, e, m);
  }

  /** Its books but for what is pending. */
  ghost predicate Half(dp: Dp, i: nat) {
    && i < |dp.qps| && dp.qps[i].valid && !Halted(dp.log, dp.qps[i].mesh)
    && MeshesOk(dp.qps, dp.nextMesh, dp.log, -1)
    && NowOk(dp.qps, dp.nextMesh, dp.log, -1)
    && RingsOk(dp.host, dp.log)
  }

  /** A completion that is the fate of the WQE QP i is at. */
  lemma {:induction false} FateNow(dp: Dp, i: nat, e: Event)
    requires Half(dp, i) && e.Cqe? && MsnFits(e, dp.qps[i])
    ensures NowOk(dp.qps[i := TookMsn(dp.qps[i], e)], dp.nextMesh, dp.log + [e], i)
  {
    StillNow(dp.qps, dp.nextMesh, dp.log, -1, e);
    LiveAfter(dp.log, e, dp.qps[i].mesh);
    MidNow(dp.qps, dp.nextMesh, dp.log + [e], i);
    FlagsNow(dp.qps, dp.nextMesh, dp.log + [e], i, i, TookMsn(dp.qps[i], e));
  }

  lemma {:induction false} FateHalf(dp: Dp, i: nat, e: Event, qps: seq<Qp>, log: Log)
    requires Half(dp, i) && e.Cqe? && IsFate(e, dp.qps[i]) && MsnFits(e, dp.qps[i])
    requires qps == dp.qps[i := TookMsn(dp.qps[i], e)] && log == dp.log + [e]
    ensures MeshesOk(qps, dp.nextMesh, log, i) && NowOk(qps, dp.nextMesh, log, i) && RingsOk(dp.host, log)
  {
    FateEvent(dp.qps, dp.nextMesh, dp.log, i, e);
    FateNow(dp, i, e);
    RinglessEvent(dp.host, dp.log, e);
  }

  lemma {:induction false} FateJ(dp: Dp, i: nat, e: Event)
    requires Live(dp, i) && e.Cqe? && e.qp == i && IsFate(e, dp.qps[i]) && MsnFits(e, dp.qps[i])
    ensures JOk(dp.(qps := dp.qps[i := TookMsn(dp.qps[i], e)], log := dp.log + [e]), i)
  {
    FreshFate(dp, i);
    OtherEvent(dp.pend, dp.nextReq, dp.log, e);
    FateHalf(dp, i, e, dp.qps[i := TookMsn(dp.qps[i], e)], dp.log + [e]);
  }

  lemma {:induction false} PostNpgJ(dp: Dp, i: nat, status: Status)
    requires Live(dp, i)
    ensures JOk(PostNpg(dp, i, status), i)
  {
    var e := Cqe(i, ByWqe(dp.qps[i].mesh, dp.qps[i].ran), None, status);
    FateJ(dp, i, e);
    assert dp.qps[i := TookMsn(dp.qps[i], e)] == dp.qps;
  }

  lemma {:induction false} PostMsnJ(dp: Dp, i: nat, status: Status)
    requires Live(dp, i)
    ensures JOk(PostMsn(dp, i, status), i)
  {
    var q := dp.qps[i];
    FateJ(dp, i, Cqe(i, ByWqe(q.mesh, q.ran), Some(NextMsn(q)), status));
  }

  lemma {:induction false} CompleteSendJ(dp: Dp, i: nat, status: Status)
    requires Live(dp, i)
    ensures JOk(CompleteSend(dp, i, status), i)
  {
    if IsDatagram(dp.qps[i].kind) {
      PostNpgJ(dp, i, status);
    } else {
      PostMsnJ(dp, i, status);
    }
  }

  lemma {:induction false} UnsentJ(dp: Dp, i: nat, now: nat, p: Post, env: MeshEnv)
    requires Live(dp, i) && !PostResult(dp, p, env).PostSent?
    ensures Live(RemotePost(dp, i, now, p, env), i)
  {
  }

  /** What handing a request to the mesh needs of the request. */
  predicate Sends(dp: Dp, i: nat, e: Pending, sent: Event)
    requires i < |dp.qps|
  {
    var q := dp.qps[i];
    && sent.Sent? && Describes(sent, e) && sent.req == e.req == sent.msg.reqId == dp.nextReq + 1
    && e.qp == i && sent.mesh == q.mesh && sent.k == q.ran && (e.useMsn ==> e.msn == NextMsn(q))
  }

  lemma {:induction false} SentReqs(dp: Dp, i: nat, s: nat, e: Pending, sent: Event)
    requires Live(dp, i) && s < |dp.pend| && dp.pend[s].None? && Sends(dp, i, e, sent)
    ensures ReqsOk(dp.pend[s := Some(e)], dp.nextReq + 1, dp.log + [sent])
  {
    FreshFate(dp, i);
    SendReq(dp.pend, dp.nextReq, dp.log, s, e, sent);
  }

  lemma {:induction false} SentBooks(dp: Dp, i: nat, e: Pending, sent: Event)
    requires Live(dp, i) && Sends(dp, i, e, sent)
    ensures var q := dp.qps[i];
      MeshesOk(if e.useMsn then dp.qps[i := q.(msn := e.msn)] else dp.qps, dp.nextMesh, dp.log + [sent],
               if Completes(e) then i else -1)
  {
    if Completes(e) {
      FateEvent(dp.qps, dp.nextMesh, dp.log, i, sent);
      assert !e.useMsn ==> dp.qps[i := TookMsn(dp.qps[i], sent)] == dp.qps;
    } else {
      QuietEvent(dp.qps, dp.nextMesh, dp.log, -1, sent);
    }
  }

  lemma {:induction false} SentNow(dp: Dp, i: nat, e: Pending, sent: Event)
    requires Live(dp, i) && Sends(dp, i, e, sent)
    ensures var q := dp.qps[i];
      NowOk(if e.useMsn then dp.qps[i := q.(msn := e.msn)] else dp.qps, dp.nextMesh, dp.log + [sent],
            if Completes(e) then i else -1)
    ensures !Halted(dp.log + [sent], dp.qps[i].mesh)
  {
    var mid := if Completes(e) then i else -1;
    StillNow(dp.qps, dp.nextMesh, dp.log, -1, sent);
    LiveAfter(dp.log, sent, dp.qps[i].mesh);
    if Completes(e) {
      MidNow(dp.qps, dp.nextMesh, dp.log + [sent], i);
    }
    FlagsNow(dp.qps, dp.nextMesh, dp.log + [sent], mid, i, dp.qps[i].(msn := e.msn));
  }

  /** A request that is sent, and answers for the WQE or doesn't. */
  lemma {:induction false} ParkedJ(dp: Dp, i: nat, s: nat, e: Pending, sent: Event, dp': Dp)
    requires Live(dp, i) && s < |dp.pend| && dp.pend[s].None? && Sends(dp, i, e, sent)
    requires dp' == Parked(dp, i, s, e, sent)
    ensures JOk(dp', if Completes(e) then i else -1) && (!Completes(e) ==> Live(dp', i))
  {
    SentReqs(dp, i, s, e, sent);
    SentBooks(dp, i, e, sent);
    SentNow(dp, i, e, sent);
    RinglessEvent(dp.host, dp.log, sent);
  }

  lemma {:induction false} PostSends(dp: Dp, i: nat, now: nat, p: Post, env: MeshEnv)
    requires i < |dp.qps| && PostResult(dp, p, env).PostSent?
    ensures Sends(dp, i, PostedEntry(dp, i, now, p), SentEvent(dp, i, now, p))
  {
  }

  lemma {:induction false} SentJ(dp: Dp, i: nat, now: nat, p: Post, env: MeshEnv, dp': Dp)
    requires Live(dp, i) && PostResult(dp, p, env).PostSent? && dp' == RemotePost(dp, i, now, p, env)
    ensures JOk(dp', if p.useMsn || p.signalled then i else -1)
    ensures !p.useMsn && !p.signalled ==> Live(dp', i)
  {
    PostSends(dp, i, now, p, env);
    ParkedJ(dp, i, FreeSlot(dp.pend, 0), PostedEntry(dp, i, now, p), SentEvent(dp, i, now, p), dp');
  }

  lemma {:induction false} SetBusyJ(dp: Dp, i: nat)
    requires JOk(dp, -1) && i < |dp.qps|
    ensures JOk(SetBusy(dp, i), -1)
  {
    var dp' := SetBusy(dp, i);
    FlagsJ(dp, -1, i, dp'.qps[i], dp'.stalled, dp.outq);
    assert dp' == dp.(qps := dp.qps[i := dp'.qps[i]], stalled := dp'.stalled, outq := dp.outq);
  }

  lemma {:induction false} WaitedNow(q: Qp, i: nat, log: Log, now: nat, q': Qp)
    requires QpNow(q, i, log, false) && !q.fault && !Halted(log, q.mesh)
    requires q' == if q.rnr then q else q.(rnr := true, rnrSince := now)
    ensures QpNow(q', i, log + [Waited(q.mesh, now)], false) && !Halted(log + [Waited(q.mesh, now)], q.mesh)
  {
    NowAfter(log, Waited(q.mesh, now), q.mesh);
    RegAfter(log, Waited(q.mesh, now), i);
  }

  lemma {:induction false} SetRnrJ(dp: Dp, i: nat, now: nat)
    requires Live(dp, i) && !dp.qps[i].fault && now < U64
    ensures Live(SetRnr(dp, i, now), i)
  {
    var dp', q := SetRnr(dp, i, now), dp.qps[i];
    var q' := dp'.qps[i];
    assert QpNow(q, i, dp.log, false) && q.mesh <= dp.nextMesh;
    WaitedNow(q, i, dp.log, now, q');
    assert q.rnr ==> dp.qps[i := q] == dp.qps;
    OwnJ(dp, i, q', Waited(q.mesh, now), dp');
  }

  /** A datagram QP's WQE that ends with no completion still leaves its books
      ready to move on: they promise a fate only to a connected QP's. */
  lemma {:induction false} NoFateJ(dp: Dp, i: nat)
    requires Live(dp, i) && IsDatagram(dp.qps[i].kind)
    ensures JOk(dp, i)
  {
    MidNow(dp.qps, dp.nextMesh, dp.log, i);
  }

  lemma {:induction false} FailPostJ(dp: Dp, i: nat, signalled: bool, status: Status)
    requires Live(dp, i)
    ensures JOk(FailPost(dp, i, !IsDatagram(dp.qps[i].kind), signalled, status), i)
  {
    if !IsDatagram(dp.qps[i].kind) {
      PostMsnJ(dp, i, status);
    } else if signalled {
      PostNpgJ(dp, i, status);
    } else {
      NoFateJ(dp, i);
    }
  }

  lemma {:induction false} RunRemoteJ(dp: Dp, i: nat, now: nat, w: Wqe)
    requires Live(dp, i) && w.Wqe?
    ensures var r := RunRemote(dp, i, now, w); JOk(r.dp, if r.past then i else -1)
  {
    var q := dp.qps[i];
    var connected := !IsDatagram(q.kind);
    var p := PostOf(w, connected, q.destQp, q.destNode);
    var dp1 := RemotePost(dp, i, now, p, w.mesh);
    var posted := PostResult(dp, p, w.mesh);
    if posted.PostSent? {
      SentJ(dp, i, now, p, w.mesh, dp1);
      if !connected && !w.signalled {
        NoFateJ(dp1, i);
      }
    } else {
      UnsentJ(dp, i, now, p, w.mesh);
      if posted.PostBusy? {
        SetBusyJ(dp1, i);
      } else {
        FailPostJ(dp1, i, w.signalled, if posted.PostSendFailed? then RetryExceeded else RemoteAccErr);
      }
    }
  }

  /** What the mesh makes of a datagram; its WQE's completion is yet to come. */
  lemma {:induction false} DatagramJ(dp: Dp, i: nat, now: nat, p: Post, env: MeshEnv)
    requires Live(dp, i) && !p.useMsn && !p.signalled
    ensures Live(RemotePost(dp, i, now, p, env), i)
  {
    if PostResult(dp, p, env).PostSent? {
      SentJ(dp, i, now, p, env, RemotePost(dp, i, now, p, env));
    } else {
      UnsentJ(dp, i, now, p, env);
    }
  }

  lemma {:induction false} ToNodeJ(dp: Dp, i: nat, now: nat, w: Wqe)
    requires Live(dp, i) && w.Wqe? && now < U64 && dp.qps[i].rnrSince < U64
    requires w.send.ToNode? && IsDatagram(dp.qps[i].kind) && CanGram(dp.host, w)
    ensures var r := RunSend(dp, i, now, w); JOk(r.dp, if r.past then i else -1)
  {
    var p := Datagram(dp.host, w);
    var dp1 := RemotePost(dp, i, now, p, w.mesh);
    DatagramJ(dp, i, now, p, w.mesh);
    if PostResult(dp, p, w.mesh).PostBusy? {
      SetBusyJ(dp1, i);
    } else {
      CompleteSendJ(dp1, i, Ok);
    }
  }

  // ---------------------------------------------------------------------
  // Receives
  // ---------------------------------------------------------------------

  /** A receive that is taken for a peer, and its completion. */
  lemma {:induction false} ReceivedJ(dp: Dp, ring: RingName, wqe: Option<seq<Sge>>, host: Host, e: Event)
    requires JOk(dp, -1) && e.Received? && e.ring == ring && e.landed <= e.total && e.taker.ForPeer?
    requires Takes(RingAt(dp.host, ring), wqe) && RingsAfter(dp.host, host, ring, wqe)
    ensures JOk(dp.(host := host, log := dp.log + [e]), -1)
  {
    TakeRings(dp.host, dp.log, ring, wqe, host, e);
    OtherEvent(dp.pend, dp.nextReq, dp.log, e);
    QuietEvent(dp.qps, dp.nextMesh, dp.log, -1, e);
    StillNow(dp.qps, dp.nextMesh, dp.log, -1, e);
  }

  /** A peer's request, and the receive it takes if it does. */
  lemma {:induction false} ExecutedJ(dp: Dp, ring: Option<RingName>, src: nat, msg: Msg, f: Found)
    requires JOk(dp, -1)
    ensures var o := Execute(dp.host, ring, src, msg, f); JOk(dp.(host := o.host, log := dp.log + o.events), -1)
  {
    var o := Execute(dp.host, ring, src, msg, f);
    TakesAsItSays(dp.host, ring, src, msg, f);
    ExecuteRings(dp.host, ring, src, msg, f);
    if o.took {
      ReceivedJ(dp, ring.value, f.recv, o.host, o.events[0]);
      assert o.events == [o.events[0]];
    } else {
      HostJ(dp, -1, o.host);
      assert dp.log + [] == dp.log;
    }
  }

  lemma {:induction false} ServedJ(dp: Dp, l: Letter, env: HandleEnv)
    requires JOk(dp, -1)
    ensures JOk(Replied(dp, l, env), -1)
  {
    ExecutedJ(dp, RingOf(dp, l.msg), l.src, l.msg, env.found);
  }

  /** What the mesh does to its queue is no part of the books. */
  lemma {:induction false} LeftJ(dp: Dp, k: nat)
    requires JOk(dp, -1)
    ensures JOk(Left(dp, k), -1)
  {
  }

  /** The completion of a WQE that is done. */
  function DoneEvent(q: Qp, i: nat): (e: Event) {
    Cqe(i, ByWqe(q.mesh, q.ran), if IsDatagram(q.kind) then None else Some(NextMsn(q)), Ok)
  }

  lemma {:induction false} DoneIs(dp: Dp, i: nat)
    requires i < |dp.qps|
    ensures var e := DoneEvent(dp.qps[i], i);
      CompleteSend(dp, i, Ok) == dp.(qps := dp.qps[i := TookMsn(dp.qps[i], e)], log := dp.log + [e])
  {
    assert IsDatagram(dp.qps[i].kind) ==> dp.qps[i := dp.qps[i]] == dp.qps;
  }

  /** What taking a receive leaves for the WQE's completion. */
  lemma {:induction false} TakeThenDone(dp: Dp, i: nat, take: Event, e: Event)
    requires Live(dp, i) && e == DoneEvent(dp.qps[i], i)
    requires take.Received? && take.taker == ForWqe(dp.qps[i].mesh, dp.qps[i].ran)
    requires take.landed <= take.total && TakenFrom(dp.log, take.ring) < PostedTo(dp.log, take.ring)
    ensures ReqsOk(dp.pend, dp.nextReq, dp.log + [take] + [e])
  {
    FreshFate(dp, i);
    var q := dp.qps[i];
    TallyAfter(dp.log, take);
    RegAfter(dp.log, take, i);
    LiveAfter(dp.log, take, q.mesh);
    TakenEvents(dp.pend, dp.nextReq, dp.log, take, e);
  }

  lemma {:induction false} TakenHalf(dp: Dp, i: nat, host: Host, take: Event)
    requires Live(dp, i) && take.Received? && RingsOk(host, dp.log + [take])
    ensures Half(dp.(host := host, log := dp.log + [take]), i)
  {
    QuietEvent(dp.qps, dp.nextMesh, dp.log, -1, take);
    StillNow(dp.qps, dp.nextMesh, dp.log, -1, take);
    LiveAfter(dp.log, take, dp.qps[i].mesh);
  }

  /** A WQE's load that is delivered takes its receive, and is completed. */
  lemma {:induction false} DeliveredJ(dp: Dp, i: nat, j: nat, w: Wqe, load: Load, d: Delivery, dp1: Dp)
    requires Live(dp, i) && j < |dp.qps| && w.Wqe? && d == DeliveryTo(dp, j, w, load) && d.taken
    requires dp1 == Handed(dp, j, ForWqe(dp.qps[i].mesh, dp.qps[i].ran), load, d)
    ensures JOk(CompleteSend(dp1, i, Ok), i)
  {
    var q, ring := dp.qps[i], RingFor(dp.qps[j], j);
    var take := Received(j, ring, ForWqe(q.mesh, q.ran), LoadSize(load), d.landed, d.status);
    var e := DoneEvent(q, i);
    DeliverKeeps(dp.host, ring, w.recv, load, w.got.move, w.fault);
    OneTaken(dp.host, ring, w.recv, load, w.got.move, w.fault);
    TakeRings(dp.host, dp.log, ring, w.recv, d.host, take);
    TakeThenDone(dp, i, take, e);
    TakenHalf(dp, i, d.host, take);
    FateHalf(dp1, i, e, dp.qps[i := TookMsn(q, e)], dp1.log + [e]);
    DoneIs(dp1, i);
  }

  lemma {:induction false} RunRnrJ(dp: Dp, i: nat, now: nat)
    requires Live(dp, i) && !dp.qps[i].fault && now < U64 && dp.qps[i].rnrSince < U64
    ensures var r := RunRnr(dp, i, now); JOk(r.dp, if r.past then i else -1)
  {
    SetRnrJ(dp, i, now);
    CompleteSendJ(SetRnr(dp, i, now), i, RnrRetryExceeded);
  }

  lemma {:induction false} RunToQpJ(dp: Dp, i: nat, now: nat, w: Wqe)
    requires Live(dp, i) && !dp.qps[i].fault && w.Wqe? && w.send.ToQp? && now < U64 && dp.qps[i].rnrSince < U64
    ensures var r := RunToQp(dp, i, now, w); JOk(r.dp, if r.past then i else -1)
  {
    var q := dp.qps[i];
    var j := SendTarget(q, i, w.send.dst);
    if !Delivers(dp, q, j, w) {
      CompleteSendJ(dp, i, Ok);
    } else {
      var load := SendLoad(dp, j, w);
      var d := DeliveryTo(dp, j, w, load);
      if d.taken {
        DeliveredJ(dp, i, j, w, load, d, Handed(dp, j, ForWqe(q.mesh, q.ran), load, d));
      } else {
        NoneTaken(dp.host, RingFor(dp.qps[j], j), w.recv, load, w.got.move, w.fault);
        CompleteSendJ(dp, i, Ok);
        RunRnrJ(dp, i, now);
      }
    }
  }

  lemma {:induction false} RunSendJ(dp: Dp, i: nat, now: nat, w: Wqe)
    requires Live(dp, i) && !dp.qps[i].fault && w.Wqe? && now < U64 && dp.qps[i].rnrSince < U64
    ensures var r := RunSend(dp, i, now, w); JOk(r.dp, if r.past then i else -1)
  {
    if w.send.ToNode? && IsDatagram(dp.qps[i].kind) && CanGram(dp.host, w) {
      ToNodeJ(dp, i, now, w);
    } else if w.send.ToQp? {
      RunToQpJ(dp, i, now, w);
    } else {
      CompleteSendJ(dp, i, Ok);
    }
  }

  lemma {:induction false} UnfetchedJ(dp: Dp, i: nat)
    requires Live(dp, i) && Distinct(dp.pend) && dp.qps[i].prod < dp.qps[i].depth
    ensures JOk(Unfetched(dp, i), -1)
  {
    var dp1 := Clear(dp, i);
    var q' := dp1.qps[i].(fault := true);
    var dp2 := dp1.(qps := dp1.qps[i := q']);
    assert dp2.qps == dp.qps[i := q'];
    assert QpNow(dp.qps[i], i, dp.log, false);
    FlagsBooks(dp.qps, dp.nextMesh, dp.log, -1, i, q');
    assert JOk(dp2, -1);
    FaultFinishJ(dp2, i);
  }

  lemma {:induction false} HostLive(dp: Dp, i: nat, host: Host)
    requires Live(dp, i) && host.rq == dp.host.rq && host.srq == dp.host.srq
    ensures Live(dp.(host := host), i)
  {
    HostJ(dp, -1, host);
  }

  /** A WRITE_IMM whose bytes have landed, with the receive it takes, or without. */
  lemma {:induction false} ImmediateJ(dp: Dp, i: nat, w: Wqe)
    requires Live(dp, i) && w.Wqe?
    ensures JOk(CompleteSend(RunImmediate(dp, i, w), i, Ok), i)
  {
    var q, load := dp.qps[i], Immediate(w.length);
    var j := if q.destValid then q.destQp else i;
    if j >= |dp.qps| || !dp.qps[j].valid {
      CompleteSendJ(dp, i, Ok);
    } else {
      var d := DeliveryTo(dp, j, w, load);
      if d.taken {
        DeliveredJ(dp, i, j, w, load, d, Handed(dp, j, ForWqe(q.mesh, q.ran), load, d));
      } else {
        NoneTaken(dp.host, RingFor(dp.qps[j], j), w.recv, load, w.got.move, w.fault);
        CompleteSendJ(dp, i, Ok);
      }
    }
  }

  lemma {:induction false} RunLocalJ(dp: Dp, i: nat, w: Wqe)
    requires Live(dp, i) && w.Wqe?
    ensures JOk(RunLocal(dp, i, w), i)
  {
    var m := LocalOp(dp.host, w);
    var dp1 := dp.(host := m.host);
    HostLive(dp, i, m.host);
    if w.op.OpWriteImm? && m.status == Ok {
      ImmediateJ(dp1, i, w);
    } else {
      CompleteSendJ(dp1, i, m.status);
    }
  }

  /** Running a WQE gives it its one fate, or, if the queue stops at it, none. */
  lemma {:induction false} RunJ(dp: Dp, i: nat, now: nat, w: Wqe)
    requires Live(dp, i) && !dp.qps[i].fault && Distinct(dp.pend) && dp.qps[i].prod < dp.qps[i].depth
    requires now < U64 && dp.qps[i].rnrSince < U64
    ensures var r := Run(dp, i, now, w); JOk(r.dp, if r.past then i else -1)
  {
    if w.Unreadable? {
      UnfetchedJ(dp, i);
    } else if w.op.OpRegMr? || w.op.OpLocalInv? {
      HostLive(dp, i, RunReg(dp, w).host);
      PostNpgJ(RunReg(dp, w), i, RegStatus(w));
    } else if w.early.Some? {
      CompleteSendJ(dp, i, MalformedStatus(w.early.value));
    } else if !SgesOk(dp.host.mrs, w.local) {
      CompleteSendJ(dp, i, LocalProtErr);
    } else if IsRemote(dp, dp.qps[i]) {
      RunRemoteJ(dp, i, now, w);
    } else if IsSendOp(w.op) {
      RunSendJ(dp, i, now, w);
    } else if w.op.OpOther? {
      CompleteSendJ(dp, i, LocalQpOperErr);
    } else {
      RunLocalJ(dp, i, w);
    }
  }

  lemma {:induction false} MovedNow(q: Qp, i: nat, log: Log, slot: nat, q': Qp)
    requires QpNow(q, i, log, true) && q'.mesh == q.mesh && !q'.rnr && !q'.fault
    ensures QpNow(q', i, log + [Moved(q.mesh, slot)], false)
  {
    NowAfter(log, Moved(q.mesh, slot), q.mesh);
    RegAfter(log, Moved(q.mesh, slot), i);
  }

  lemma {:induction false} MoveBooks(qps: seq<Qp>, nextMesh: nat, log: Log, i: nat, slot: nat, q': Qp)
    requires MeshesOk(qps, nextMesh, log, i) && i < |qps| && qps[i].valid
    requires SameBooks(qps[i].(ran := qps[i].ran + 1), q')
    ensures MeshesOk(qps[i := q'], nextMesh, log + [Moved(qps[i].mesh, slot)], -1)
  {
    MovedEvent(qps, nextMesh, log, i, slot);
    var q1 := qps[i].(ran := qps[i].ran + 1);
    FlagsBooks(qps[i := q1], nextMesh, log + [Moved(qps[i].mesh, slot)], -1, i, q');
    assert qps[i := q1][i := q'] == qps[i := q'];
  }

  lemma {:induction false} MoveNow(qps: seq<Qp>, nextMesh: nat, log: Log, i: nat, slot: nat, q': Qp)
    requires NowOk(qps, nextMesh, log, i) && MeshesApart(qps) && i < |qps| && qps[i].valid && q'.valid
    requires qps[i].mesh == q'.mesh <= nextMesh && !q'.rnr && !q'.fault
    ensures NowOk(qps[i := q'], nextMesh, log + [Moved(qps[i].mesh, slot)], -1)
    ensures !Halted(log, qps[i].mesh)
  {
    assert QpNow(qps[i], i, log, true);
    MovedNow(qps[i], i, log, slot, q');
    OwnNow(qps, nextMesh, log, i, i, q', Moved(qps[i].mesh, slot));
  }

  lemma {:induction false} AdvanceJ(dp: Dp, i: nat)
    requires JOk(dp, i) && i < |dp.qps| && dp.qps[i].valid && dp.qps[i].depth > 0
    ensures JOk(Advance(dp, i), -1)
  {
    var q, dp' := dp.qps[i], Advance(dp, i);
    var slot, q' := Rem(q.cons, q.depth), dp'.qps[i];
    var e := Moved(q.mesh, slot);
    assert dp'.qps == dp.qps[i := q'] && dp'.log == dp.log + [e];
    assert q.mesh <= dp.nextMesh;
    MoveBooks(dp.qps, dp.nextMesh, dp.log, i, slot, q');
    MoveNow(dp.qps, dp.nextMesh, dp.log, i, slot, q');
    OtherEvent(dp.pend, dp.nextReq, dp.log, e);
    RinglessEvent(dp.host, dp.log, e);
  }

  ghost predicate Running(dp: Dp, i: nat) { MayRun(dp, i) && JOk(dp, -1) }

  lemma {:induction false} WorksLive(dp: Dp, i: nat)
    requires Running(dp, i) && AtWork(dp, i)
    ensures Live(dp, i)
  {
    assert QpNow(dp.qps[i], i, dp.log, false);
  }

  lemma {:induction false} TurnJ(dp: Dp, i: nat, now: nat, w: Wqe, r: Ran)
    requires Running(dp, i) && AtWork(dp, i) && now < U64 && r == Run(dp, i, now, w)
    ensures !r.past ==> JOk(r.dp, -1)
    ensures r.past ==> InTable(r.dp, i)
    ensures r.past ==> JOk(Advance(r.dp, i), -1)
  {
    WorksLive(dp, i);
    RunJ(dp, i, now, w);
    if r.past {
      AdvanceJ(r.dp, i);
    }
  }

  lemma {:induction false} TurnRunning(dp: Dp, i: nat, now: nat, w: Wqe, r: Ran)
    requires Running(dp, i) && AtWork(dp, i) && now < U64 && r == Run(dp, i, now, w)
    ensures !r.past ==> JOk(r.dp, -1)
    ensures r.past ==> InTable(r.dp, i)
    ensures r.past ==> Running(Advance(r.dp, i), i)
    ensures r.past ==> Advance(r.dp, i).qps[i].depth == dp.qps[i].depth
  {
    TurnInv(dp, i, now, w, r);
    TurnJ(dp, i, now, w, r);
  }

  lemma {:induction false} ServiceJ(dp: Dp, i: nat, now: nat, at: nat -> Wqe)
    requires Inv(dp) && JOk(dp, -1) && i < |dp.qps| && dp.qps[i].valid && now < U64
    ensures JOk(Service(dp, i, now, at), -1)
  {
    if !dp.qps[i].fault {
      var P := (d: Dp) => Running(d, i);
      var Q := (d: Dp) => JOk(d, -1);
      forall d, w | P(d) && AtWork(d, i) ensures TurnKeeps(P, Q, d, i, now, w) {
        TurnRunning(d, i, now, w, Run(d, i, now, w));
      }
      ServiceKeeps(P, Q, dp, i, now, at, 0, Service(dp, i, now, at), dp.qps[i].depth);
    }
  }

  lemma {:induction false} RungNow(q: Qp, i: nat, log: Log, q': Qp)
    requires QpNow(q, i, log, false) && q' == q.(prod := q'.prod)
    ensures QpNow(q', i, log + [SqRung(q.mesh)], false)
  {
    NowAfter(log, SqRung(q.mesh), q.mesh);
    RegAfter(log, SqRung(q.mesh), i);
  }

  lemma {:induction false} DoorbellJ(dp: Dp, i: nat, pIndex: nat, now: nat, at: nat -> Wqe)
    requires Inv(dp) && JOk(dp, -1) && i < |dp.qps| && now < U64
    ensures JOk(Doorbell(dp, i, pIndex, now, at), -1)
  {
    var q := dp.qps[i];
    if q.valid {
      var q', e := q.(prod := Rem(pIndex, q.depth)), SqRung(q.mesh);
      SetQpInv(dp, i, q');
      var dp1 := dp.(qps := dp.qps[i := q']);
      JournalInv(dp1, dp.log + [e], dp.outq, dp.host);
      assert QpNow(q, i, dp.log, false) && q.mesh <= dp.nextMesh;
      RungNow(q, i, dp.log, q');
      OwnJ(dp, i, q', e, dp1.(log := dp.log + [e]));
      ServiceJ(dp1.(log := dp.log + [e]), i, now, at);
    }
  }

  lemma {:induction false} RetryJ(dp: Dp, n: nat, now: nat, at: nat -> nat -> Wqe)
    requires Inv(dp) && JOk(dp, -1) && Shaped(dp) && n <= |dp.qps| && now < U64
    ensures JOk(RetryFrom(dp, n, now, at), -1)
    decreases |dp.qps| - n
  {
    if dp.stalled != 0 && n < |dp.qps| {
      RetryOneInv(dp, n, now, at(n));
      if dp.qps[n].valid && IsStalled(dp.qps[n]) {
        ServiceJ(dp, n, now, at(n));
      }
      RetryJ(RetryOne(dp, n, now, at(n)), n + 1, now, at);
    }
  }

  /** A change of a QP's destination or shared ring. */
  lemma {:induction false} SetQpJ(dp: Dp, i: nat, q: Qp)
    requires JOk(dp, -1) && i < |dp.qps| && SameBooks(dp.qps[i], q) && SameNow(dp.qps[i], q)
    ensures JOk(dp.(qps := dp.qps[i := q]), -1)
  {
    FlagsJ(dp, -1, i, q, dp.stalled, dp.outq);
  }

  lemma {:induction false} AdministeredJ(dp: Dp, i: nat, op: QpOp)
    requires Inv(dp) && JOk(dp, -1) && i < |dp.qps|
    ensures JOk(Administered(dp, i, op), -1)
  {
    match op
    case Flushes => FlushJ(dp, i);
    case Registers(kind, rings) => RegisterQpJ(dp, i, kind, rings);
    case Unregisters => UnregisterJ(dp, i);
    case SetsDest(q, n) =>
      if dp.qps[i].valid {
        SetQpJ(dp, i, dp.qps[i].(destQp := q, destNode := n, destValid := true));
      }
    case BindsSrq(s) => SetQpJ(dp, i, dp.qps[i].(hasSrq := true, srq := s));
  }

  lemma {:induction false} DoJ(dp: Dp, c: Cmd)
    requires Inv(dp) && JOk(dp, -1) && Shaped(dp)
    ensures JOk(Do(dp, c), -1)
  {
    match c
    case Ring(i, pIndex, now, at) =>
      if i < |dp.qps| && now < U64 { DoorbellJ(dp, i, pIndex, now, at); }
    case Retry(now, all) => if now < U64 { RetryJ(dp, 0, now, all); }
    case Tick(now) => ExpireJ(dp, now, 0);
    case Answer(msg, reach, fault) => ResponseJ(dp, msg, reach, fault);
    case Admin(i, op) => if i < |dp.qps| { AdministeredJ(dp, i, op); }
    case Gives(g) => GivenJ(dp, g);
    case Serves(l, env) => ServedJ(dp, l, env);
    case Leaves(k) => LeftJ(dp, k);
  }
}
