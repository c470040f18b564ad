/** What the send side's operations do to the mesh's queue, told against the
    journal: a request enters it once, when it is sent, and what is taken back
    is gone from it. */
module Evolve {
  import opened Arith
  import opened Wire
  import opened Journal
  import opened Host
  import opened WorkRequests
  import opened SendQueue
  import opened SendQueueInv
  import opened Ledger

  /** How many of the queued requests are number r. */
  function Cnt(s: seq<Queued>, r: nat): (n: nat) {
    if s == [] then 0
    else Cnt(s[..|s| - 1], r) + (if !s[|s| - 1].reply && s[|s| - 1].req == r then 1 else 0)
  }

  lemma {:induction false} CntOne(s: seq<Queued>, m: Queued, r: nat)
    ensures Cnt(s + [m], r) == Cnt(s, r) + (if !m.reply && m.req == r then 1 else 0)
  {
  }

  function Occurs(s: seq<nat>, r: nat): (n: nat) {
    if s == [] then 0 else Occurs(s[..|s| - 1], r) + (if s[|s| - 1] == r then 1 else 0)
  }

  lemma {:induction false} OccursIn(s: seq<nat>, r: nat)
    ensures r in s <==> Occurs(s, r) > 0
  {
    if s != [] {
      OccursIn(s[..|s| - 1], r);
      assert s == s[..|s| - 1] + [s[|s| - 1]];
    }
  }

  lemma {:induction false} OccursOne(s: seq<nat>, x: nat, r: nat)
    ensures Occurs(s + [x], r) == Occurs(s, r) + (if x == r then 1 else 0)
  {
  }

  /** What a flush takes back and what it leaves are what there was. */
  lemma {:induction false} KeepTake(s: seq<Queued>, mesh: nat, r: nat)
    ensures Cnt(KeepQp(s, mesh), r) + Occurs(TakeQp(s, mesh), r) == Cnt(s, r)
  {
    if s != [] {
      var a := s[..|s| - 1];
      var m := s[|s| - 1];
      KeepTake(a, mesh, r);
      if OfQp(m, mesh) {
        OccursOne(TakeQp(a, mesh), m.req, r);
        assert KeepQp(a, mesh) + [] == KeepQp(a, mesh);
      } else {
        CntOne(KeepQp(a, mesh), m, r);
        assert TakeQp(a, mesh) + [] == TakeQp(a, mesh);
      }
    }
  }

  /** A flush leaves every message that isn't one of its registration's
      requests, and takes every one that is. */
  lemma {:induction false} KeepQpIn(s: seq<Queued>, mesh: nat, m: Queued)
    ensures m in KeepQp(s, mesh) <==> m in s && !OfQp(m, mesh)
  {
    if s != [] {
      KeepQpIn(s[..|s| - 1], mesh, m);
      assert s == s[..|s| - 1] + [s[|s| - 1]];
    }
  }

  lemma {:induction false} KeepRequestIn(s: seq<Queued>, mesh: nat, req: nat, m: Queued)
    ensures m in KeepRequest(s, mesh, req) <==> m in s && !OfRequest(m, mesh, req)
  {
    if s != [] {
      KeepRequestIn(s[..|s| - 1], mesh, req, m);
      assert s == s[..|s| - 1] + [s[|s| - 1]];
    }
  }

  lemma {:induction false} KeepRequestCnt(s: seq<Queued>, mesh: nat, req: nat, r: nat)
    ensures Cnt(KeepRequest(s, mesh, req), r) <= Cnt(s, r)
    ensures HasRequest(s, mesh, req) && r == req ==> Cnt(KeepRequest(s, mesh, req), r) < Cnt(s, r)
  {
    if s != [] {
      var a := s[..|s| - 1];
      var m := s[|s| - 1];
      KeepRequestCnt(a, mesh, req, r);
      assert s == a + [m];
      if OfRequest(m, mesh, req) {
        assert KeepRequest(a, mesh, req) + [] == KeepRequest(a, mesh, req);
      } else {
        CntOne(KeepRequest(a, mesh, req), m, r);
        if HasRequest(s, mesh, req) {
          var x :| x in s && OfRequest(x, mesh, req);
          assert x in a;
        }
      }
    }
  }

  lemma {:induction false} CntIn(s: seq<Queued>, m: Queued)
    requires m in s && !m.reply
    ensures Cnt(s, m.req) >= 1
  {
    var a := s[..|s| - 1];
    assert s == a + [s[|s| - 1]];
    if s[|s| - 1] != m {
      CntIn(a, m);
    }
  }

  // ---------------------------------------------------------------------
  // The relation
  // ---------------------------------------------------------------------

  /** Whether the journal has the request handed to the mesh as it is. */
  predicate SentAs(log: Log, dst: nat, msg: Msg) {
    exists i :: 0 <= i < |log| && log[i].Sent? && log[i].msg == msg && log[i].req == msg.reqId && log[i].dst == dst
  }

  /** And under the registration it is queued with. */
  predicate SentUnder(log: Log, m: Queued) {
    exists i :: 0 <= i < |log| && log[i].Sent? && log[i].mesh == m.mesh && log[i].req == m.req
                && log[i].msg == m.msg && log[i].dst == m.dst
  }

  predicate TakesBack(e: Event, r: nat) {
    (e.TakenBack? && e.req == r) || (e.Flushed? && r in e.takenBack)
  }

  /** Whether request r was ever taken back from the mesh, as 0 or 1. */
  function Taken(log: Log, r: nat): (n: nat)
    ensures n <= 1
  {
    if exists i :: 0 <= i < |log| && TakesBack(log[i], r) then 1 else 0
  }

  /** A request's whereabouts never grow: what is queued or has been taken back
      grew out of what was sent. */
  ghost predicate Tokens(q: seq<Queued>, l: Log, q': seq<Queued>, l': Log) {
    forall r: nat :: Cnt(q', r) + Taken(l', r) + Tally(l, KSent(r)) <= Cnt(q, r) + Taken(l, r) + Tally(l', KSent(r))
  }

  predicate QueuedOk(l: Log, m: Queued) {
    if m.reply then IsResponse(m.msg.op)
    else IsRequest(m.msg.op) && m.msg.reqId == m.req && SentUnder(l, m)
  }

  /** No request but ans has been completed with success in between. */
  ghost predicate NoOk(l: Log, l': Log, ans: Option<nat>) {
    forall r: nat :: Some(r) != ans ==> Tally(l', KOk(r)) == Tally(l, KOk(r))
  }

  /** And no receive has been taken for a peer. */
  ghost predicate NoPeers(l: Log, l': Log) {
    forall o: nat, r: nat :: Tally(l', KTook(ForPeer(o, r))) == Tally(l, KTook(ForPeer(o, r)))
  }

  /** How the queue and the journal go from one state to a later one. */
  ghost predicate Ev(a: Dp, b: Dp, ans: Option<nat>) {
    && a.log <= b.log
    && Tokens(a.outq, a.log, b.outq, b.log)
    && (forall m :: m in b.outq ==> m in a.outq || (!m.reply && QueuedOk(b.log, m)))
    && NoOk(a.log, b.log, ans)
    && NoPeers(a.log, b.log)
  }

  lemma {:induction false} EvTrans(a: Dp, b: Dp, c: Dp, ans: Option<nat>)
    requires Ev(a, b, ans) && Ev(b, c, ans)
    ensures Ev(a, c, ans)
  {
  }

  /** An event that says nothing about the mesh's queue. */
  predicate Calm(e: Event, ans: Option<nat>) {
    && !e.Sent? && !e.TakenBack? && !e.Flushed? && !(e.Received? && e.taker.ForPeer?)
    && (e.Cqe? && e.cause.ByReq? && e.status == Ok ==> ans == Some(e.cause.req))
  }

  lemma {:induction false} TakenOne(l: Log, e: Event, r: nat)
    ensures Taken(l + [e], r) == if TakesBack(e, r) then 1 else Taken(l, r)
  {
    var l' := l + [e];
    if Taken(l, r) == 1 {
      var i :| 0 <= i < |l| && TakesBack(l[i], r);
      assert TakesBack(l'[i], r);
    }
    if TakesBack(e, r) {
      assert TakesBack(l'[|l|], r);
    }
    if Taken(l', r) == 1 && !TakesBack(e, r) {
      var i :| 0 <= i < |l'| && TakesBack(l'[i], r);
      assert TakesBack(l[i], r);
    }
  }

  /** States that agree on what the relation speaks of. */
  lemma {:induction false} SameEv(a: Dp, b: Dp, ans: Option<nat>)
    requires a.log == b.log && a.outq == b.outq
    ensures Ev(a, b, ans)
  {
  }

  /** One more event, of which the relation doesn't speak. */
  lemma {:induction false} CalmEv(a: Dp, b: Dp, e: Event, ans: Option<nat>)
    requires Calm(e, ans) && b.log == a.log + [e] && b.outq == a.outq
    ensures Ev(a, b, ans)
  {
    TallyAfter(a.log, e);
    forall r: nat ensures Taken(b.log, r) == Taken(a.log, r) {
      TakenOne(a.log, e, r);
    }
  }

  /** The request that is sent is queued, parked and journalled. */
  lemma {:induction false} SentTokens(q: seq<Queued>, l: Log, m: Queued, e: Event)
    requires !m.reply && e.Sent? && e.req == m.req
    ensures Tokens(q, l, q + [m], l + [e])
  {
  }

  lemma {:induction false} FlushTokens(q: seq<Queued>, l: Log, i: nat, mesh: nat, recvToo: bool)
    ensures Tokens(q, l, KeepQp(q, mesh), l + [Flushed(i, mesh, recvToo, TakeQp(q, mesh))])
  {
    var e := Flushed(i, mesh, recvToo, TakeQp(q, mesh));
    TallyAfter(l, e);
    forall r: nat ensures Cnt(KeepQp(q, mesh), r) + Taken(l + [e], r) <= Cnt(q, r) + Taken(l, r) {
      TakenOne(l, e, r);
      KeepTake(q, mesh, r);
      OccursIn(TakeQp(q, mesh), r);
    }
  }

  lemma {:induction false} FlushEv(a: Dp, i: nat, mesh: nat, recvToo: bool, ans: Option<nat>)
    ensures var e := Flushed(i, mesh, recvToo, TakeQp(a.outq, mesh));
      Ev(a, a.(outq := KeepQp(a.outq, mesh), log := a.log + [e]), ans)
  {
    FlushTokens(a.outq, a.log, i, mesh, recvToo);
    TallyAfter(a.log, Flushed(i, mesh, recvToo, TakeQp(a.outq, mesh)));
    forall m | m in KeepQp(a.outq, mesh) ensures m in a.outq {
      KeepQpIn(a.outq, mesh, m);
    }
  }

  lemma {:induction false} TakeBackTokens(q: seq<Queued>, l: Log, mesh: nat, req: nat)
    requires HasRequest(q, mesh, req)
    ensures Tokens(q, l, KeepRequest(q, mesh, req), l + [Journal.TakenBack(req)])
  {
    var e := Journal.TakenBack(req);
    TallyAfter(l, e);
    forall r: nat ensures Cnt(KeepRequest(q, mesh, req), r) + Taken(l + [e], r) <= Cnt(q, r) + Taken(l, r) {
      TakenOne(l, e, r);
      KeepRequestCnt(q, mesh, req, r);
    }
  }

  lemma {:induction false} TakeBackEv(a: Dp, p: Pending, ans: Option<nat>)
    ensures Ev(a, TakeBack(a, p), ans)
  {
    if HasRequest(a.outq, p.mesh, p.req) {
      TakeBackTokens(a.outq, a.log, p.mesh, p.req);
      TallyAfter(a.log, Journal.TakenBack(p.req));
      forall m | m in KeepRequest(a.outq, p.mesh, p.req) ensures m in a.outq {
        KeepRequestIn(a.outq, p.mesh, p.req, m);
      }
    } else {
      SameEv(a, a, ans);
    }
  }

  // ---------------------------------------------------------------------
  // Every operation
  // ---------------------------------------------------------------------

  lemma {:induction false} DropsEv(a: Dp, t: Table, n: nat, qp: nat, ans: Option<nat>)
    requires n <= |t|
    ensures Ev(a, a.(log := a.log + Dropped(t, n, qp)), ans)
  {
    if n == 0 {
      assert a.log + [] == a.log;
      SameEv(a, a.(log := a.log + []), ans);
    } else {
      DropsEv(a, t, n - 1, qp, ans);
      var b := a.(log := a.log + Dropped(t, n - 1, qp));
      if Owned(t[n - 1], qp) {
        var e := Retired(t[n - 1].value.req, Cancelled, false);
        CalmEv(b, b.(log := b.log + [e]), e, ans);
        EvTrans(a, b, b.(log := b.log + [e]), ans);
        assert a.log + Dropped(t, n, qp) == b.log + [e];
      } else {
        assert a.log + Dropped(t, n, qp) == b.log;
      }
    }
  }

  lemma {:induction false} CancelEv(a: Dp, i: nat, ans: Option<nat>)
    ensures Ev(a, CancelQp(a, i), ans)
  {
    DropsEv(a, a.pend, |a.pend|, i, ans);
    var b := a.(log := a.log + Dropped(a.pend, |a.pend|, i));
    SameEv(b, CancelQp(a, i), ans);
    EvTrans(a, b, CancelQp(a, i), ans);
  }

  lemma {:induction false} FlushQpEv(a: Dp, i: nat, ans: Option<nat>)
    requires i < |a.qps|
    ensures Ev(a, Flush(a, i), ans)
  {
    if a.qps[i].valid {
      var b := CancelQp(a, i);
      CancelEv(a, i, ans);
      var mesh := a.qps[i].mesh;
      FlushEv(b, i, mesh, !a.qps[i].hasSrq, ans);
      var e := Flushed(i, mesh, !a.qps[i].hasSrq, TakeQp(b.outq, mesh));
      var c := b.(outq := KeepQp(b.outq, mesh), log := b.log + [e]);
      EvTrans(a, b, c, ans);
      SameEv(c, Flush(a, i), ans);
      EvTrans(a, c, Flush(a, i), ans);
    } else {
      SameEv(a, a, ans);
    }
  }

  lemma {:induction false} FaultFinishEv(a: Dp, i: nat, ans: Option<nat>)
    requires i < |a.qps|
    ensures Ev(a, FaultFinish(a, i), ans)
  {
    if a.qps[i].fault && !Awaits(a.pend, i) {
      var e := Cqe(i, ByFault(a.qps[i].mesh), None, LocalQpOperErr);
      var b := a.(log := a.log + [e]);
      CalmEv(a, b, e, ans);
      FlushQpEv(b, i, ans);
      EvTrans(a, b, Flush(b, i), ans);
    } else {
      SameEv(a, a, ans);
    }
  }

  lemma {:induction false} RetireEv(a: Dp, s: nat, status: Status, how: How, ans: Option<nat>)
    requires s < |a.pend| && a.pend[s].Some? && (status == Ok ==> ans == Some(a.pend[s].value.req))
    ensures Ev(a, Retire(a, s, status, how), ans)
  {
    var p := a.pend[s].value;
    var posts := p.qp < |a.qps| && a.qps[p.qp].valid && Completes(p);
    var done := Retired(p.req, how, posts);
    var c := Retire(a, s, status, how);
    if posts {
      var cqe := Cqe(p.qp, ByReq(p.req), if p.useMsn then Some(p.msn) else None, status);
      var b := a.(log := a.log + [cqe]);
      CalmEv(a, b, cqe, ans);
      CalmEv(b, c, done, ans);
      EvTrans(a, b, c, ans);
    } else {
      assert a.log + [] + [done] == a.log + [done];
      CalmEv(a, c, done, ans);
    }
  }

  lemma {:induction false} CompleteEv(a: Dp, s: nat, status: Status, how: How, ans: Option<nat>)
    requires s < |a.pend| && a.pend[s].Some? && (status == Ok ==> ans == Some(a.pend[s].value.req))
    ensures Ev(a, Complete(a, s, status, how), ans)
  {
    RetireEv(a, s, status, how, ans);
    var b := Retire(a, s, status, how);
    var qp := a.pend[s].value.qp;
    if qp < |a.qps| && a.qps[qp].valid {
      FaultFinishEv(b, qp, ans);
      EvTrans(a, b, FaultFinish(b, qp), ans);
    }
  }

  lemma {:induction false} ResponseEv(a: Dp, msg: Msg, reach: Reach, fault: Status)
    ensures Ev(a, Response(a, msg, reach, fault), Some(msg.reqId))
  {
    var ans := Some(msg.reqId);
    var s := Find(a.pend, 0, msg.reqId);
    if s == |a.pend| {
      SameEv(a, a, ans);
    } else if msg.status == Ok && msg.op != Ack {
      var p := a.pend[s].value;
      var b := Scattered(a, p, msg, reach);
      CalmEv(a, b, b.log[|a.log|], ans);
      CompleteEv(b, s, ScatterStatus(a, p, msg, reach, fault), Answered, ans);
      EvTrans(a, b, Response(a, msg, reach, fault), ans);
    } else {
      CompleteEv(a, s, msg.status, Answered, ans);
    }
  }

  lemma {:induction false} ExpireOneEv(a: Dp, n: nat, c: Dp)
    requires n < |a.pend| && a.pend[n].Some?
    requires c == Complete(TakeBack(a, a.pend[n].value), n, RetryExceeded, TimedOut)
    ensures Ev(a, c, None)
  {
    var b := TakeBack(a, a.pend[n].value);
    TakeBackEv(a, a.pend[n].value, None);
    CompleteEv(b, n, RetryExceeded, TimedOut, None);
    EvTrans(a, b, c, None);
  }

  lemma {:induction false} ExpireEv(a: Dp, now: nat, n: nat)
    requires n <= |a.pend|
    ensures Ev(a, Expire(a, now, n), None)
    decreases |a.pend| - n
  {
    if n == |a.pend| {
      SameEv(a, a, None);
    } else if a.pend[n].Some? && now > a.pend[n].value.deadline {
      var c := Complete(TakeBack(a, a.pend[n].value), n, RetryExceeded, TimedOut);
      ExpireOneEv(a, n, c);
      ExpireEv(c, now, n + 1);
      EvTrans(a, c, Expire(c, now, n + 1), None);
    } else {
      ExpireEv(a, now, n + 1);
    }
  }

  lemma {:induction false} RegisterEv(a: Dp, i: nat, kind: QpKind, depth: nat, rqDepth: nat)
    requires i < |a.qps|
    ensures Ev(a, Register(a, i, kind, depth, rqDepth), None)
  {
    var r := Register(a, i, kind, depth, rqDepth);
    var b := CancelQp(a, i);
    CancelEv(a, i, None);
    var e := Opened(i, a.nextMesh + 1, !IsDatagram(kind));
    var c := b.(log := b.log + [e]);
    CalmEv(b, c, e, None);
    EvTrans(a, b, c, None);
    CalmEv(c, r, RingReset(Own(i)), None);
    EvTrans(a, c, r, None);
  }

  lemma {:induction false} UnregisterEv(a: Dp, i: nat)
    requires i < |a.qps|
    ensures Ev(a, Unregister(a, i), None)
  {
    var b := CancelQp(a, i);
    CancelEv(a, i, None);
    SameEv(b, Unregister(a, i), None);
    EvTrans(a, b, Unregister(a, i), None);
  }

  // ---------------------------------------------------------------------
  // Running a send queue
  // ---------------------------------------------------------------------

  lemma {:induction false} SentEv(a: Dp, b: Dp, m: Queued, e: Event)
    requires !m.reply && e.Sent? && e.req == m.req == m.msg.reqId && e.msg == m.msg && e.dst == m.dst
    requires e.mesh == m.mesh
    requires IsRequest(m.msg.op) && b.log == a.log + [e] && b.outq == a.outq + [m]
    ensures Ev(a, b, None)
  {
    SentTokens(a.outq, a.log, m, e);
    TallyAfter(a.log, e);
    assert b.log[|a.log|] == e;
    assert SentUnder(b.log, m);
  }

  lemma {:induction false} RemotePostEv(a: Dp, i: nat, now: nat, p: Post, env: MeshEnv)
    requires i < |a.qps|
    ensures Ev(a, RemotePost(a, i, now, p, env), None)
  {
    var b := RemotePost(a, i, now, p, env);
    if PostResult(a, p, env).PostSent? {
      var e := SentEvent(a, i, now, p);
      SentEv(a, b, Queued(e.dst, false, e.mesh, e.req, e.msg), e);
    } else {
      SameEv(a, b, None);
    }
  }

  lemma {:induction false} PostNpgEv(a: Dp, i: nat, status: Status)
    requires i < |a.qps|
    ensures Ev(a, PostNpg(a, i, status), None)
  {
    CalmEv(a, PostNpg(a, i, status), Cqe(i, ByWqe(a.qps[i].mesh, a.qps[i].ran), None, status), None);
  }

  lemma {:induction false} PostMsnEv(a: Dp, i: nat, status: Status)
    requires i < |a.qps|
    ensures Ev(a, PostMsn(a, i, status), None)
  {
    var q := a.qps[i];
    CalmEv(a, PostMsn(a, i, status), Cqe(i, ByWqe(q.mesh, q.ran), Some(NextMsn(q)), status), None);
  }

  lemma {:induction false} CompleteSendEv(a: Dp, i: nat, status: Status)
    requires i < |a.qps|
    ensures Ev(a, CompleteSend(a, i, status), None)
  {
    if IsDatagram(a.qps[i].kind) {
      PostNpgEv(a, i, status);
    } else {
      PostMsnEv(a, i, status);
    }
  }

  /** What follows the attempt to send: a flag, a completion, or nothing. */
  lemma {:induction false} AfterPostEv(b: Dp, c: Dp, i: nat, status: Status)
    requires i < |b.qps|
    requires c == b || c == SetBusy(b, i) || c == PostMsn(b, i, status) || c == PostNpg(b, i, status)
    ensures Ev(b, c, None)
  {
    if c == PostMsn(b, i, status) {
      PostMsnEv(b, i, status);
    } else if c == PostNpg(b, i, status) {
      PostNpgEv(b, i, status);
    } else {
      SameEv(b, c, None);
    }
  }

  lemma {:induction false} RunRemoteEv(a: Dp, i: nat, now: nat, w: Wqe)
    requires i < |a.qps| && w.Wqe?
    ensures Ev(a, RunRemote(a, i, now, w).dp, None)
  {
    var q := a.qps[i];
    var p := PostOf(w, !IsDatagram(q.kind), q.destQp, q.destNode);
    var b := RemotePost(a, i, now, p, w.mesh);
    var c := RunRemote(a, i, now, w).dp;
    RemotePostEv(a, i, now, p, w.mesh);
    AfterPostEv(b, c, i, if PostResult(a, p, w.mesh).PostSendFailed? then RetryExceeded else RemoteAccErr);
    EvTrans(a, b, c, None);
  }

  lemma {:induction false} ToNodeEv(a: Dp, i: nat, now: nat, w: Wqe)
    requires i < |a.qps| && w.Wqe? && now < U64 && a.qps[i].rnrSince < U64
    requires w.send.ToNode? && IsDatagram(a.qps[i].kind) && CanGram(a.host, w)
    ensures Ev(a, RunSend(a, i, now, w).dp, None)
  {
    var c := RunSend(a, i, now, w).dp;
    var p := Datagram(a.host, w);
    var b := RemotePost(a, i, now, p, w.mesh);
    RemotePostEv(a, i, now, p, w.mesh);
    AfterPostEv(b, c, i, Ok);
    EvTrans(a, b, c, None);
  }

  lemma {:induction false} RunRnrEv(a: Dp, i: nat, now: nat)
    requires i < |a.qps| && now < U64 && a.qps[i].rnrSince < U64
    ensures Ev(a, RunRnr(a, i, now).dp, None)
  {
    var b := SetRnr(a, i, now);
    var c := RunRnr(a, i, now).dp;
    CalmEv(a, b, Waited(a.qps[i].mesh, now), None);
    SameEv(b, b, None);
    CompleteSendEv(b, i, RnrRetryExceeded);
    EvTrans(a, b, c, None);
  }

  /** A receive taken for this device's own WQE, or none. */
  lemma {:induction false} HandedEv(a: Dp, j: nat, taker: Taker, load: Load, d: Delivery)
    requires j < |a.qps| && taker.ForWqe?
    ensures Ev(a, Handed(a, j, taker, load, d), None)
  {
    var b := Handed(a, j, taker, load, d);
    if d.taken {
      CalmEv(a, b, b.log[|a.log|], None);
    } else {
      SameEv(a, b, None);
    }
  }

  lemma {:induction false} RunToQpEv(a: Dp, i: nat, now: nat, w: Wqe)
    requires i < |a.qps| && w.Wqe? && w.send.ToQp? && now < U64 && a.qps[i].rnrSince < U64
    ensures Ev(a, RunToQp(a, i, now, w).dp, None)
  {
    var q := a.qps[i];
    var j := SendTarget(q, i, w.send.dst);
    if !Delivers(a, q, j, w) {
      CompleteSendEv(a, i, Ok);
    } else {
      var load := SendLoad(a, j, w);
      var d := DeliveryTo(a, j, w, load);
      var b := Handed(a, j, ForWqe(q.mesh, q.ran), load, d);
      HandedEv(a, j, ForWqe(q.mesh, q.ran), load, d);
      CompleteSendEv(b, i, Ok);
      RunRnrEv(b, i, now);
      EvTrans(a, b, RunToQp(a, i, now, w).dp, None);
    }
  }

  lemma {:induction false} RunSendEv(a: Dp, i: nat, now: nat, w: Wqe)
    requires i < |a.qps| && w.Wqe? && now < U64 && a.qps[i].rnrSince < U64
    ensures Ev(a, RunSend(a, i, now, w).dp, None)
  {
    if w.send.ToNode? && IsDatagram(a.qps[i].kind) && CanGram(a.host, w) {
      ToNodeEv(a, i, now, w);
    } else if w.send.ToQp? {
      RunToQpEv(a, i, now, w);
    } else {
      CompleteSendEv(a, i, Ok);
    }
  }

  lemma {:induction false} UnfetchedEv(a: Dp, i: nat)
    requires i < |a.qps|
    ensures Ev(a, Unfetched(a, i), None)
  {
    var dp1 := Clear(a, i);
    var b := dp1.(qps := dp1.qps[i := dp1.qps[i].(fault := true)]);
    SameEv(a, b, None);
    FaultFinishEv(b, i, None);
    EvTrans(a, b, FaultFinish(b, i), None);
  }

  /** A WQE that is neither carried to another node nor delivered here: what it
      does to memory and the regions, and its completion. */
  lemma {:induction false} RunPlainEv(a: Dp, b: Dp, i: nat, c: Dp, status: Status)
    requires i < |b.qps| && b == a.(host := b.host) && (c == CompleteSend(b, i, status) || c == PostNpg(b, i, status))
    ensures Ev(a, c, None)
  {
    SameEv(a, b, None);
    if c == PostNpg(b, i, status) {
      PostNpgEv(b, i, status);
    } else {
      CompleteSendEv(b, i, status);
    }
    EvTrans(a, b, c, None);
  }

  lemma {:induction false} RunImmediateEv(a: Dp, i: nat, w: Wqe)
    requires i < |a.qps| && w.Wqe?
    ensures Ev(a, RunImmediate(a, i, w), None)
  {
    var q := a.qps[i];
    var j := if q.destValid then q.destQp else i;
    if j < |a.qps| && a.qps[j].valid {
      HandedEv(a, j, ForWqe(q.mesh, q.ran), Immediate(w.length), DeliveryTo(a, j, w, Immediate(w.length)));
    } else {
      SameEv(a, a, None);
    }
  }

  lemma {:induction false} RunLocalEv(a: Dp, i: nat, w: Wqe, c: Dp)
    requires i < |a.qps| && w.Wqe? && c == RunLocal(a, i, w)
    ensures Ev(a, c, None)
  {
    var m := LocalOp(a.host, w);
    var b := a.(host := m.host);
    if w.op.OpWriteImm? && m.status == Ok {
      SameEv(a, b, None);
      var b1 := RunImmediate(b, i, w);
      RunImmediateEv(b, i, w);
      EvTrans(a, b, b1, None);
      CompleteSendEv(b1, i, m.status);
      EvTrans(a, b1, c, None);
    } else {
      RunPlainEv(a, b, i, c, m.status);
    }
  }

  lemma {:induction false} RunEv(a: Dp, i: nat, now: nat, w: Wqe, r: Ran)
    requires i < |a.qps| && now < U64 && a.qps[i].rnrSince < U64 && r == Run(a, i, now, w)
    ensures Ev(a, r.dp, None)
  {
    if w.Unreadable? {
      UnfetchedEv(a, i);
    } else if w.op.OpRegMr? || w.op.OpLocalInv? {
      RunPlainEv(a, RunReg(a, w), i, r.dp, RegStatus(w));
    } else if w.early.Some? {
      RunPlainEv(a, a, i, r.dp, MalformedStatus(w.early.value));
    } else if !SgesOk(a.host.mrs, w.local) {
      RunPlainEv(a, a, i, r.dp, LocalProtErr);
    } else if IsRemote(a, a.qps[i]) {
      RunRemoteEv(a, i, now, w);
    } else if IsSendOp(w.op) {
      RunSendEv(a, i, now, w);
    } else if w.op.OpOther? {
      RunPlainEv(a, a, i, r.dp, LocalQpOperErr);
    } else {
      RunLocalEv(a, i, w, r.dp);
    }
  }

  lemma {:induction false} AdvanceEv(a: Dp, i: nat)
    requires InTable(a, i)
    ensures Ev(a, Advance(a, i), None)
  {
    CalmEv(a, Advance(a, i), Moved(a.qps[i].mesh, Rem(a.qps[i].cons, a.qps[i].depth)), None);
  }

  ghost predicate Since0(a: Dp, d: Dp, i: nat) { Runnable(d, i) && Ev(a, d, None) }

  lemma {:induction false} TurnEv(a: Dp, d: Dp, i: nat, now: nat, w: Wqe, r: Ran)
    requires Since0(a, d, i) && now < U64 && r == Run(d, i, now, w)
    ensures Ev(a, r.dp, None)
    ensures r.past ==> InTable(r.dp, i)
    ensures r.past ==> Since0(a, Advance(r.dp, i), i)
  {
    RunEv(d, i, now, w, r);
    EvTrans(a, d, r.dp, None);
    assert Kept(d.qps[i], r.dp.qps[i]);
    if r.past {
      AdvanceEv(r.dp, i);
      EvTrans(a, r.dp, Advance(r.dp, i), None);
    }
  }

  lemma {:induction false} ServiceEv(a: Dp, i: nat, now: nat, at: nat -> Wqe)
    requires InTable(a, i) && now < U64 && a.qps[i].rnrSince < U64
    ensures Ev(a, Service(a, i, now, at), None)
  {
    SameEv(a, a, None);
    if !a.qps[i].fault {
      var P := (d: Dp) => Since0(a, d, i);
      var Q := (d: Dp) => Ev(a, d, None);
      forall d, w | P(d) && AtWork(d, i) ensures TurnKeeps(P, Q, d, i, now, w) {
        TurnEv(a, d, i, now, w, Run(d, i, now, w));
      }
      ServiceKeeps(P, Q, a, i, now, at, 0, Service(a, i, now, at), a.qps[i].depth);
    }
  }

  lemma {:induction false} DoorbellEv(a: Dp, i: nat, pIndex: nat, now: nat, at: nat -> Wqe)
    requires InTable(a, i) && now < U64 && a.qps[i].rnrSince < U64
    ensures Ev(a, Doorbell(a, i, pIndex, now, at), None)
  {
    SameEv(a, a, None);
    var q := a.qps[i];
    if q.valid {
      var b := a.(qps := a.qps[i := q.(prod := Rem(pIndex, q.depth))], log := a.log + [SqRung(q.mesh)]);
      CalmEv(a, b, SqRung(q.mesh), None);
      ServiceEv(b, i, now, at);
      EvTrans(a, b, Service(b, i, now, at), None);
    }
  }

  lemma {:induction false} RetryEv(a: Dp, n: nat, now: nat, at: nat -> nat -> Wqe)
    requires Shaped(a) && n <= |a.qps| && now < U64
    ensures Ev(a, RetryFrom(a, n, now, at), None)
    decreases |a.qps| - n
  {
    SameEv(a, a, None);
    if a.stalled != 0 && n < |a.qps| {
      var b := RetryOne(a, n, now, at(n));
      if a.qps[n].valid && IsStalled(a.qps[n]) {
        ServiceEv(a, n, now, at(n));
      }
      RetryEv(b, n + 1, now, at);
      EvTrans(a, b, RetryFrom(b, n + 1, now, at), None);
    }
  }

  /** The request a command may complete with success. */
  function MayAnswer(c: Cmd): (r: Option<nat>) {
    if c.Answer? then Some(c.msg.reqId) else None
  }

  lemma {:induction false} DoRegisterEv(a: Dp, i: nat, kind: QpKind, rings: Rings)
    requires i < |a.qps|
    ensures Ev(a, RegisterQp(a, i, kind, rings), None)
  {
    if !GeometryOk(rings.sq, RING_MAX_LOG2) || !GeometryOk(rings.rq, RING_MAX_LOG2) {
      SameEv(a, a, None);
    } else if !rings.sq.readable || !rings.rq.readable {
      UnregisterEv(a, i);
    } else {
      RegisterEv(a, i, kind, Pow2(rings.sq.depthLog2), Pow2(rings.rq.depthLog2));
    }
  }

  lemma {:induction false} AdministeredEv(a: Dp, i: nat, op: QpOp)
    requires i < |a.qps|
    ensures Ev(a, Administered(a, i, op), None)
  {
    match op
    case Flushes => FlushQpEv(a, i, None);
    case Registers(kind, rings) => DoRegisterEv(a, i, kind, rings);
    case Unregisters => UnregisterEv(a, i);
    case SetsDest(_, _) => SameEv(a, Administered(a, i, op), None);
    case BindsSrq(_) => SameEv(a, Administered(a, i, op), None);
  }

  lemma {:induction false} GivenEv(a: Dp, g: Gift)
    ensures Ev(a, Given(a, g), None)
  {
    var b := Given(a, g);
    if b.log == a.log {
      SameEv(a, b, None);
    } else {
      CalmEv(a, b, b.log[|a.log|], None);
    }
  }

  /** Every operation of the send side, on any state. */
  lemma {:induction false} DoEv(a: Dp, c: Cmd)
    requires Shaped(a) && (IsOwn(c) || c.Answer?)
    ensures Ev(a, Do(a, c), MayAnswer(c))
  {
    match c
    case Ring(i, pIndex, now, at) =>
      if i < |a.qps| && now < U64 { DoorbellEv(a, i, pIndex, now, at); } else { SameEv(a, a, None); }
    case Retry(now, all) =>
      if now < U64 { RetryEv(a, 0, now, all); } else { SameEv(a, a, None); }
    case Tick(now) => ExpireEv(a, now, 0);
    case Answer(msg, reach, fault) => ResponseEv(a, msg, reach, fault);
    case Admin(i, op) =>
      if i < |a.qps| { AdministeredEv(a, i, op); } else { SameEv(a, a, None); }
    case Gives(g) => GivenEv(a, g);
  }

  // ---------------------------------------------------------------------
  // What a flush takes back
  // ---------------------------------------------------------------------

  /** dp_mesh_tag(): what names a queued request to the mesh, which ignores a
      reply's; here it is 0. */
  function Tag(m: Queued): (t: nat) { if m.reply then 0 else m.mesh * U32 + m.req }

  /** The two masks ernic_mesh_cancel() is called with tell exactly a
      registration's requests, and exactly one request, from the rest. */
  lemma {:induction false} TagSelects(m: Queued, mesh: nat, req: nat)
    requires 0 < mesh < U32 && req < U32 && (!m.reply ==> m.req < U32)
    ensures Tag(m) / U32 == (mesh * U32 + req) / U32 <==> OfQp(m, mesh)
    ensures Tag(m) == mesh * U32 + req <==> OfRequest(m, mesh, req)
  {
  }

  /** A flush takes back the queued requests that carry the QP's present number,
      and no other message; a QP that is unregistered leaves its own queued. */
  lemma {:induction false} FlushTakes(dp: Dp, i: nat, m: Queued)
    requires i < |dp.qps| && dp.qps[i].valid
    ensures m in Flush(dp, i).outq <==> m in dp.outq && !OfQp(m, dp.qps[i].mesh)
    ensures m in dp.outq && OfQp(m, dp.qps[i].mesh) ==> Taken(Flush(dp, i).log, m.req) == 1
    ensures Unregister(dp, i).outq == dp.outq
  {
    var mesh := dp.qps[i].mesh;
    KeepQpIn(dp.outq, mesh, m);
    var log := Flush(dp, i).log;
    if m in dp.outq && OfQp(m, mesh) {
      TakeQpIn(dp.outq, mesh, m);
      assert TakesBack(log[|log| - 1], m.req);
    }
  }

  lemma {:induction false} TakeQpIn(s: seq<Queued>, mesh: nat, m: Queued)
    requires m in s && OfQp(m, mesh)
    ensures m.req in TakeQp(s, mesh)
  {
    var a := s[..|s| - 1];
    assert s == a + [s[|s| - 1]];
    if m in a {
      TakeQpIn(a, mesh, m);
    }
  }
}
