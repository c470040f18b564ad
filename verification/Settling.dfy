/** How a parked request ends: with its answer, or because it is too late. */
module Settling {
  import opened Wire
  import opened Journal
  import opened Copying
  import opened Host
  import opened SendQueue
  import opened SendQueueInv
  import opened Evolve

  /** The completion of a parked request. */
  function Ending(p: Pending, status: Status): (e: Event) {
    Cqe(p.qp, ByReq(p.req), if p.useMsn then Some(p.msn) else None, status)
  }

  /** Whether the guest is told: the QP still exists, and is connected or was to say
      so. */
  predicate Tells(dp: Dp, p: Pending) {
    p.qp < |dp.qps| && dp.qps[p.qp].valid && (p.useMsn || p.signalled)
  }

  /** What the journal gains when a request ends. */
  function Ended(dp: Dp, p: Pending, status: Status, how: How): (l: Log) {
    (if Tells(dp, p) then [Ending(p, status)] else []) + [Retired(p.req, how, Tells(dp, p))]
  }

  /** A request that ends is gone, and the others are as they were but for those of a
      QP that only waited for it to be flushed. */
  lemma {:induction false} CompleteSpares(dp: Dp, s: nat, status: Status, how: How, x: nat)
    requires s < |dp.pend| && dp.pend[s].Some? && x < |dp.pend| && x != s && dp.pend[x].Some?
    requires var j := dp.pend[x].value.qp; j < |dp.qps| && !dp.qps[j].fault
    ensures var r := Complete(dp, s, status, how);
      r.pend[x] == dp.pend[x] && !r.qps[dp.pend[x].value.qp].fault
  {
  }

  lemma {:induction false} CompleteEnds(dp: Dp, s: nat, status: Status, how: How)
    requires s < |dp.pend| && dp.pend[s].Some?
    ensures var r, p := Complete(dp, s, status, how), dp.pend[s].value;
      r.pend[s].None? && dp.log + Ended(dp, p, status, how) <= r.log
  {
    CompleteTable(dp, s, status, how);
    var r, p := Retire(dp, s, status, how), dp.pend[s].value;
    assert r.log == dp.log + Ended(dp, p, status, how);
    if p.qp < |dp.qps| {
      assert Steady(r, FaultFinish(r, p.qp));
    }
  }

  // ---------------------------------------------------------------------
  // Answers
  // ---------------------------------------------------------------------

  /** How much of an answer's data is wanted, and where it goes. */
  function Wants(p: Pending, msg: Msg): (n: nat) {
    if |msg.payload| < p.length then |msg.payload| else p.length
  }

  /** Whether all of that can be put where it goes. */
  predicate Lands(dp: Dp, p: Pending, msg: Msg, reach: Reach) {
    var s, n := Flat(dp.host.mrs, p.local), Wants(p, msg);
    n <= |s| && Reachable(dp.host.mem, s[..n]) && Lets(reach, n)
  }

  /** What an answered request completes with: what its peer said, unless that was
      success and the data that came with it couldn't be put where it goes. */
  function AnswerStatus(dp: Dp, p: Pending, msg: Msg, reach: Reach, fault: Status): (s: Status) {
    if msg.status != Ok || msg.op.Ack? || Lands(dp, p, msg, reach) then msg.status
    else if fault != Ok then fault else LocalProtErr
  }

  /** An answer ends the request it names, if that is parked, and does nothing
      otherwise. */
  lemma {:induction false} AnswerVerdict(dp: Dp, msg: Msg, reach: Reach, fault: Status, s: nat)
    requires Inv(dp) && s < |dp.pend| && dp.pend[s].Some? && dp.pend[s].value.req == msg.reqId
    ensures var r, p := Response(dp, msg, reach, fault), dp.pend[s].value;
      && r.pend[s].None?
      && if msg.status == Ok && !msg.op.Ack?
         then exists n :: 0 <= n <= |msg.payload|
                && dp.log + [Landed(p.req, p.local, msg.payload[..n])]
                   + Ended(dp, p, AnswerStatus(dp, p, msg, reach, fault), Answered) <= r.log
                && (Lands(dp, p, msg, reach) ==> n == Wants(p, msg))
         else dp.log + Ended(dp, p, msg.status, Answered) <= r.log
  {
    var p := dp.pend[s].value;
    assert Find(dp.pend, 0, msg.reqId) == s;
    if msg.status == Ok && !msg.op.Ack? {
      var b := Scattered(dp, p, msg, reach);
      var f := Flat(dp.host.mrs, p.local);
      AllCounted(dp.host.mem, f, Wants(p, msg), reach);
      CompleteEnds(b, s, AnswerStatus(dp, p, msg, reach, fault), Answered);
      var n := Went(dp.host.mem, f, Wants(p, msg), reach);
      assert b.log == dp.log + [Landed(p.req, p.local, msg.payload[..n])];
    } else {
      CompleteEnds(dp, s, msg.status, Answered);
    }
  }

  lemma {:induction false} StrayAnswer(dp: Dp, msg: Msg, reach: Reach, fault: Status)
    requires forall s :: 0 <= s < |dp.pend| && dp.pend[s].Some? ==> dp.pend[s].value.req != msg.reqId
    ensures Response(dp, msg, reach, fault) == dp
  {
  }

  // ---------------------------------------------------------------------
  // Deadlines
  // ---------------------------------------------------------------------

  lemma {:induction false} TakenBackIn(dp: Dp, p: Pending, m: Queued)
    ensures m in TakeBack(dp, p).outq <==> m in dp.outq && !OfRequest(m, p.mesh, p.req)
  {
    KeepRequestIn(dp.outq, p.mesh, p.req, m);
  }

  lemma {:induction false} CompleteQueue(dp: Dp, s: nat, status: Status, how: How, m: Queued)
    requires s < |dp.pend| && dp.pend[s].Some? && m in Complete(dp, s, status, how).outq
    ensures m in dp.outq
  {
    var j := dp.pend[s].value.qp;
    if j < |dp.qps| {
      KeepQpIn(dp.outq, dp.qps[j].mesh, m);
    }
  }

  lemma {:induction false} ExpireQueue(dp: Dp, now: nat, n: nat, m: Queued)
    requires n <= |dp.pend| && m in Expire(dp, now, n).outq
    ensures m in dp.outq
    decreases |dp.pend| - n
  {
    if n < |dp.pend| {
      if dp.pend[n].Some? && now > dp.pend[n].value.deadline {
        var b := TakeBack(dp, dp.pend[n].value);
        var c := Complete(b, n, RetryExceeded, TimedOut);
        ExpireQueue(c, now, n + 1, m);
        CompleteQueue(b, n, RetryExceeded, TimedOut, m);
        TakenBackIn(dp, dp.pend[n].value, m);
      } else {
        ExpireQueue(dp, now, n + 1, m);
      }
    }
  }

  /** A request that is in time stays, unless its QP only waits to be flushed. */
  lemma {:induction false} InTimeStays(dp: Dp, now: nat, n: nat, x: nat)
    requires n <= |dp.pend| && x < |dp.pend| && dp.pend[x].Some? && now <= dp.pend[x].value.deadline
    requires var j := dp.pend[x].value.qp; j < |dp.qps| && !dp.qps[j].fault
    ensures Expire(dp, now, n).pend[x] == dp.pend[x]
    decreases |dp.pend| - n
  {
    if n < |dp.pend| {
      if dp.pend[n].Some? && now > dp.pend[n].value.deadline {
        var b := TakeBack(dp, dp.pend[n].value);
        CompleteSpares(b, n, RetryExceeded, TimedOut, x);
        InTimeStays(Complete(b, n, RetryExceeded, TimedOut), now, n + 1, x);
      } else {
        InTimeStays(dp, now, n + 1, x);
      }
    }
  }

  /** One that is too late is ended with an exhausted retry, once, in the state dp' the
      loop comes to it in, and what the mesh had not sent of it is gone from there. */
  lemma {:induction false} LateEnds(dp: Dp, now: nat, n: nat, x: nat) returns (dp': Dp)
    requires n <= x < |dp.pend| && dp.pend[x].Some? && now > dp.pend[x].value.deadline
    requires var j := dp.pend[x].value.qp; j < |dp.qps| && !dp.qps[j].fault
    ensures Expire(dp, now, n).pend[x].None? && dp.log <= dp'.log && |dp'.qps| == |dp.qps|
    ensures dp'.log + Ended(dp', dp.pend[x].value, RetryExceeded, TimedOut) <= Expire(dp, now, n).log
    ensures forall m :: m in Expire(dp, now, n).outq ==> !OfRequest(m, dp.pend[x].value.mesh, dp.pend[x].value.req)
    decreases |dp.pend| - n
  {
    var b := TakeBack(dp, if dp.pend[n].Some? then dp.pend[n].value else dp.pend[x].value);
    if n == x {
      dp' := b;
      var c := Complete(b, n, RetryExceeded, TimedOut);
      CompleteEnds(b, n, RetryExceeded, TimedOut);
      ExpireNone(c, now, n + 1, x);
      forall m | m in Expire(c, now, n + 1).outq ensures !OfRequest(m, dp.pend[x].value.mesh, dp.pend[x].value.req) {
        ExpireQueue(c, now, n + 1, m);
        CompleteQueue(b, n, RetryExceeded, TimedOut, m);
        TakenBackIn(dp, dp.pend[x].value, m);
      }
      assert Steady(c, Expire(c, now, n + 1));
    } else if dp.pend[n].Some? && now > dp.pend[n].value.deadline {
      CompleteSpares(b, n, RetryExceeded, TimedOut, x);
      dp' := LateEnds(Complete(b, n, RetryExceeded, TimedOut), now, n + 1, x);
    } else {
      dp' := LateEnds(dp, now, n + 1, x);
    }
  }

  lemma {:induction false} ExpireNone(dp: Dp, now: nat, n: nat, x: nat)
    requires n <= |dp.pend| && x < |dp.pend| && dp.pend[x].None?
    ensures Expire(dp, now, n).pend[x].None?
    decreases |dp.pend| - n
  {
    if n < |dp.pend| {
      if dp.pend[n].Some? && now > dp.pend[n].value.deadline {
        var b := TakeBack(dp, dp.pend[n].value);
        CompleteTable(b, n, RetryExceeded, TimedOut);
        ExpireNone(Complete(b, n, RetryExceeded, TimedOut), now, n + 1, x);
      } else {
        ExpireNone(dp, now, n + 1, x);
      }
    }
  }

  // ---------------------------------------------------------------------
  // Flushes
  // ---------------------------------------------------------------------

  /** A flush ends every request of its QP without a completion, and no other's; takes
      back those the mesh has not sent; and leaves its send queue empty and not
      stopped. */
  lemma {:induction false} FlushVerdict(dp: Dp, i: nat, s: nat, m: Queued)
    requires i < |dp.qps| && dp.qps[i].valid && s < |dp.pend|
    ensures var r, q := Flush(dp, i), dp.qps[i];
      && r.pend[s] == (if dp.pend[s].Some? && dp.pend[s].value.qp == i then None else dp.pend[s])
      && (m in r.outq <==> m in dp.outq && (m.reply || m.mesh != q.mesh))
      && r.qps[i] == q.(cons := q.prod, rnr := false, busy := false, fault := false)
      && (forall j :: 0 <= j < |dp.qps| && j != i ==> r.qps[j] == dp.qps[j]) && r.host == dp.host
  {
    KeepQpIn(dp.outq, dp.qps[i].mesh, m);
  }
}
