/** What the operations that run no send queue leave in the journal: no request, and
    no completion but those of requests that are answered or too late, and of a WQE
    that couldn't be read. */
module Quiet {
  import opened Wire
  import opened Journal
  import opened Host
  import opened SendQueue

  /** Whether an event is one such an operation can leave: ans is the request whose
      answer it brings, if any, and late whether it is the one that looks for those
      that are too late. */
  predicate QuietEvent(e: Event, ans: Option<nat>, late: bool) {
    && !e.Sent?
    && (e.Cqe? ==>
          match e.cause
          case ByWqe(_, _) => false
          case ByReq(r) => ans == Some(r) || (late && e.status == RetryExceeded)
          case ByFault(_) => e.status == LocalQpOperErr && e.msn.None?)
  }

  predicate Quietly(l: Log, l': Log, ans: Option<nat>, late: bool) {
    l <= l' && forall k :: |l| <= k < |l'| ==> QuietEvent(l'[k], ans, late)
  }

  lemma {:induction false} QuietThen(a: Log, b: Log, c: Log, ans: Option<nat>, late: bool)
    requires Quietly(a, b, ans, late) && Quietly(b, c, ans, late)
    ensures Quietly(a, c, ans, late)
  {
  }

  lemma {:induction false} DroppedQuiet(t: Table, n: nat, qp: nat, l: Log, ans: Option<nat>, late: bool)
    requires n <= |t|
    ensures Quietly(l, l + Dropped(t, n, qp), ans, late)
  {
    if n > 0 {
      DroppedQuiet(t, n - 1, qp, l, ans, late);
      assert l + Dropped(t, n, qp)
          == l + Dropped(t, n - 1, qp)
             + if Owned(t[n - 1], qp) then [Retired(t[n - 1].value.req, Cancelled, false)] else [];
    }
  }

  lemma {:induction false} FlushQuiet(dp: Dp, i: nat, ans: Option<nat>, late: bool)
    requires i < |dp.qps|
    ensures Quietly(dp.log, Flush(dp, i).log, ans, late)
  {
    DroppedQuiet(dp.pend, |dp.pend|, i, dp.log, ans, late);
  }

  lemma {:induction false} FaultQuiet(dp: Dp, i: nat, ans: Option<nat>, late: bool)
    requires i < |dp.qps|
    ensures Quietly(dp.log, FaultFinish(dp, i).log, ans, late)
  {
    if dp.qps[i].fault && !Awaits(dp.pend, i) {
      var b := dp.(log := dp.log + [Cqe(i, ByFault(dp.qps[i].mesh), None, LocalQpOperErr)]);
      FlushQuiet(b, i, ans, late);
      QuietThen(dp.log, b.log, Flush(b, i).log, ans, late);
    }
  }

  lemma {:induction false} UnfetchedQuiet(dp: Dp, i: nat)
    requires i < |dp.qps|
    ensures Quietly(dp.log, Unfetched(dp, i).log, None, false)
  {
    var dp1 := Clear(dp, i);
    FaultQuiet(dp1.(qps := dp1.qps[i := dp1.qps[i].(fault := true)]), i, None, false);
  }

  lemma {:induction false} CompleteQuiet(dp: Dp, s: nat, status: Status, how: How, ans: Option<nat>, late: bool)
    requires s < |dp.pend| && dp.pend[s].Some?
    requires ans == Some(dp.pend[s].value.req) || (late && status == RetryExceeded)
    ensures Quietly(dp.log, Complete(dp, s, status, how).log, ans, late)
  {
    var qp := dp.pend[s].value.qp;
    var b := Retire(dp, s, status, how);
    if qp < |dp.qps| {
      FaultQuiet(b, qp, ans, late);
    }
  }

  lemma {:induction false} AnswerQuiet(dp: Dp, msg: Msg, reach: Reach, fault: Status)
    ensures Quietly(dp.log, Response(dp, msg, reach, fault).log, Some(msg.reqId), false)
  {
    var s := Find(dp.pend, 0, msg.reqId);
    if s < |dp.pend| {
      var p := dp.pend[s].value;
      if msg.status == Ok && msg.op != Ack {
        var b := Scattered(dp, p, msg, reach);
        CompleteQuiet(b, s, ScatterStatus(dp, p, msg, reach, fault), Answered, Some(msg.reqId), false);
        QuietThen(dp.log, b.log, Response(dp, msg, reach, fault).log, Some(msg.reqId), false);
      } else {
        CompleteQuiet(dp, s, msg.status, Answered, Some(msg.reqId), false);
      }
    }
  }

  lemma {:induction false} ExpireQuiet(dp: Dp, now: nat, n: nat)
    requires n <= |dp.pend|
    ensures Quietly(dp.log, Expire(dp, now, n).log, None, true)
    decreases |dp.pend| - n
  {
    if n < |dp.pend| {
      if dp.pend[n].Some? && now > dp.pend[n].value.deadline {
        var b := TakeBack(dp, dp.pend[n].value);
        var c := Complete(b, n, RetryExceeded, TimedOut);
        CompleteQuiet(b, n, RetryExceeded, TimedOut, None, true);
        QuietThen(dp.log, b.log, c.log, None, true);
        ExpireQuiet(c, now, n + 1);
        QuietThen(dp.log, c.log, Expire(c, now, n + 1).log, None, true);
      } else {
        ExpireQuiet(dp, now, n + 1);
      }
    }
  }

  lemma {:induction false} UnregisterQuiet(dp: Dp, i: nat)
    requires i < |dp.qps|
    ensures Quietly(dp.log, Unregister(dp, i).log, None, false)
  {
    DroppedQuiet(dp.pend, |dp.pend|, i, dp.log, None, false);
  }

  lemma {:induction false} RegisterQuiet(dp: Dp, i: nat, kind: QpKind, rings: Rings)
    requires i < |dp.qps|
    ensures Quietly(dp.log, RegisterQp(dp, i, kind, rings).log, None, false)
  {
    DroppedQuiet(dp.pend, |dp.pend|, i, dp.log, None, false);
    UnregisterQuiet(dp, i);
  }
}
