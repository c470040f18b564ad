/** How a QP is set up, which only its administrator changes. */
module Setups {
  import opened Arith
  import opened Wire
  import opened Journal
  import opened RecvRings
  import opened Host
  import opened WorkRequests
  import opened SendQueue
  import opened SendQueueInv

  /** What a QP has been told to be: its kind and its ring's size, its peer, and the
      shared ring its receives come out of. */
  datatype Setup = Setup(valid: bool, kind: QpKind, depth: nat, peer: Option<(nat, nat)>, srq: Option<nat>)

  function SetupOf(q: Qp): (s: Setup) {
    Setup(q.valid, q.kind, q.depth, if q.destValid then Some((q.destQp, q.destNode)) else None,
          if q.hasSrq then Some(q.srq) else None)
  }

  /** Whether a description is of a ring there can be. */
  predicate Describes(r: RingDesc) { r.depthLog2 <= 24 && r.strideOk }

  /** What an administrator's command makes of it, if there are so many shared rings: a
      QP whose rings are described wrongly is as it was, one whose rings can't be read
      is gone, and one that is registered has neither peer nor shared ring until it is
      given one. */
  function Configured(s: Setup, op: QpOp, srqs: nat): (r: Setup) {
    match op
    case Flushes => s
    case Registers(kind, rings) =>
      if !Describes(rings.sq) || !Describes(rings.rq) then s
      else if !rings.sq.readable || !rings.rq.readable then s.(valid := false)
      else Setup(true, kind, Pow2(rings.sq.depthLog2), None, None)
    case Unregisters => s.(valid := false)
    case SetsDest(qp, node) => if s.valid then s.(peer := Some((qp, node))) else s
    case BindsSrq(n) => if n < srqs then s.(srq := Some(n)) else s
  }

  predicate SameSetups(a: Dp, b: Dp) {
    |b.qps| == |a.qps| && forall j :: 0 <= j < |a.qps| ==> SetupOf(b.qps[j]) == SetupOf(a.qps[j])
  }

  lemma {:induction false} SteadySame(a: Dp, b: Dp)
    requires Steady(a, b)
    ensures SameSetups(a, b)
  {
    forall j | 0 <= j < |a.qps| ensures SetupOf(b.qps[j]) == SetupOf(a.qps[j]) {
      assert Kept(a.qps[j], b.qps[j]);
    }
  }

  /** What running a send queue leaves. */
  ghost predicate StillSet(a: Dp, d: Dp, i: nat) { Runnable(d, i) && SameSetups(a, d) }

  lemma {:induction false} TurnSame(a: Dp, d: Dp, i: nat, now: nat, w: Wqe, r: Ran)
    requires StillSet(a, d, i) && now < U64 && r == Run(d, i, now, w)
    ensures SameSetups(a, r.dp)
    ensures r.past ==> InTable(r.dp, i)
    ensures r.past ==> StillSet(a, Advance(r.dp, i), i)
  {
    assert Kept(d.qps[i], r.dp.qps[i]);
    SteadySame(d, r.dp);
  }

  lemma {:induction false} ServiceSame(a: Dp, i: nat, now: nat, at: nat -> Wqe)
    requires InTable(a, i) && now < U64 && a.qps[i].rnrSince < U64
    ensures SameSetups(a, Service(a, i, now, at))
  {
    if !a.qps[i].fault {
      var P := (d: Dp) => StillSet(a, d, i);
      var Q := (d: Dp) => SameSetups(a, d);
      forall d, w | P(d) && AtWork(d, i) ensures TurnKeeps(P, Q, d, i, now, w) {
        TurnSame(a, d, i, now, w, Run(d, i, now, w));
      }
      ServiceKeeps(P, Q, a, i, now, at, 0, Service(a, i, now, at), a.qps[i].depth);
    }
  }

  lemma {:induction false} RetrySame(a: Dp, n: nat, now: nat, at: nat -> nat -> Wqe)
    requires Shaped(a) && n <= |a.qps| && now < U64
    ensures SameSetups(a, RetryFrom(a, n, now, at))
    decreases |a.qps| - n
  {
    if a.stalled != 0 && n < |a.qps| {
      if a.qps[n].valid && IsStalled(a.qps[n]) {
        ServiceSame(a, n, now, at(n));
      }
      RetrySame(RetryOne(a, n, now, at(n)), n + 1, now, at);
    }
  }

  lemma {:induction false} BellSame(a: Dp, i: nat, pIndex: nat, now: nat, at: nat -> Wqe)
    requires InTable(a, i) && now < U64 && a.qps[i].rnrSince < U64
    ensures SameSetups(a, Doorbell(a, i, pIndex, now, at))
  {
    var q := a.qps[i];
    if q.valid {
      var b := a.(qps := a.qps[i := q.(prod := Rem(pIndex, q.depth))], log := a.log + [SqRung(q.mesh)]);
      ServiceSame(b, i, now, at);
    }
  }

  lemma {:induction false} AdminSets(dp: Dp, j: nat, op: QpOp, i: nat)
    requires j < |dp.qps| && i < |dp.qps|
    ensures var r := Administered(dp, j, op);
      |r.qps| == |dp.qps| &&
      SetupOf(r.qps[i]) == if i == j then Configured(SetupOf(dp.qps[i]), op, |dp.host.srq|) else SetupOf(dp.qps[i])
  {
  }

  /** Whatever the guest, its peers and the clock have a data path do, a QP is set up as
      its administrator's last word on it says. */
  lemma {:induction false} SetupFollows(dp: Dp, c: Cmd, i: nat)
    requires Shaped(dp) && i < |dp.qps|
    ensures |Do(dp, c).qps| == |dp.qps|
    ensures SetupOf(Do(dp, c).qps[i])
         == if c.Admin? && c.i == i then Configured(SetupOf(dp.qps[i]), c.op, |dp.host.srq|) else SetupOf(dp.qps[i])
  {
    match c
    case Ring(j, pIndex, now, at) => if j < |dp.qps| && now < U64 { BellSame(dp, j, pIndex, now, at); }
    case Retry(now, all) => if now < U64 { RetrySame(dp, 0, now, all); }
    case Tick(now) => SteadySame(dp, Expire(dp, now, 0));
    case Answer(msg, reach, fault) => SteadySame(dp, Response(dp, msg, reach, fault));
    case Admin(j, op) => if j < |dp.qps| { AdminSets(dp, j, op, i); }
    case _ =>
  }

  // ---------------------------------------------------------------------
  // Receive rings
  // ---------------------------------------------------------------------

  /** The ring a guest's word is about: a QP's own only if the QP exists. */
  predicate IsThere(dp: Dp, ring: RingName) {
    HasRing(dp.host, ring) && RingAt(dp.host, ring).live
    && (ring.Own? ==> ring.qp < |dp.qps| && dp.qps[ring.qp].valid)
  }

  /** A receive doorbell that names a slot of a ring there is brings the ring's count
      there, and any other changes nothing. */
  lemma {:induction false} RecvBellVerdict(dp: Dp, g: Gift, ring: RingName)
    requires (g.RecvBell? && ring == Own(g.i)) || (g.SrqBell? && ring == Shared(g.s))
    ensures var r, was := Given(dp, g), RingAt(dp.host, ring);
      if IsThere(dp, ring) && g.pIndex < was.depth
      then RingAt(r.host, ring) == was.(prod := RqAdvance(was.prod, was.depth, g.pIndex))
           && forall x :: HasRing(dp.host, x) && x != ring ==> RingAt(r.host, x) == RingAt(dp.host, x)
      else r == dp
  {
  }

  /** A shared ring that is described wrongly is as it was, one that can't be read is no
      more, and any other is empty, of the depth described; one that is given up has
      nothing in it. */
  lemma {:induction false} SrqVerdict(dp: Dp, s: nat, rq: RingDesc)
    requires s < |dp.host.srq|
    ensures var r, was := RingAt(Given(dp, NewSrq(s, rq)).host, Shared(s)), RingAt(dp.host, Shared(s));
      if rq.depthLog2 > 16 || !rq.strideOk then r == was
      else if !rq.readable then r == was.(live := false)
      else r == RecvRing(true, Pow2(rq.depthLog2), 0, 0)
    ensures !RingAt(Given(dp, EndSrq(s)).host, Shared(s)).live
  {
  }
}
