/** How far a send queue gets: a doorbell or a retry takes it to its end, or to a WQE
    that has to wait or can't be read. */
module Progress {
  import opened Arith
  import opened Wire
  import opened Journal
  import opened RecvRings
  import opened WorkRequests
  import opened SendQueue
  import opened SendQueueInv
  import opened Outcomes
  import opened Turns

  // ---------------------------------------------------------------------
  // Where a queue stops
  // ---------------------------------------------------------------------

  /** Whether a WQE for another node has to wait. */
  predicate RemoteWaits(dp: Dp, q: Qp, w: Wqe)
    requires w.Wqe?
  {
    !Unsendable(dp, w) && (Crowded(dp, q, w) || (Loads(dp, w) && w.mesh.tx.TxAgain?))
  }

  /** Whether a queue stops at a WQE: it can't be read, or has to wait for the mesh or
      for a receive. */
  predicate Stops(dp: Dp, i: nat, now: nat, w: Wqe) {
    i < |dp.qps| &&
    (w.Unreadable? ||
      (Sendable(dp, w) &&
        if Elsewhere(dp, dp.qps[i]) then RemoteWaits(dp, dp.qps[i], w)
        else IsSendOp(w.op) && SendStatus(dp, i, now, w).None?))
  }

  /** A queue that is stopped: it waits, or it can't go on until its requests are
      done. */
  predicate Halted(q: Qp) { q.rnr || q.busy || q.fault }

  predicate HaltedAt(r: Ran, i: nat) { i < |r.dp.qps| && Halted(r.dp.qps[i]) }

  predicate RunOut(r: Ran, i: nat) { i < |r.dp.qps| && r.dp.qps[i].cons == r.dp.qps[i].prod }

  lemma {:induction false} SendStops(dp: Dp, i: nat, now: nat, w: Wqe, r: Ran)
    requires LocalTurn(dp, i, now, w, r) && w.Wqe? && IsSendOp(w.op)
    ensures r.past <==> !Stops(dp, i, now, w)
    ensures !r.past ==> HaltedAt(r, i)
  {
    match w.send
    case Absorbed => AbsorbedVerdict(dp, i, now, w, r);
    case ToQp(_, _, _) => SendVerdict(dp, i, now, w, r);
    case ToNode(_, _, _) => DatagramVerdict(dp, i, now, w, r);
  }

  lemma {:induction false} RemoteStops(dp: Dp, i: nat, now: nat, w: Wqe, r: Ran)
    requires RemoteTurn(dp, i, now, w, r)
    ensures r.past <==> !Stops(dp, i, now, w)
    ensures !r.past ==> HaltedAt(r, i)
  {
    RemoteVerdict(dp, i, now, w, r);
  }

  lemma {:induction false} LocalGoes(dp: Dp, i: nat, now: nat, w: Wqe, r: Ran)
    requires LocalTurn(dp, i, now, w, r) && w.Wqe? && !IsSendOp(w.op)
    ensures r.past
  {
    if w.op.OpOther? {
      UnknownVerdict(dp, i, now, w, r);
    } else if IsRdmaOp(w.op) {
      RdmaVerdict(dp, i, now, w, r);
    } else {
      AtomicVerdict(dp, i, now, w, r);
    }
  }

  /** A queue moves past every other WQE. */
  lemma {:induction false} TurnStops(dp: Dp, i: nat, now: nat, w: Wqe, r: Ran)
    requires IsTurn(dp, i, now, w, r)
    ensures r.past <==> !Stops(dp, i, now, w)
    ensures !r.past && dp.qps[i].valid ==> HaltedAt(r, i) || RunOut(r, i)
  {
    if w.Unreadable? {
      UnreadVerdict(dp, i, now, r);
    } else if Sendable(dp, w) {
      Dispatched(dp, i, now, w, r);
      if Elsewhere(dp, dp.qps[i]) {
        RemoteStops(dp, i, now, w, r);
      } else if IsSendOp(w.op) {
        SendStops(dp, i, now, w, r);
      } else {
        LocalGoes(dp, i, now, w, r);
      }
    } else if !IsReg(w) {
      RefusedVerdict(dp, i, now, w, r);
    }
  }

  // ---------------------------------------------------------------------
  // A whole service
  // ---------------------------------------------------------------------

  /** How many WQEs there are before the last doorbell. */
  function Waiting(q: Qp): (n: nat)
    requires q.prod < q.depth
    ensures n < q.depth && (n == 0 <==> Drained(q))
  {
    Behind(q.prod, Rem(q.cons, q.depth), q.depth)
  }

  lemma {:induction false} OneFewer(q: Qp, q': Qp)
    requires DepthOk(q.depth) && q.prod < q.depth && !Drained(q)
    requires q'.depth == q.depth && q'.prod == q.prod && q'.cons == (q.cons + 1) % U32
    ensures Waiting(q') == Waiting(q) - 1
  {
    SameSlot(q.cons + 1, q.depth);
    Succ(q.cons, q.depth);
  }

  /** The WQE a queue is at. */
  function Front(q: Qp, at: nat -> Wqe): (w: Wqe)
    requires q.depth > 0
  {
    at(Rem(q.cons, q.depth))
  }

  predicate Servable(dp: Dp, i: nat, now: nat) {
    CanServe(dp, i, now) && dp.qps[i].prod < dp.qps[i].depth && dp.qps[i].valid
  }

  /** A queue on its way to slot prod, with its end-th WQE there. */
  predicate Bound(dp: Dp, i: nat, now: nat, depth: nat, prod: nat, end: nat) {
    && Servable(dp, i, now) && dp.qps[i].depth == depth && dp.qps[i].prod == prod
    && dp.qps[i].ran + Waiting(dp.qps[i]) == end
  }

  /** What there is to know of a turn. */
  lemma {:induction false} TurnFacts(dp: Dp, i: nat, now: nat, w: Wqe, r: Ran)
    requires CanServe(dp, i, now) && r == Run(dp, i, now, w)
    ensures i < |r.dp.qps| && Kept(dp.qps[i], r.dp.qps[i])
    ensures r.past <==> !Stops(dp, i, now, w)
    ensures r.past ==> r.dp.qps[i].cons == dp.qps[i].cons
  {
    TurnStops(dp, i, now, w, r);
  }

  /** The queue a turn leaves to the next. */
  lemma {:induction false} NextServable(dp: Dp, i: nat, now: nat, d: Dp, next: Dp)
    requires Servable(dp, i, now) && !Drained(dp.qps[i])
    requires i < |d.qps| && Kept(dp.qps[i], d.qps[i]) && d.qps[i].cons == dp.qps[i].cons
    requires InTable(d, i) && next == Advance(d, i)
    ensures Servable(next, i, now) && next.qps[i].depth == dp.qps[i].depth && next.qps[i].prod == dp.qps[i].prod
    ensures next.qps[i].ran == dp.qps[i].ran + 1 && Waiting(next.qps[i]) == Waiting(dp.qps[i]) - 1
    ensures !Halted(next.qps[i])
  {
    OneFewer(dp.qps[i], next.qps[i]);
  }

  /** Whether out is what is left of a service once it has come to state d: it has run
      every WQE there was, or has stopped at one. */
  ghost predicate EndsAt(d: Dp, i: nat, now: nat, at: nat -> Wqe, out: Dp) {
    && Servable(d, i, now)
    && (if Drained(d.qps[i]) then out == d
        else Stops(d, i, now, Front(d.qps[i], at)) && out == Run(d, i, now, Front(d.qps[i], at)).dp)
  }

  /** The state a queue's next turn begins in, if it has moved past the WQE it is at. */
  function NextState(d: Dp, i: nat, now: nat, at: nat -> Wqe): (r: Option<Dp>) {
    if !CanServe(d, i, now) || Drained(d.qps[i]) then None
    else
      var r := Turned(d, i, now, Front(d.qps[i], at));
      if r.past then Some(r.dp) else None
  }

  /** The states the turns of a service begin in, and the one it has no turn in. */
  function Course(dp: Dp, i: nat, now: nat, at: nat -> Wqe, left: nat): (ds: seq<Dp>)
    ensures |ds| > 0 && ds[0] == dp
  {
    Trail((d: Dp) => NextState(d, i, now, at), dp, left)
  }

  /** The n-th turn of a service comes to dp. */
  ghost predicate Midway(dp: Dp, i: nat, now: nat, at: nat -> Wqe, n: nat, out: Dp, depth: nat, prod: nat, end: nat) {
    && Bound(dp, i, now, depth, prod, end) && n + Waiting(dp.qps[i]) < depth
    && out == ServiceFrom(dp, i, now, at, n)
  }

  /** A turn of a service ends it, or is followed by the next. */
  lemma {:induction false} OneTurn(dp: Dp, i: nat, now: nat, at: nat -> Wqe, n: nat, out: Dp, depth: nat, prod: nat,
                                   end: nat)
    returns (on: bool, next: Dp)
    requires Midway(dp, i, now, at, n, out, depth, prod, end)
    ensures if on then Midway(next, i, now, at, n + 1, out, depth, prod, end) else EndsAt(dp, i, now, at, out)
    ensures on ==> next.qps[i].ran == dp.qps[i].ran + 1 && !Halted(next.qps[i])
    ensures NextState(dp, i, now, at) == if on then Some(next) else None
  {
    on, next := false, dp;
    if !Drained(dp.qps[i]) {
      var r := Run(dp, i, now, Front(dp.qps[i], at));
      TurnFacts(dp, i, now, Front(dp.qps[i], at), r);
      assert out == ServiceTurn(dp, i, now, at, n);
      if r.past {
        on, next := true, Advance(r.dp, i);
        NextServable(dp, i, now, r.dp, next);
      }
    }
  }

  /** A state that a service of dp comes to, in its n-th turn. */
  ghost predicate Stage(dp: Dp, x: Dp, i: nat, now: nat, at: nat -> Wqe, n: nat, out: Dp, depth: nat, prod: nat,
                        end: nat)
    requires i < |dp.qps|
  {
    && Midway(x, i, now, at, n, out, depth, prod, end)
    && (x == dp || (x.qps[i].ran > dp.qps[i].ran && !Halted(x.qps[i])))
  }

  lemma {:induction false} StageNext(dp: Dp, x: Dp, i: nat, now: nat, at: nat -> Wqe, n: nat, out: Dp, depth: nat,
                                     prod: nat, end: nat, next: Option<Dp>)
    requires i < |dp.qps| && Stage(dp, x, i, now, at, n, out, depth, prod, end) && next == NextState(x, i, now, at)
    ensures n < depth
    ensures next.Some? ==> Stage(dp, next.value, i, now, at, n + 1, out, depth, prod, end)
    ensures next.None? ==> EndsAt(x, i, now, at, out)
  {
    var on, y := OneTurn(x, i, now, at, n, out, depth, prod, end);
  }

  /** A service runs one WQE after the other, from the one it is at, until it has run
      every one there was or comes to one it stops at, in the state its course ends
      in. */
  lemma {:induction false} ServiceReaches(dp: Dp, i: nat, now: nat, at: nat -> Wqe, out: Dp, depth: nat, prod: nat,
                                          end: nat)
    returns (d: Dp)
    requires Midway(dp, i, now, at, 0, out, depth, prod, end)
    ensures EndsAt(d, i, now, at, out) && Bound(d, i, now, depth, prod, end)
    ensures d == dp || (d.qps[i].ran > dp.qps[i].ran && !Halted(d.qps[i]))
    ensures d == Last(Course(dp, i, now, at, depth))
  {
    var next := (x: Dp) => NextState(x, i, now, at);
    var ok := (x: Dp, n: nat) => Stage(dp, x, i, now, at, n, out, depth, prod, end);
    forall x, n: nat | ok(x, n) ensures n < depth && (next(x).Some? ==> ok(next(x).value, n + 1)) {
      StageNext(dp, x, i, now, at, n, out, depth, prod, end, next(x));
    }
    var k := TrailEnds(next, ok, dp, 0, depth);
    d := Last(Trail(next, dp, depth));
    StageNext(dp, d, i, now, at, k, out, depth, prod, end, next(d));
  }

  lemma {:induction false} EndedQp(d: Dp, i: nat, now: nat, at: nat -> Wqe, out: Dp)
    requires EndsAt(d, i, now, at, out)
    ensures i < |out.qps| && out.qps[i].depth == d.qps[i].depth > 0
    ensures out.qps[i].ran == d.qps[i].ran && out.qps[i].prod == d.qps[i].prod
    ensures Drained(out.qps[i]) || Halted(out.qps[i])
  {
    if !Drained(d.qps[i]) {
      var w := Front(d.qps[i], at);
      TurnStops(d, i, now, w, Run(d, i, now, w));
      assert Kept(d.qps[i], out.qps[i]);
    }
  }

  /** After a doorbell, a queue that wasn't stopped on a WQE it couldn't read has run
      every WQE up to the index it was given, each once, and if there was one isn't
      stopped; or it has stopped, at a WQE that waits or can't be read, and has run
      every one before. */
  lemma {:induction false} DoorbellProgress(dp: Dp, i: nat, pIndex: nat, now: nat, at: nat -> Wqe) returns (d: Dp)
    requires Inv(dp) && i < |dp.qps| && dp.qps[i].valid && !dp.qps[i].fault && now < U64
    ensures var q, r := dp.qps[i].(prod := Rem(pIndex, dp.qps[i].depth)), Doorbell(dp, i, pIndex, now, at);
      && EndsAt(d, i, now, at, r) && Bound(d, i, now, q.depth, q.prod, q.ran + Waiting(q)) && |r.qps| == |dp.qps|
      && r.qps[i].depth == q.depth && r.qps[i].prod == q.prod && r.qps[i].ran == d.qps[i].ran
      && (Drained(r.qps[i]) || Halted(r.qps[i])) && (Drained(d.qps[i]) && Waiting(q) > 0 ==> !Halted(r.qps[i]))
  {
    var q := dp.qps[i].(prod := Rem(pIndex, dp.qps[i].depth));
    var dp1 := dp.(qps := dp.qps[i := q], log := dp.log + [SqRung(q.mesh)]);
    var out := ServiceFrom(dp1, i, now, at, 0);
    d := ServiceReaches(dp1, i, now, at, out, q.depth, q.prod, q.ran + Waiting(q));
    EndedQp(d, i, now, at, out);
  }

  // ---------------------------------------------------------------------
  // The retry of stalled queues
  // ---------------------------------------------------------------------

  /** What the retry does when it comes to QP n: it serves it if it is valid and
      stalled. */
  function Poll(dp: Dp, n: nat, now: nat, at: nat -> Wqe): (r: Dp) {
    if n < |dp.qps| && now < U64 && Shaped(dp) && dp.qps[n].valid && (dp.qps[n].rnr || dp.qps[n].busy)
    then Service(dp, n, now, at) else dp
  }

  /** The state in which it comes to QP n, having come to every one before. */
  ghost function Reached(dp: Dp, n: nat, now: nat, at: nat -> nat -> Wqe): (d: Dp) {
    Fold((x, k: nat) => Poll(x, k, now, at(k)), dp, n)
  }

  ghost predicate Like(dp: Dp, d: Dp) { |d.qps| == |dp.qps| && Shaped(d) && Inv(d) }

  lemma {:induction false} PollOnly(dp: Dp, d: Dp, k: nat, now: nat, at: nat -> Wqe)
    requires Like(dp, d) && now < U64
    ensures Like(dp, Poll(d, k, now, at))
    ensures forall j :: 0 <= j < |d.qps| && j != k ==> Poll(d, k, now, at).qps[j] == d.qps[j]
    ensures k < |d.qps| ==> Poll(d, k, now, at) == RetryOne(d, k, now, at)
  {
    if k < |d.qps| && d.qps[k].valid && IsStalled(d.qps[k]) {
      ServiceInv(d, k, now, at);
      InvShaped(Poll(d, k, now, at));
    }
  }

  /** QP i is as it was until the retry comes to it, and from then on what it makes of
      it. */
  lemma {:induction false} ReachedOnly(dp: Dp, i: nat, n: nat, now: nat, at: nat -> nat -> Wqe)
    requires Inv(dp) && Shaped(dp) && i < |dp.qps| && now < U64
    ensures Like(dp, Reached(dp, n, now, at)) && Like(dp, Reached(dp, i + 1, now, at))
    ensures Reached(dp, n, now, at).qps[i] == if n <= i then dp.qps[i] else Reached(dp, i + 1, now, at).qps[i]
  {
    var step := (x, k: nat) => Poll(x, k, now, at(k));
    var obs := (x: Dp) => if i < |x.qps| then Some(x.qps[i]) else None;
    var ok := (x: Dp) => Like(dp, x);
    forall x, k: nat | ok(x) ensures ok(step(x, k)) && (k != i ==> obs(step(x, k)) == obs(x)) {
      PollOnly(dp, x, k, now, at(k));
    }
    FoldOnly(step, obs, ok, dp, i, n);
    FoldOnly(step, obs, ok, dp, i, i + 1);
  }

  /** The early exit skips no stalled queue: from wherever it is, the loop comes to what
      it would if it went on to every QP. */
  lemma {:induction false} EarlyExitSkipsNone(dp: Dp, d: Dp, n: nat, now: nat, at: nat -> nat -> Wqe)
    requires Inv(dp) && Shaped(dp) && n <= |dp.qps| && now < U64 && d == Reached(dp, n, now, at) && Like(dp, d)
    ensures RetryFrom(d, n, now, at) == Reached(dp, |dp.qps|, now, at)
    decreases |dp.qps| - n
  {
    if n < |dp.qps| {
      PollOnly(dp, d, n, now, at(n));
      var e := Reached(dp, n + 1, now, at);
      EarlyExitSkipsNone(dp, e, n + 1, now, at);
      if d.stalled == 0 {
        StalledZero(d.qps, |d.qps|);
      }
    }
  }

  /** The retry serves every stalled queue, in the order of the QPs. */
  lemma {:induction false} RetryServesAll(dp: Dp, now: nat, at: nat -> nat -> Wqe)
    requires Inv(dp) && Shaped(dp) && now < U64
    ensures RetryFrom(dp, 0, now, at) == Reached(dp, |dp.qps|, now, at)
  {
    EarlyExitSkipsNone(dp, dp, 0, now, at);
  }

  /** What the retry leaves of QP i is what it makes of it when it comes to it. */
  lemma {:induction false} RetriedQp(dp: Dp, i: nat, now: nat, at: nat -> nat -> Wqe)
    requires Inv(dp) && Shaped(dp) && now < U64 && i < |dp.qps|
    ensures var r, out := Reached(dp, i, now, at), RetryFrom(dp, 0, now, at);
      Like(dp, r) && r.qps[i] == dp.qps[i] && |out.qps| == |dp.qps| && out.qps[i] == Poll(r, i, now, at(i)).qps[i]
  {
    RetryServesAll(dp, now, at);
    ReachedOnly(dp, i, |dp.qps|, now, at);
    ReachedOnly(dp, i, i, now, at);
    PollOnly(dp, Reached(dp, i, now, at), i, now, at(i));
    assert Reached(dp, i + 1, now, at) == Poll(Reached(dp, i, now, at), i, now, at(i));
  }

  /** After a retry, a queue that was stalled is what serving it makes of it, in the
      state r reached when the retry came to it: it has moved past the WQE it was
      stalled at unless that still has to wait or can't be read, and has run every
      WQE there was, or stopped at one of those. One that wasn't stalled is as it
      was. */
  lemma {:induction false} RetryProgress(dp: Dp, i: nat, now: nat, at: nat -> nat -> Wqe)
    requires Inv(dp) && Shaped(dp) && now < U64 && i < |dp.qps| && dp.qps[i].valid
    ensures var q, r, out := dp.qps[i], Reached(dp, i, now, at), RetryFrom(dp, 0, now, at);
      && |r.qps| == |out.qps| == |dp.qps| && r.qps[i] == q
      && if q.rnr || q.busy then
           && out.qps[i] == Service(r, i, now, at(i)).qps[i] && out.qps[i].depth == q.depth
           && (Drained(out.qps[i]) || Halted(out.qps[i]))
           && (!Drained(q) && !Stops(r, i, now, Front(q, at(i))) ==> out.qps[i].ran > q.ran)
           && (out.qps[i].ran == q.ran + Waiting(q) > q.ran ==> !Halted(out.qps[i]))
         else out.qps[i] == q
  {
    RetriedQp(dp, i, now, at);
    var q, r := dp.qps[i], Reached(dp, i, now, at);
    if q.rnr || q.busy {
      var out := ServiceFrom(r, i, now, at(i), 0);
      var d := ServiceReaches(r, i, now, at(i), out, q.depth, q.prod, q.ran + Waiting(q));
      EndedQp(d, i, now, at(i), out);
    }
  }
}
