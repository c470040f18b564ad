/** The data path as the device keeps it: tables of QPs and of pending requests
    that its operations update in place, receive rings and guest memory. Each
    operation does to them what the function of the same step in SendQueue, or
    in Responder, says. */
module Datapath {
  import opened Arith
  import opened Wire
  import opened Journal
  import opened RecvRings
  import opened Copying
  import opened Host
  import opened Responder
  import opened WorkRequests
  import opened SendQueue
  import opened Outcomes
  import opened CopyLoops
  import opened Bouncing
  import Dma
  import Regions
  import Translate

  /** An entry of the pending table that has only been claimed: it holds no
      reply bytes against any node. */
  function Claimed(req: nat, now: nat): (p: Pending) {
    Pending(req, 0, 0, 0, false, false, 0, [], now + PENDING_MS, 0, 0, 0)
  }

  lemma {:induction false} ClaimedWeighsNothing(t: Table, n: nat, s: nat, req: nat, now: nat, node: nat)
    requires n <= |t| && s < |t| && t[s].None?
    ensures ReplyBytes(t[s := Some(Claimed(req, now))], n, node) == ReplyBytes(t, n, node)
  {
    if n > 0 {
      ClaimedWeighsNothing(t, n - 1, s, req, now, node);
    }
  }

  lemma {:induction false} FreeSlotAt(t: Table, n: nat, s: nat)
    requires n <= s <= |t| && (s < |t| ==> t[s].None?)
    requires forall i :: n <= i < s ==> t[i].Some?
    ensures FreeSlot(t, n) == s
    decreases s - n
  {
  }

  lemma {:induction false} FindAt(t: Table, n: nat, r: nat, s: nat)
    requires n <= s <= |t| && (s < |t| ==> Holds(t[s], r))
    requires forall i :: n <= i < s ==> !Holds(t[i], r)
    ensures Find(t, n, r) == s
    decreases s - n
  {
  }

  /** Bytes that can all be reached are read as memory holds them. */
  lemma {:induction false} ReadInto(was: Dma.Side, s: Places)
    requires |s| == |was.buf| && Reachable(was.mem, s)
    ensures CopyBytes(false, was, s, 0).buf == DataOf(was.mem, s)
  {
    CopyShape(false, was, s, 0);
    forall i | 0 <= i < |s| ensures CopyBytes(false, was, s, 0).buf[i] == ByteAt(was.mem, s[i]) {
      GatheredAt(was, s, i);
    }
  }

  // ---------------------------------------------------------------------
  // WQEs as they are run: what each finds, and how far it gets
  // ---------------------------------------------------------------------

  /** How far the WQEs in some slots got. */
  type Gone = map<nat, Reaches>

  /** The WQEs a queue finds in its slots, with how far some of them got. */
  ghost function With(at: nat -> Wqe, got: Gone): (r: nat -> Wqe) {
    (s: nat) => if s in got then Got(at(s), got[s]) else at(s)
  }

  function SlotAfter(c: nat, k: nat, depth: nat): (s: nat)
    requires depth > 0
  {
    Rem(c + k, depth)
  }

  /** Every slot gone is one of the n from c on. */
  predicate SlotsFrom(got: Gone, c: nat, n: nat, depth: nat)
    requires depth > 0
  {
    forall s :: s in got ==> exists k :: 0 <= k < n && s == SlotAfter(c, k, depth)
  }

  /** The next one is not. */
  lemma {:induction false} SlotFresh(got: Gone, c: nat, n: nat, depth: nat)
    requires DepthOk(depth) && depth > 0 && n < depth && SlotsFrom(got, c, n, depth)
    ensures Rem((c + n) % U32, depth) == Rem(c + n, depth) && Rem(c + n, depth) !in got
  {
    SameSlot(c + n, depth);
    if Rem(c + n, depth) in got {
      var k :| 0 <= k < n && Rem(c + n, depth) == SlotAfter(c, k, depth);
      RemApart(c + k, c + n, depth);
    }
  }

  lemma {:induction false} SlotsGrow(got: Gone, c: nat, n: nat, depth: nat, g: Reaches)
    requires depth > 0 && SlotsFrom(got, c, n, depth)
    ensures SlotsFrom(got[Rem(c + n, depth) := g], c, n + 1, depth)
  {
    assert SlotAfter(c, n, depth) == Rem(c + n, depth);
  }

  /** Where a queue is after n turns from slot c. */
  predicate AtSlot(q: Qp, got: Gone, n: nat, c: nat, depth: nat)
    requires depth > 0
  {
    q.depth == depth && q.cons % U32 == (c + n) % U32 && SlotsFrom(got, c, n, depth)
  }

  lemma {:induction false} SlotStep(cons: nat, got: Gone, c: nat, n: nat, depth: nat, g: Reaches)
    requires DepthOk(depth) && 0 < depth && n < depth && cons % U32 == (c + n) % U32 && SlotsFrom(got, c, n, depth)
    ensures Rem(cons, depth) !in got && SlotsFrom(got[Rem(cons, depth) := g], c, n + 1, depth)
    ensures (cons + 1) % U32 % U32 == (c + n + 1) % U32
  {
    SlotIs(cons, c + n, depth);
    SlotFresh(got, c, n, depth);
    SlotsGrow(got, c, n, depth, g);
    WrapNext(cons, c + n);
  }

  lemma {:induction false} TurnedKeeps(dp: Dp, i: nat, now: nat, w: Wqe, r: Ran)
    requires CanServe(dp, i, now) && r == Turned(dp, i, now, w)
    ensures r.past ==> CanServe(r.dp, i, now) && r.dp.qps[i].depth == dp.qps[i].depth
    ensures r.past ==> r.dp.qps[i].cons == (dp.qps[i].cons + 1) % U32
  {
    assert Kept(dp.qps[i], Run(dp, i, now, w).dp.qps[i]);
    TurnedOn(dp, i, now, w);
  }

  lemma {:induction false} AtSlotOn(q: Qp, q': Qp, got: Gone, n: nat, c: nat, depth: nat, g: Reaches)
    requires DepthOk(depth) && 0 < depth && AtSlot(q, got, n, c, depth) && n < depth
    ensures Rem(q.cons, depth) !in got
    ensures q'.depth == q.depth && q'.cons == (q.cons + 1) % U32 ==>
              AtSlot(q', got[Rem(q.cons, depth) := g], n + 1, c, depth)
  {
    SlotStep(q.cons, got, c, n, depth, g);
  }

  /** Whether a turn that the queue moves past takes it from d to e. */
  ghost predicate Link(d: Dp, e: Dp, i: nat, now: nat, at: nat -> Wqe, got: Gone) {
    && CanServe(d, i, now) && CanServe(e, i, now) && e.qps[i].depth == d.qps[i].depth && !Drained(d.qps[i])
    && var s := Rem(d.qps[i].cons, d.qps[i].depth);
       s in got && Turned(d, i, now, Got(at(s), got[s])) == Ran(e, true)
  }

  ghost predicate Linked(ds: seq<Dp>, k: nat, i: nat, now: nat, at: nat -> Wqe, got: Gone) {
    k + 1 < |ds| && Link(ds[k], ds[k + 1], i, now, at, got)
  }

  /** The states a queue's turns have taken it through. */
  ghost predicate Chain(ds: seq<Dp>, i: nat, now: nat, at: nat -> Wqe, got: Gone) {
    |ds| > 0 && forall k :: 0 <= k < |ds| - 1 ==> Linked(ds, k, i, now, at, got)
  }

  lemma {:induction false} LinkMore(d: Dp, e: Dp, i: nat, now: nat, at: nat -> Wqe, got: Gone, s: nat, g: Reaches)
    requires Link(d, e, i, now, at, got) && s !in got
    ensures Link(d, e, i, now, at, got[s := g])
  {
  }

  lemma {:induction false} ChainMore(ds: seq<Dp>, i: nat, now: nat, at: nat -> Wqe, got: Gone, s: nat, g: Reaches)
    requires Chain(ds, i, now, at, got) && s !in got
    ensures Chain(ds, i, now, at, got[s := g])
  {
    var got' := got[s := g];
    forall k | 0 <= k < |ds| - 1 ensures Linked(ds, k, i, now, at, got') {
      assert Linked(ds, k, i, now, at, got);
      LinkMore(ds[k], ds[k + 1], i, now, at, got, s, g);
    }
  }

  lemma {:induction false} ChainOn(ds: seq<Dp>, e: Dp, i: nat, now: nat, at: nat -> Wqe, got: Gone)
    requires Chain(ds, i, now, at, got) && Link(ds[|ds| - 1], e, i, now, at, got)
    ensures Chain(ds + [e], i, now, at, got)
  {
    var t := ds + [e];
    forall k | 0 <= k < |t| - 1 ensures Linked(t, k, i, now, at, got) {
      if k < |ds| - 1 {
        assert Linked(ds, k, i, now, at, got);
      }
    }
  }

  /** What a service makes of a queue from its n-th turn. */
  ghost function Makes(d: Dp, i: nat, now: nat, at: nat -> Wqe, n: nat): (r: Dp) {
    if CanServe(d, i, now) then ServiceFrom(d, i, now, at, n) else d
  }

  /** A service goes on from d as it does from e. */
  lemma {:induction false} ServiceLink(d: Dp, e: Dp, i: nat, now: nat, at: nat -> Wqe, got: Gone, n: nat, m: nat)
    requires Link(d, e, i, now, at, got) && n < d.qps[i].depth && m == n + 1
    ensures Makes(d, i, now, With(at, got), n) == Makes(e, i, now, With(at, got), m)
  {
    assert ServiceFrom(d, i, now, With(at, got), n) == ServiceTurn(d, i, now, With(at, got), n);
  }

  /** And stops where the queue does. */
  lemma {:induction false} ServiceStops(d: Dp, i: nat, now: nat, at: nat -> Wqe, got: Gone, n: nat, s: nat, out: Dp)
    requires CanServe(d, i, now) && !Drained(d.qps[i]) && n < d.qps[i].depth
    requires s == Rem(d.qps[i].cons, d.qps[i].depth) && s in got
    requires Turned(d, i, now, Got(at(s), got[s])) == Ran(out, false)
    ensures Makes(d, i, now, With(at, got), n) == out
  {
    assert ServiceFrom(d, i, now, With(at, got), n) == ServiceTurn(d, i, now, With(at, got), n);
  }

  lemma {:induction false} ChainService(ds: seq<Dp>, k: nat, i: nat, now: nat, at: nat -> Wqe, got: Gone, depth: nat,
                                        out: Dp)
    requires Chain(ds, i, now, at, got) && k < |ds| <= depth + 1 && CanServe(ds[|ds| - 1], i, now)
    requires ds[|ds| - 1].qps[i].depth == depth && Makes(ds[|ds| - 1], i, now, With(at, got), |ds| - 1) == out
    ensures CanServe(ds[k], i, now) && ds[k].qps[i].depth == depth && Makes(ds[k], i, now, With(at, got), k) == out
    decreases |ds| - k
  {
    if k < |ds| - 1 {
      assert Linked(ds, k, i, now, at, got);
      ChainService(ds, k + 1, i, now, at, got, depth, out);
      ServiceLink(ds[k], ds[k + 1], i, now, at, got, k, k + 1);
    }
  }

  /** What the loop keeps: its turns have taken the queue through ds, and it is at the
      last of them, n slots on from c, or has stopped there. */
  ghost predicate Courses(ds: seq<Dp>, v: Dp, i: nat, now: nat, at: nat -> Wqe, got: Gone, n: nat, more: bool, c: nat,
                          depth: nat)
  {
    && 0 < depth && 0 < |ds| && Chain(ds, i, now, at, got)
    && CanServe(ds[|ds| - 1], i, now) && ds[|ds| - 1].qps[i].depth == depth
    && (if more then |ds| == n + 1 && v == ds[n] && AtSlot(v.qps[i], got, n, c, depth)
        else |ds| <= depth && Makes(ds[|ds| - 1], i, now, With(at, got), |ds| - 1) == v)
  }

  /** A turn of it that takes the queue one slot on. */
  lemma {:induction false} MovedOn(ds: seq<Dp>, e: Dp, i: nat, now: nat, at: nat -> Wqe, got: Gone, n: nat, c: nat,
                                   depth: nat, s: nat)
    requires |ds| == n + 1 && 0 < depth && Chain(ds, i, now, at, got) && CanServe(ds[n], i, now)
    requires ds[n].qps[i].depth == depth && s == Rem(ds[n].qps[i].cons, depth) && s in got && !Drained(ds[n].qps[i])
    requires Ran(e, true) == Turned(ds[n], i, now, Got(at(s), got[s]))
    requires e.qps[i].depth == depth && e.qps[i].cons == (ds[n].qps[i].cons + 1) % U32 ==>
               AtSlot(e.qps[i], got, n + 1, c, depth)
    ensures Courses(ds + [e], e, i, now, at, got, n + 1, true, c, depth)
  {
    TurnedKeeps(ds[n], i, now, Got(at(s), got[s]), Ran(e, true));
    ChainOn(ds, e, i, now, at, got);
  }

  /** A turn of it: the queue is one slot on, or has stopped. */
  lemma {:induction false} TurnTaken(ds: seq<Dp>, i: nat, now: nat, at: nat -> Wqe, got: Gone, n: nat, c: nat,
                                     depth: nat, g: Reaches, r: Ran)
    requires |ds| == n + 1 && Courses(ds, ds[n], i, now, at, got, n, true, c, depth)
    requires n < depth && !Drained(ds[n].qps[i])
    requires r == Turned(ds[n], i, now, Got(at(Rem(ds[n].qps[i].cons, depth)), g))
    ensures Courses(if r.past then ds + [r.dp] else ds, r.dp, i, now, at,
                    got[Rem(ds[n].qps[i].cons, depth) := g], n + 1, r.past, c, depth)
  {
    var d, s := ds[n], Rem(ds[n].qps[i].cons, depth);
    var got' := got[s := g];
    AtSlotOn(d.qps[i], r.dp.qps[i], got, n, c, depth, g);
    ChainMore(ds, i, now, at, got, s, g);
    if r.past {
      MovedOn(ds, r.dp, i, now, at, got', n, c, depth, s);
    } else {
      ServiceStops(d, i, now, at, got', n, s, r.dp);
    }
  }

  lemma {:induction false} CoursesEnd(ds: seq<Dp>, v: Dp, i: nat, now: nat, at: nat -> Wqe, got: Gone, n: nat,
                                      more: bool, c: nat, depth: nat)
    requires Courses(ds, v, i, now, at, got, n, more, c, depth) && n <= depth
    requires more ==> n == depth || Drained(v.qps[i])
    ensures CanServe(ds[0], i, now) && ServiceFrom(ds[0], i, now, With(at, got), 0) == v
  {
    ChainService(ds, 0, i, now, at, got, depth, v);
  }

  ghost function WithAll(at: nat -> nat -> Wqe, got: seq<Gone>): (r: nat -> nat -> Wqe) {
    (i: nat) => if i < |got| then With(at(i), got[i]) else at(i)
  }

  /** The same of the retry of |got| QPs. */
  ghost predicate Retried(was: Dp, dp: Dp, now: nat, at: nat -> nat -> Wqe, got: seq<Gone>)
    requires Shaped(was) && Shaped(dp) && |dp.qps| >= |got| && now < U64
  {
    forall e :: got <= e ==> RetryFrom(was, 0, now, WithAll(at, e)) == RetryFrom(dp, |got|, now, WithAll(at, e))
  }

  lemma {:induction false} RetriedOn(was: Dp, dp: Dp, now: nat, at: nat -> nat -> Wqe, got: seq<Gone>,
                                     g: Gone)
    requires Shaped(was) && Shaped(dp) && now < U64 && |got| < |dp.qps| && dp.stalled != 0
    requires Retried(was, dp, now, at, got)
    ensures Retried(was, RetryOne(dp, |got|, now, With(at(|got|), g)), now, at, got + [g])
  {
    var n := |got|;
    var dp' := RetryOne(dp, n, now, With(at(n), g));
    forall e | got + [g] <= e
      ensures RetryFrom(was, 0, now, WithAll(at, e)) == RetryFrom(dp', n + 1, now, WithAll(at, e))
    {
      assert e[n] == g && got <= e;
      assert WithAll(at, e)(n) == With(at(n), g);
    }
  }

  lemma {:induction false} RetriedEnds(was: Dp, dp: Dp, now: nat, at: nat -> nat -> Wqe, got: seq<Gone>)
    requires Shaped(was) && Shaped(dp) && now < U64 && |got| <= |dp.qps| && (dp.stalled == 0 || |got| == |dp.qps|)
    requires Retried(was, dp, now, at, got)
    ensures RetryFrom(was, 0, now, WithAll(at, got)) == dp
  {
    assert got <= got;
  }

  class Device {
    const qp: array<Qp>
    const pending: array<Option<Pending>>
    var nextReqId: nat
    var nextMeshId: nat
    var sqStalled: int
    const localNode: nat
    var outq: seq<Queued>
    var host: Host
    ghost var log: Log

    constructor (qps: array<Qp>, maxPending: nat, node: nat, h: Host)
      ensures qp == qps && pending.Length == maxPending && fresh(pending)
      ensures View() == Dp(qps[..], pending[..], 0, 0, 0, node, [], h, [])
      ensures forall s :: 0 <= s < maxPending ==> pending[s].None?
    {
      qp := qps;
      pending := new Option<Pending>[maxPending](i => None);
      nextReqId, nextMeshId, sqStalled := 0, 0, 0;
      localNode := node;
      host := h;
      outq := [];
      log := [];
    }

    ghost function View(): (dp: Dp)
      reads this, qp, pending
    {
      Dp(qp[..], pending[..], nextReqId, nextMeshId, sqStalled, localNode, outq, host, log)
    }

    /** The regions are well formed, and the mapping layer gives mapped memory. */
    ghost predicate Able(layer: (nat, nat) -> Dma.Answer)
      reads this
    {
      Regions.RegionsOk(host.mrs) && Dma.LayerOk(host.mem, layer)
    }

    // -------------------------------------------------------------------
    // The pending table
    // -------------------------------------------------------------------

    /** pending_alloc() */
    method PendingAlloc(now: nat) returns (slot: nat)
      modifies pending, this`nextReqId
      ensures slot == FreeSlot(old(pending[..]), 0)
      ensures slot < pending.Length ==> nextReqId == old(nextReqId) + 1
      ensures slot < pending.Length ==> pending[..] == old(pending[..])[slot := Some(Claimed(nextReqId, now))]
      ensures slot == pending.Length ==> nextReqId == old(nextReqId) && pending[..] == old(pending[..])
    {
      slot := 0;
      while slot < pending.Length
        invariant slot <= pending.Length && pending[..] == old(pending[..]) && nextReqId == old(nextReqId)
        invariant forall i :: 0 <= i < slot ==> pending[..][i].Some?
      {
        if pending[slot].None? {
          FreeSlotAt(pending[..], 0, slot);
          nextReqId := nextReqId + 1;
          pending[slot] := Some(Claimed(nextReqId, now));
          return;
        }
        slot := slot + 1;
      }
      FreeSlotAt(pending[..], 0, slot);
    }

    /** pending_find() */
    method PendingFind(r: nat) returns (slot: nat)
      ensures slot == Find(pending[..], 0, r)
    {
      slot := 0;
      while slot < pending.Length
        invariant slot <= pending.Length
        invariant forall i :: 0 <= i < slot ==> !Holds(pending[..][i], r)
      {
        if pending[slot].Some? && pending[slot].value.req == r {
          break;
        }
        slot := slot + 1;
      }
      FindAt(pending[..], 0, r, slot);
    }

    /** pending_reply_bytes() */
    method PendingReplyBytes(node: nat) returns (bytes: nat)
      ensures bytes == ReplyBytes(pending[..], pending.Length, node)
    {
      bytes := 0;
      for i := 0 to pending.Length
        invariant bytes == ReplyBytes(pending[..], i, node)
      {
        if pending[i].Some? && pending[i].value.destNode == node {
          bytes := bytes + pending[i].value.replyBytes;
        }
      }
    }

    /** pending_cancel_qp() */
    method PendingCancelQp(i: nat) returns (n: nat)
      modifies pending, this`log
      ensures View() == CancelQp(old(View()), i)
      ensures n == |log| - |old(log)|
    {
      n := 0;
      ghost var was := pending[..];
      for s := 0 to pending.Length
        invariant pending[..] == Without(was, s, i)
        invariant log == old(log) + Dropped(was, s, i)
        invariant n == |log| - |old(log)|
      {
        assert pending[s] == pending[..][s] == was[s];
        if pending[s].Some? && pending[s].value.qp == i {
          log := log + [Retired(pending[s].value.req, Cancelled, false)];
          pending[s] := None;
          n := n + 1;
        }
        assert pending[..] == Without(was, s + 1, i);
      }
    }

    /** pending_completes_qp() */
    method PendingCompletesQp(i: nat) returns (b: bool)
      ensures b == Awaits(pending[..], i)
    {
      for s := 0 to pending.Length
        invariant forall k :: 0 <= k < s ==> !(Owned(pending[..][k], i) && Completes(pending[..][k].value))
      {
        var e := pending[s];
        if e.Some? && e.value.qp == i && (e.value.useMsn || e.value.signalled) {
          assert Owned(pending[..][s], i);
          return true;
        }
      }
      return false;
    }

    // -------------------------------------------------------------------
    // Stalls, flush
    // -------------------------------------------------------------------

    /** sq_stall_clear() */
    method SqStallClear(i: nat)
      requires i < qp.Length
      modifies qp, this`sqStalled
      ensures View() == Clear(old(View()), i)
    {
      qp[i] := qp[i].(fault := false);
      if qp[i].rnr || qp[i].busy {
        qp[i] := qp[i].(rnr := false, busy := false);
        sqStalled := sqStalled - 1;
      }
      assert qp[..] == old(qp[..])[i := old(qp[i]).(rnr := false, busy := false, fault := false)];
    }

    /** sq_busy_set() */
    method SqBusySet(i: nat)
      requires i < qp.Length
      modifies qp, this`sqStalled
      ensures View() == SetBusy(old(View()), i)
    {
      if !qp[i].rnr && !qp[i].busy {
        sqStalled := sqStalled + 1;
      }
      qp[i] := qp[i].(busy := true);
      assert qp[..] == old(qp[..])[i := old(qp[i]).(busy := true)];
    }

    /** ionic_datapath_flush_qp() */
    method FlushQp(i: nat)
      modifies this`outq, this`sqStalled, this`log, qp, pending
      ensures View() == if i < |old(View()).qps| then Flush(old(View()), i) else old(View())
    {
      if i >= qp.Length || !qp[i].valid {
        return;
      }
      var _ := PendingCancelQp(i);
      ghost var took := TakeQp(outq, qp[i].mesh);
      outq := KeepQp(outq, qp[i].mesh);
      SqStallClear(i);
      qp[i] := qp[i].(cons := qp[i].prod);
      log := log + [Flushed(i, qp[i].mesh, !qp[i].hasSrq, took)];
    }

    /** sq_fault_finish() */
    method SqFaultFinish(i: nat)
      requires i < qp.Length
      modifies this`outq, this`sqStalled, this`log, qp, pending
      ensures View() == FaultFinish(old(View()), i)
    {
      if !qp[i].fault {
        return;
      }
      var waits := PendingCompletesQp(i);
      if waits {
        return;
      }
      log := log + [Cqe(i, ByFault(qp[i].mesh), None, LocalQpOperErr)];
      FlushQp(i);
    }

    // -------------------------------------------------------------------
    // Registration
    // -------------------------------------------------------------------

    /** ionic_datapath_register_qp() */
    method RegisterQp(i: nat, kind: QpKind, rings: Rings) returns (ok: bool)
      modifies this`nextMeshId, this`sqStalled, this`host, this`log, qp, pending
      ensures ok == (i < qp.Length && GeometryOk(rings.sq, 24) && GeometryOk(rings.rq, 24)
                     && rings.sq.readable && rings.rq.readable)
      ensures View() == if i < |old(View()).qps| then SendQueue.RegisterQp(old(View()), i, kind, rings) else old(View())
    {
      if i >= qp.Length || !GeometryOk(rings.sq, RING_MAX_LOG2) || !GeometryOk(rings.rq, RING_MAX_LOG2) {
        return false;
      }
      if !rings.sq.readable || !rings.rq.readable {
        UnregisterQp(i);
        return false;
      }
      SqStallClear(i);
      var _ := PendingCancelQp(i);
      nextMeshId := nextMeshId + 1;
      qp[i] := Qp(true, kind, Pow2(rings.sq.depthLog2), 0, 0, false, qp[i].rnrSince, false, false, 0, false,
                  qp[i].destQp, NO_NODE, nextMeshId, false, 0, 0);
      host := SetRing(host, Own(i), RecvRing(true, Pow2(rings.rq.depthLog2), 0, 0));
      log := log + [Opened(i, nextMeshId, !IsDatagram(kind))] + [RingReset(Own(i))];
      return true;
    }

    /** ionic_datapath_unregister_qp() */
    method UnregisterQp(i: nat)
      modifies this`sqStalled, this`log, qp, pending
      ensures View() == if i < |old(View()).qps| then Unregister(old(View()), i) else old(View())
    {
      if i >= qp.Length {
        return;
      }
      var _ := PendingCancelQp(i);
      SqStallClear(i);
      qp[i] := qp[i].(valid := false);
    }

    // -------------------------------------------------------------------
    // Receive rings
    // -------------------------------------------------------------------

    /** rq_prod_advance(), for a doorbell of a QP's own ring or a shared one. */
    method RecvDoorbell(ring: RingName, pIndex: nat)
      modifies this`host, this`log
      ensures View() == RingBell(old(View()), ring, pIndex)
    {
      var r := RingAt(host, ring);
      if !HasRing(host, ring) || !r.live || r.depth == 0 || pIndex >= r.depth {
        return;
      }
      var n := Added(r.prod, r.depth, pIndex);
      host := SetRing(host, ring, r.(prod := (r.prod + n) % U32));
      log := log + [Journal.Posted(ring, n)];
    }

    /** ionic_datapath_register_srq() */
    method RegisterSrq(s: nat, rq: RingDesc)
      modifies this`host, this`log
      ensures View() == OpenSrq(old(View()), s, rq)
    {
      if !GeometryOk(rq, SRQ_MAX_LOG2) {
        return;
      }
      if !rq.readable {
        host := SetRing(host, Shared(s), RingAt(host, Shared(s)).(live := false));
        return;
      }
      host := SetRing(host, Shared(s), RecvRing(true, Pow2(rq.depthLog2), 0, 0));
      log := log + [RingReset(Shared(s))];
    }

    /** ionic_datapath_unregister_srq() */
    method UnregisterSrq(s: nat)
      modifies this`host, this`log
      ensures View() == CloseSrq(old(View()), s)
    {
      if RingAt(host, Shared(s)).live {
        host := SetRing(host, Shared(s), RecvRing(false, 0, 0, 0));
        log := log + [RingReset(Shared(s))];
      }
    }

    /** dp_ring_take() */
    method TakeRecv(ring: RingName, wqe: Option<seq<Sge>>) returns (taken: bool)
      modifies this`host
      ensures taken == Takes(RingAt(old(host), ring), wqe)
      ensures host == SetRing(old(host), ring, Take(RingAt(old(host), ring), wqe))
    {
      var r := RingAt(host, ring);
      if !r.live || r.cons == r.prod || wqe.None? {
        SetSame(host, ring);
        return false;
      }
      host := SetRing(host, ring, r.(cons := (r.cons + 1) % U32));
      return true;
    }

    // -------------------------------------------------------------------
    // Guest memory
    // -------------------------------------------------------------------

    /** dp_scatter(): as much of data as is wanted, over a list. */
    method ScatterData(list: seq<Sge>, data: seq<byte>, want: nat, layer: (nat, nat) -> Dma.Answer)
      returns (got: nat, ghost reach: Reach)
      requires Regions.RegionsOk(host.mrs) && Dma.LayerOk(host.mem, layer) && want <= |data| && want < U32
      requires forall i :: 0 <= i < |list| ==> list[i].va < U64
      modifies this`host
      ensures var h, s := old(host), Flat(old(host).mrs, list);
        && host == h.(mem := Put(h.mem, s, data, Went(h.mem, s, want, reach)))
        && got == Counted(h.mem, s, want, reach)
        && (Ready(h.mem, layer, s) ==> got == Min(want, |s|))
    {
      ghost var h, s := host, Flat(host.mrs, list);
      var t := new Dma.Transfer(host.mem, data);
      ghost var moved;
      got, moved := WalkList(t, host.mrs, layer, true, list, want);
      WithinAtLeast(h.mem, s, moved);
      reach := Reach(got, moved);
      host := host.(mem := t.mem);
    }

    /** ionic_dp_host_to_sge() */
    method WriteData(v: Va, data: seq<byte>, layer: (nat, nat) -> Dma.Answer) returns (got: nat, ghost reach: Reach)
      requires Regions.RegionsOk(host.mrs) && Dma.LayerOk(host.mem, layer) && |data| < U32 && v.va < U64
      modifies this`host
      ensures var h, s := old(host), Span(old(host).mrs, v, |data|);
        && host == h.(mem := Put(h.mem, s, data, Went(h.mem, s, |data|, reach)))
        && got == Counted(h.mem, s, |data|, reach)
        && (Ready(h.mem, layer, s) ==> got == |data|)
    {
      ghost var h, s := host, Span(host.mrs, v, |data|);
      var t := new Dma.Transfer(host.mem, data);
      ghost var moved;
      got, moved := SgeHost(t, host.mrs, layer, true, v, 0, |data|);
      WithinAtLeast(h.mem, s, moved);
      reach := Reach(got, moved);
      host := host.(mem := t.mem);
    }

    /** ionic_dp_sge_to_host() */
    method ReadData(v: Va, len: nat, layer: (nat, nat) -> Dma.Answer)
      returns (got: nat, data: seq<byte>, ghost reach: Reach)
      requires Regions.RegionsOk(host.mrs) && Dma.LayerOk(host.mem, layer) && len < U32 && v.va < U64
      ensures var s := Span(host.mrs, v, len);
        && got == Counted(host.mem, s, len, reach) && (got == len ==> data == DataOf(host.mem, s))
        && (Ready(host.mem, layer, s) ==> got == len)
    {
      ghost var s := Span(host.mrs, v, len);
      var t := new Dma.Transfer(host.mem, seq(len, i => 0));
      ghost var was := t.Now();
      ghost var moved;
      got, moved := SgeHost(t, host.mrs, layer, false, v, 0, len);
      WithinAtLeast(host.mem, s, moved);
      reach := Reach(got, moved);
      data := t.buf;
      if got == len {
        assert s[..len] == s;
        ReadInto(was, s);
      }
    }

    /** ionic_dp_gather() */
    method GatherData(list: seq<Sge>, len: nat, layer: (nat, nat) -> Dma.Answer)
      returns (got: nat, data: seq<byte>, ghost reach: Reach)
      requires Able(layer) && len < U32 && forall i :: 0 <= i < |list| ==> list[i].va < U64
      ensures got == Counted(host.mem, Flat(host.mrs, list), len, reach)
      ensures got == len ==> data == Gathered(host, list, len)
      ensures Ready(host.mem, layer, Flat(host.mrs, list)) ==> got == Min(len, |Flat(host.mrs, list)|)
    {
      ghost var s := Flat(host.mrs, list);
      var t := new Dma.Transfer(host.mem, seq(len, i => 0));
      ghost var was := t.Now();
      ghost var moved;
      got, moved := WalkList(t, host.mrs, layer, false, list, len);
      WithinAtLeast(host.mem, s, moved);
      reach := Reach(got, moved);
      data := t.buf;
      if got == len {
        ReadInto(was, s[..len]);
      }
    }

    /** ionic_dp_deliver_recv()'s copy from one list of the guest's to another. */
    method CopyLists(sl: seq<Sge>, dl: seq<Sge>, layer: (nat, nat) -> Dma.Answer) returns (got: nat, ghost reach: Reach)
      requires Able(layer) && forall i :: 0 <= i < |sl| ==> sl[i].len < U32
      modifies this`host
      ensures Able(layer)
      ensures var h := old(host);
        var n := WentAlong(h, sl, dl, reach);
        && host == h.(mem := Walked(h.mem, h.mrs, sl, dl, n)) && got == Min(reach.done, n)
        && (Ready(h.mem, layer, Flat(h.mrs, sl)) && Ready(h.mem, layer, Flat(h.mrs, dl)) ==>
              got == Shorter(Flat(h.mrs, sl), Flat(h.mrs, dl)))
    {
      var t := new Dma.Transfer(host.mem, seq(BOUNCE, i => 0));
      ghost var moved;
      got, moved := Lockstep(t, host.mrs, layer, sl, dl);
      reach := Reach(got, moved);
      Dma.LayerStays(host.mem, t.mem, layer);
      host := host.(mem := t.mem);
    }

    /** rdma_xfer(), on the guest's memory. */
    method CopyFar(local: seq<Sge>, far: seq<Sge>, toFar: bool, sl: seq<Sge>, dl: seq<Sge>,
                   layer: (nat, nat) -> Dma.Answer)
      returns (got: nat, ghost reach: Reach)
      requires Able(layer) && |far| == 1 && far[0].len < U32 && Ends(local, far, toFar, sl, dl)
      modifies this`host
      ensures Able(layer)
      ensures var h := old(host);
        var n := WentAlong(h, sl, dl, reach);
        && host == h.(mem := Walked(h.mem, h.mrs, sl, dl, n)) && got == Min(reach.done, n)
        && (Ready(h.mem, layer, Flat(h.mrs, sl)) && Ready(h.mem, layer, Flat(h.mrs, dl)) ==>
              got == Shorter(Flat(h.mrs, sl), Flat(h.mrs, dl)))
    {
      var t := new Dma.Transfer(host.mem, seq(BOUNCE, i => 0));
      ghost var moved;
      got, moved := RdmaXfer(t, host.mrs, layer, local, far, toFar, sl, dl);
      reach := Reach(got, moved);
      Dma.LayerStays(host.mem, t.mem, layer);
      host := host.(mem := t.mem);
    }

    // -------------------------------------------------------------------
    // Completions
    // -------------------------------------------------------------------

    /** pending_complete() */
    method PendingComplete(s: nat, status: Status, ghost how: How)
      requires s < pending.Length && pending[s].Some?
      modifies this`outq, this`sqStalled, this`log, qp, pending
      ensures View() == Complete(old(View()), s, status, how)
    {
      var p := pending[s].value;
      var q := p.qp < qp.Length && qp[p.qp].valid;
      ghost var posts := q && Completes(p);
      log := log + (if posts then [Cqe(p.qp, ByReq(p.req), if p.useMsn then Some(p.msn) else None, status)] else []);
      log := log + [Retired(p.req, how, posts)];
      pending[s] := None;
      if q {
        SqFaultFinish(p.qp);
      }
    }

    /** The landing of an answer's data in its request's list. */
    method LandAnswer(p: Pending, msg: Msg, layer: (nat, nat) -> Dma.Answer) returns (got: nat, ghost reach: Reach)
      requires Regions.RegionsOk(host.mrs) && Dma.LayerOk(host.mem, layer) && |msg.payload| < U32
      requires forall i :: 0 <= i < |p.local| ==> p.local[i].va < U64
      modifies this`host, this`log
      ensures View() == Scattered(old(View()), p, msg, reach)
      ensures var h, s := old(host), Flat(old(host).mrs, p.local);
        && got == Counted(h.mem, s, Wanted(p, msg), reach)
        && (Ready(h.mem, layer, s) ==> got == Min(Wanted(p, msg), |s|))
    {
      ghost var h := host;
      got, reach := ScatterData(p.local, msg.payload, Wanted(p, msg), layer);
      log := log + [Landed(p.req, p.local, msg.payload[..Went(h.mem, Flat(h.mrs, p.local), Wanted(p, msg), reach)])];
    }

    /** dp_wire_response(): the answer's data is scattered over the request's list,
        run by run through the mapping layer, and the request completed. */
    method WireResponse(msg: Msg, layer: (nat, nat) -> Dma.Answer, fault: Status) returns (ghost reach: Reach)
      requires Regions.RegionsOk(host.mrs) && Dma.LayerOk(host.mem, layer) && |msg.payload| < U32
      requires forall s, i :: 0 <= s < pending.Length && pending[s].Some? && 0 <= i < |pending[s].value.local| ==>
        pending[s].value.local[i].va < U64
      modifies this`outq, this`sqStalled, this`host, this`log, qp, pending
      ensures View() == Response(old(View()), msg, reach, fault)
    {
      reach := Reach(0, 0);
      var s := PendingFind(msg.reqId);
      if s == pending.Length {
        return;
      }
      var p := pending[s].value;
      var status := msg.status;
      if status == Ok && msg.op != Ack {
        var got;
        got, reach := LandAnswer(p, msg, layer);
        if got != Wanted(p, msg) {
          status := FaultStatus(fault, LocalProtErr);
        }
      }
      PendingComplete(s, status, Answered);
    }

    /** The last loop of ionic_datapath_poll(). */
    method ExpirePending(now: nat)
      modifies this`outq, this`sqStalled, this`log, qp, pending
      ensures View() == Expire(old(View()), now, 0)
    {
      var s := 0;
      ghost var end := Expire(View(), now, 0);
      while s < pending.Length
        invariant s <= pending.Length
        invariant Expire(View(), now, s) == end
      {
        TimeOut(s, now);
        s := s + 1;
      }
    }

    method TimeOut(s: nat, now: nat)
      requires s < pending.Length
      modifies this`outq, this`sqStalled, this`log, qp, pending
      ensures var was := old(View());
        View() == if was.pend[s].Some? && now > was.pend[s].value.deadline
                  then Complete(TakeBack(was, was.pend[s].value), s, RetryExceeded, TimedOut) else was
    {
      if pending[s].Some? && now > pending[s].value.deadline {
        CancelRequest(pending[s].value);
        PendingComplete(s, RetryExceeded, TimedOut);
      }
    }

    /** dp_mesh_cancel_request() */
    method CancelRequest(p: Pending)
      modifies this`outq, this`log
      ensures View() == TakeBack(old(View()), p)
    {
      if HasRequest(outq, p.mesh, p.req) {
        outq := KeepRequest(outq, p.mesh, p.req);
        log := log + [Journal.TakenBack(p.req)];
      }
    }

    // -------------------------------------------------------------------
    // Sending to another node
    // -------------------------------------------------------------------

    /** What a message takes with it, gathered if it isn't at hand. */
    method Fetch(p: Post, n: nat, layer: (nat, nat) -> Dma.Answer)
      returns (ok: bool, data: seq<byte>, ghost reach: Reach)
      requires Able(layer) && n < U32 && (p.source.FromList? ==> ListFits(p.source.list))
      ensures var src := Reaching(p, reach).source;
        && ok == CanFetch(host, src, n) && (ok ==> data == Fetched(host, src, n))
        && (src.FromList? && Ready(host.mem, layer, Flat(host.mrs, src.list)) ==>
              ok == (n <= |Flat(host.mrs, src.list)|))
    {
      match p.source
      case FromBytes(bytes) =>
        return true, if n <= |bytes| then bytes[..n] else bytes, Reach(0, 0);
      case FromList(list, _) =>
        var got;
        got, data, reach := GatherData(list, n, layer);
        ok := got == n;
    }

    /** The checks remote_post() makes with its entry already claimed, and what it
        gathers. */
    method Admit(p: Post, env: MeshEnv, layer: (nat, nat) -> Dma.Answer)
      returns (r: Posted, data: seq<byte>, ghost reach: Reach)
      requires Able(layer) && (p.source.FromList? ==> ListFits(p.source.list))
      ensures r == Admitted(pending[..], host, Reaching(p, reach), env)
      ensures r.PostSent? ==>
                var n := PayloadLen(WireOf(p.op).value, p);
                data == if n > 0 then Fetched(host, Reaching(p, reach).source, n) else []
    {
      data, reach := [], Reach(0, 0);
      if WireOf(p.op).None? {
        return PostFailed, data, reach;
      }
      var op := WireOf(p.op).value;
      var n := PayloadLen(op, p);
      if n > MAX_PAYLOAD {
        return PostFailed, data, reach;
      }
      var asked := PendingReplyBytes(p.destNode);
      if asked > REPLY_BUDGET - ReplyLimit(op, p) || !env.hasRoom {
        return PostBusy, data, reach;
      }
      if n > 0 {
        if !env.alloc {
          return PostFailed, data, reach;
        }
        var ok;
        ok, data, reach := Fetch(p, n, layer);
        if !ok {
          return PostFailed, data, reach;
        }
      }
      match env.tx
      case TxQueued => r := PostSent;
      case TxAgain => r := PostBusy;
      case TxFailed => r := PostSendFailed;
    }

    /** remote_post() */
    method RemotePost(i: nat, now: nat, p: Post, env: MeshEnv, layer: (nat, nat) -> Dma.Answer)
      returns (r: Posted, ghost reach: Reach)
      requires i < qp.Length && Able(layer) && (p.source.FromList? ==> ListFits(p.source.list))
      modifies this`nextReqId, this`outq, this`log, qp, pending
      ensures r == PostResult(old(View()), Reaching(p, reach), env)
      ensures View() == SendQueue.RemotePost(old(View()), i, now, Reaching(p, reach), env)
    {
      ghost var was := View();
      var s := PendingAlloc(now);
      if s == pending.Length {
        return PostFailed, Reach(0, 0);
      }
      ClaimedWeighsNothing(was.pend, pending.Length, s, nextReqId, now, p.destNode);
      var data;
      r, data, reach := Admit(p, env, layer);
      assert r == PostResult(was, Reaching(p, reach), env);
      if r != PostSent {
        pending[s] := None;
        assert pending[..] == was.pend;
        return;
      }
      Enqueue(i, now, p, env, data, s, was, reach);
    }

    /** The request is the mesh's: the pending entry is filled in and, for a
        connected QP, a message sequence number taken. */
    method Enqueue(i: nat, now: nat, p: Post, ghost env: MeshEnv, data: seq<byte>, s: nat, ghost was: Dp,
                   ghost reach: Reach)
      requires i < qp.Length && s < pending.Length && PostResult(was, Reaching(p, reach), env).PostSent?
      requires s == FreeSlot(was.pend, 0) && nextReqId == was.nextReq + 1
      requires View() == was.(pend := was.pend[s := Some(Claimed(nextReqId, now))], nextReq := nextReqId)
      requires data == PostedMsg(was, i, Reaching(p, reach)).payload
      modifies this`outq, this`log, qp, pending
      ensures View() == SendQueue.RemotePost(was, i, now, Reaching(p, reach), env)
    {
      var op := WireOf(p.op).value;
      var req := nextReqId;
      var msg := Msg(op, i, p.destQp, req, p.rkey, p.va, HeaderLen(op, p), p.atomic, Ok, data);
      assert msg == PostedMsg(was, i, Reaching(p, reach));
      outq := outq + [Queued(p.destNode, false, qp[i].mesh, req, msg)];
      var msn := 0;
      if p.useMsn {
        msn := (qp[i].msn + 1) % U32;
        qp[i] := qp[i].(msn := msn);
      }
      var entry := Pending(req, i, p.wqe, msn, p.useMsn, p.signalled, AnswerLen(op, p),
                           if op.ReadReq? || op.AtomicReq? then p.local else [],
                           now + PENDING_MS, qp[i].mesh, p.destNode, ReplyLimit(op, p));
      assert entry == PostedEntry(was, i, now, Reaching(p, reach));
      pending[s] := Some(entry);
      log := log + [Sent(qp[i].mesh, qp[i].ran, req, if p.useMsn then Some(msn) else None,
                         Completes(entry), p.destNode, msg, entry.local)];
      assert pending[..] == was.pend[s := Some(entry)];
    }

    // -------------------------------------------------------------------
    // Running a send queue
    // -------------------------------------------------------------------

    method PostSendNpg(i: nat, status: Status)
      requires i < qp.Length
      modifies this`log
      ensures View() == PostNpg(old(View()), i, status)
    {
      log := log + [Cqe(i, ByWqe(qp[i].mesh, qp[i].ran), None, status)];
    }

    method PostSendMsn(i: nat, status: Status)
      requires i < qp.Length
      modifies this`log, qp
      ensures View() == PostMsn(old(View()), i, status)
    {
      qp[i] := qp[i].(msn := (qp[i].msn + 1) % U32);
      log := log + [Cqe(i, ByWqe(qp[i].mesh, qp[i].ran), Some(qp[i].msn), status)];
    }

    /** dp_complete_send() */
    method CompleteSend(i: nat, status: Status)
      requires i < qp.Length
      modifies this`log, qp
      ensures View() == SendQueue.CompleteSend(old(View()), i, status)
    {
      if IsDatagram(qp[i].kind) {
        PostSendNpg(i, status);
      } else {
        PostSendMsn(i, status);
      }
    }

    method SendRemote(i: nat, now: nat, w: Wqe, layer: (nat, nat) -> Dma.Answer)
      returns (past: bool, ghost got: Reaches)
      requires i < qp.Length && w.Wqe? && Able(layer) && WqeFits(w)
      modifies this`nextReqId, this`sqStalled, this`outq, this`log, qp, pending
      ensures Ran(View(), past) == RunRemote(old(View()), i, now, Got(w, got))
    {
      var connected := !IsDatagram(qp[i].kind);
      var p := PostOf(w, connected, qp[i].destQp, qp[i].destNode);
      var r;
      ghost var reach;
      r, reach := RemotePost(i, now, p, w.mesh, layer);
      got := NOWHERE.(gather := reach);
      past := r != PostBusy;
      match r
      case PostSent =>
      case PostBusy => SqBusySet(i);
      case PostSendFailed => FailRemote(i, connected, w.signalled, RetryExceeded);
      case PostFailed => FailRemote(i, connected, w.signalled, RemoteAccErr);
    }

    method FailRemote(i: nat, connected: bool, signalled: bool, status: Status)
      requires i < qp.Length
      modifies this`log, qp
      ensures View() == FailPost(old(View()), i, connected, signalled, status)
    {
      if connected {
        PostSendMsn(i, status);
      } else if signalled {
        PostSendNpg(i, status);
      }
    }

    /** What ionic_dp_deliver_recv() does with the receive it has taken. */
    method Land(list: seq<Sge>, load: Load, layer: (nat, nat) -> Dma.Answer) returns (landed: nat, ghost reach: Reach)
      requires Able(layer) && LoadFits(load) && forall i :: 0 <= i < |list| ==> list[i].va < U64
      modifies this`host
      ensures Able(layer) && host == old(host).(mem := host.mem)
      ensures Filled(landed, host.mem) == Fills(old(host), list, load, reach)
      ensures var h := old(host);
        var s := Flat(h.mrs, list);
        Ready(h.mem, layer, s) ==>
          && (load.FromHost? ==> landed == Min(|load.data|, |s|))
          && (load.FromGuest? && Ready(h.mem, layer, Flat(h.mrs, load.list)) ==>
                landed == Shorter(Flat(h.mrs, load.list), s))
    {
      match load
      case Immediate(total) => landed, reach := total, Reach(0, 0);
      case FromHost(data) =>
        ghost var h := host;
        landed, reach := ScatterData(list, data, |data|, layer);
        PutKeys(h.mem, Flat(h.mrs, list), data, Went(h.mem, Flat(h.mrs, list), |data|, reach));
        Dma.LayerStays(h.mem, host.mem, layer);
      case FromGuest(sl) => landed, reach := CopyLists(sl, list, layer);
    }

    /** ionic_dp_deliver_recv(), for a WQE of this device. */
    method HandReceive(j: nat, ghost taker: Taker, w: Wqe, load: Load, layer: (nat, nat) -> Dma.Answer)
      returns (taken: bool, ghost reach: Reach)
      requires j < qp.Length && w.Wqe? && Able(layer) && WqeFits(w) && LoadFits(load)
      modifies this`host, this`log
      ensures Able(layer)
      ensures var d := Deliver(old(host), RingFor(qp[j], j), w.recv, load, reach, w.fault);
        taken == d.taken && View() == Handed(old(View()), j, taker, load, d)
    {
      var ring := RingFor(qp[j], j);
      ghost var h := host;
      taken := TakeRecv(ring, w.recv);
      reach := Reach(0, 0);
      if taken {
        var landed;
        landed, reach := Land(w.recv.value, load, layer);
        ghost var d := Deliver(h, ring, w.recv, load, reach, w.fault);
        log := log + [Received(j, ring, taker, LoadSize(load), landed, d.status)];
      }
    }

    /** The bytes of a datagram, its header in front. */
    method MakeGram(w: Wqe, layer: (nat, nat) -> Dma.Answer) returns (ok: bool, data: seq<byte>, ghost reach: Reach)
      requires w.Wqe? && !w.send.Absorbed? && Able(layer) && WqeFits(w)
      ensures var w' := Got(w, NOWHERE.(gather := reach)); ok == CanGram(host, w') && (ok ==> data == Gram(host, w'))
      ensures ok ==> |data| < U32
      ensures Ready(host.mem, layer, Flat(host.mrs, w.local)) ==> ok
    {
      var n := DatagramLen(w.local);
      var got;
      got, data, reach := GatherData(w.local, n, layer);
      ok := got == n;
      ListLenIs(host.mrs, w.local);
      data := w.send.grh + data;
    }

    /** What a SEND has for QP j's receives, if it gets that far. */
    method MakeLoad(q: Qp, j: nat, w: Wqe, layer: (nat, nat) -> Dma.Answer)
      returns (ok: bool, load: Load, ghost reach: Reach)
      requires w.Wqe? && w.send.ToQp? && Able(layer) && WqeFits(w)
      ensures var w' := Got(w, NOWHERE.(gather := reach));
        ok == Delivers(View(), q, j, w') && (ok ==> LoadFits(load) && load == SendLoad(View(), j, w'))
    {
      ok, load, reach := false, FromGuest(w.local), Reach(0, 0);
      if j >= qp.Length || !qp[j].valid || (IsDatagram(q.kind) && !(IsDatagram(qp[j].kind) && w.send.keyOk)) {
        return;
      }
      if !IsDatagram(qp[j].kind) {
        return true, load, reach;
      }
      var data;
      ok, data, reach := MakeGram(w, layer);
      load := FromHost(data);
    }

    /** sq_send(), for a QP of this device. */
    method SendToQp(i: nat, now: nat, w: Wqe, layer: (nat, nat) -> Dma.Answer) returns (past: bool, ghost got: Reaches)
      requires i < qp.Length && w.Wqe? && w.send.ToQp? && now < U64 && qp[i].rnrSince < U64 && Able(layer) && WqeFits(w)
      modifies this`sqStalled, this`host, this`log, qp
      ensures Able(layer)
      ensures Ran(View(), past) == RunToQp(old(View()), i, now, Got(w, got))
    {
      var j := SendTarget(qp[i], i, w.send.dst);
      var ok, load;
      ghost var gather, move;
      ok, load, gather := MakeLoad(qp[i], j, w, layer);
      got := NOWHERE.(gather := gather);
      if !ok {
        CompleteSend(i, Ok);
        return true, got;
      }
      past, move := SendDelivery(i, now, j, w, load, layer);
      got := got.(move := move);
    }

    /** sq_send(), for a SEND that gets as far as QP j's receives. */
    method SendDelivery(i: nat, now: nat, j: nat, w: Wqe, load: Load, layer: (nat, nat) -> Dma.Answer)
      returns (past: bool, ghost move: Reach)
      requires i < qp.Length && j < qp.Length && w.Wqe? && now < U64 && qp[i].rnrSince < U64
      requires Able(layer) && WqeFits(w) && LoadFits(load)
      modifies this`sqStalled, this`host, this`log, qp
      ensures Able(layer)
      ensures Ran(View(), past) == RunDelivery(old(View()), i, now, j, Got(w, NOWHERE.(move := move)), load)
    {
      var taken;
      taken, move := HandReceive(j, ForWqe(qp[i].mesh, qp[i].ran), w, load, layer);
      past := true;
      if taken || !qp[i].kind.RC? {
        CompleteSend(i, Ok);
      } else {
        past := WaitRnr(i, now);
      }
    }

    /** sq_send(), for an RC QP's SEND for which there is no receive. */
    method WaitRnr(i: nat, now: nat) returns (past: bool)
      requires i < qp.Length && now < U64 && qp[i].rnrSince < U64
      modifies this`sqStalled, this`log, qp
      ensures Ran(View(), past) == RunRnr(old(View()), i, now)
    {
      MarkRnr(i, now);
      if Since(now, qp[i].rnrSince) < RNR_RETRY_MS {
        return false;
      }
      CompleteSend(i, RnrRetryExceeded);
      return true;
    }

    /** sq_send(), for a datagram to another node. */
    method SendToNode(i: nat, now: nat, w: Wqe, layer: (nat, nat) -> Dma.Answer)
      returns (past: bool, ghost got: Reaches)
      requires i < qp.Length && w.Wqe? && w.send.ToNode? && now < U64 && qp[i].rnrSince < U64 && Able(layer)
      requires WqeFits(w)
      modifies this`nextReqId, this`sqStalled, this`outq, this`log, qp, pending
      ensures Ran(View(), past) == RunSend(old(View()), i, now, Got(w, got))
    {
      got := NOWHERE;
      past := true;
      if IsDatagram(qp[i].kind) {
        var ok, data;
        ghost var reach;
        ok, data, reach := MakeGram(w, layer);
        got := NOWHERE.(gather := reach);
        if ok {
          var p := Post(w.op, w.id, false, false, FromBytes(data), w.length, 0, 0, AtomicOf(w), [], w.send.dstQp,
                        w.send.node);
          var r, _ := RemotePost(i, now, p, w.mesh, layer);
          past := r != PostBusy;
        }
      }
      if past {
        CompleteSend(i, Ok);
      } else {
        SqBusySet(i);
      }
    }

    /** sq_send() */
    method SqSend(i: nat, now: nat, w: Wqe, layer: (nat, nat) -> Dma.Answer) returns (past: bool, ghost got: Reaches)
      requires i < qp.Length && w.Wqe? && now < U64 && qp[i].rnrSince < U64 && Able(layer) && WqeFits(w)
      modifies this`nextReqId, this`sqStalled, this`outq, this`host, this`log, qp, pending
      ensures Able(layer)
      ensures Ran(View(), past) == RunSend(old(View()), i, now, Got(w, got))
    {
      match w.send
      case Absorbed =>
        CompleteSend(i, Ok);
        past, got := true, NOWHERE;
      case ToQp(_, _, _) => past, got := SendToQp(i, now, w, layer);
      case ToNode(_, _, _) => past, got := SendToNode(i, now, w, layer);
    }

    method MarkRnr(i: nat, now: nat)
      requires i < qp.Length && now < U64
      modifies this`sqStalled, this`log, qp
      ensures View() == SetRnr(old(View()), i, now)
    {
      log := log + [Waited(qp[i].mesh, now)];
      if !qp[i].rnr {
        if !qp[i].busy {
          sqStalled := sqStalled + 1;
        }
        qp[i] := qp[i].(rnr := true, rnrSince := now);
      }
    }

    /** sq_rdma(), but for the receive a WRITE_IMM takes. */
    method SqRdma(w: Wqe, layer: (nat, nat) -> Dma.Answer) returns (status: Status, ghost reach: Reach)
      requires w.Wqe? && IsRdmaOp(w.op) && Able(layer) && WqeFits(w)
      modifies this`host
      ensures Able(layer)
      ensures Effect(host, status) == LocalRdma(old(host), Got(w, NOWHERE.(move := reach)))
      ensures var h := old(host);
        var s, d := Flat(h.mrs, SourceList(w)), Flat(h.mrs, DestList(w));
        Ready(h.mem, layer, s) && Ready(h.mem, layer, d) && Shorter(s, d) == w.length ==>
          (w.length > 0 ==> Regions.Covers(h.mrs, w.rkey, w.va, w.length)) ==> status == Ok
    {
      reach := Reach(0, 0);
      if w.length != 0 && !Regions.Covers(host.mrs, w.rkey, w.va, w.length) {
        return RemoteAccErr, reach;
      }
      var done;
      done, reach := CopyFar(w.local, FarEnd(w), !w.op.OpRead?, SourceList(w), DestList(w), layer);
      if done == w.length {
        return Ok, reach;
      }
      status := RdmaFault(host, w);
    }

    /** do_atomic()'s write of its result. */
    method ReturnEight(w: Wqe, run: Translate.Run, was: seq<byte>, layer: (nat, nat) -> Dma.Answer)
      returns (status: Status, ghost reach: Reach)
      requires w.Wqe? && Able(layer) && WqeFits(w) && |was| == 8 && run == SgeRun(host.mrs, ResultAt(w)) && run.len >= 8
      modifies this`host
      ensures Able(layer)
      ensures Effect(host, status) == Returned(old(host), Got(w, NOWHERE.(back := reach)), was)
    {
      reach := Reach(0, 0);
      if run.gpa + 8 >= U64 {
        return FaultStatus(w.fault, LocalAccErr), reach;
      }
      var t := new Dma.Transfer(host.mem, was);
      var ok;
      ok, reach := XferEight(t, ResultAt(w), run, true, layer);
      PutKeys(host.mem, Span(host.mrs, ResultAt(w), 8), was, Went(host.mem, Span(host.mrs, ResultAt(w), 8), 8, reach));
      Dma.LayerStays(host.mem, t.mem, layer);
      host := host.(mem := t.mem);
      status := if ok then Ok else FaultStatus(w.fault, LocalAccErr);
    }

    /** do_atomic() */
    method SqAtomic(w: Wqe, layer: (nat, nat) -> Dma.Answer) returns (status: Status, ghost got: Reaches)
      requires w.Wqe? && Able(layer) && WqeFits(w)
      modifies this`host
      ensures Able(layer)
      ensures Effect(host, status) == LocalAtomic(old(host), Got(w, got))
    {
      got := NOWHERE;
      var v := Va(w.rkey, w.va);
      var run := SgeGpa(host.mrs, v);
      if !Regions.Covers(host.mrs, w.rkey, w.va, 8) || run.len < 8 {
        return FaultStatus(w.fault, RemoteAccErr), got;
      }
      var back := SgeGpa(host.mrs, ResultAt(w));
      if back.len < 8 {
        return FaultStatus(w.fault, LocalProtErr), got;
      }
      var ok, was;
      ghost var reach, again;
      ok, was, reach, again := ApplyEight(v, run, AtomicOf(w), layer);
      got := got.(move := reach, again := again);
      if !ok {
        return FaultStatus(w.fault, RemoteAccErr), got;
      }
      status, reach := ReturnEight(w, back, was, layer);
      got := got.(back := reach);
    }

    /** The receive a WRITE_IMM within the device takes. */
    method SqImmediate(i: nat, w: Wqe, ghost got: Reaches, layer: (nat, nat) -> Dma.Answer)
      requires i < qp.Length && w.Wqe? && Able(layer) && WqeFits(w)
      modifies this`host, this`log
      ensures Able(layer) && View() == RunImmediate(old(View()), i, Got(w, got))
    {
      var q := qp[i];
      var j := if q.destValid then q.destQp else i;
      if j < qp.Length && qp[j].valid {
        var _, _ := HandReceive(j, ForWqe(q.mesh, q.ran), w, Immediate(w.length), layer);
      }
    }

    /** An RDMA or an atomic within the device. */
    method SqLocal(i: nat, w: Wqe, layer: (nat, nat) -> Dma.Answer) returns (ghost got: Reaches)
      requires i < qp.Length && w.Wqe? && Able(layer) && WqeFits(w)
      modifies this`host, this`log, qp
      ensures Able(layer) && View() == RunLocal(old(View()), i, Got(w, got))
    {
      var status;
      if IsRdmaOp(w.op) {
        ghost var reach;
        status, reach := SqRdma(w, layer);
        got := NOWHERE.(move := reach);
        if w.op.OpWriteImm? && status == Ok {
          SqImmediate(i, w, got, layer);
        }
      } else {
        status, got := SqAtomic(w, layer);
      }
      CompleteSend(i, status);
    }

    /** process_sq_wqe(), for a WQE it can't read. */
    method SqUnreadable(i: nat)
      requires i < qp.Length
      modifies this`outq, this`sqStalled, this`log, qp, pending
      ensures View() == Unfetched(old(View()), i)
    {
      SqStallClear(i);
      qp[i] := qp[i].(fault := true);
      SqFaultFinish(i);
    }

    /** process_sq_wqe(), for a WQE that changes a region. */
    method SqReg(i: nat, w: Wqe, layer: (nat, nat) -> Dma.Answer)
      requires i < qp.Length && w.Wqe? && Able(layer) && WqeFits(w)
      modifies this`host, this`log
      ensures Able(layer) && View() == PostNpg(RunReg(old(View()), w), i, RegStatus(w))
    {
      Regions.ApplyOk(host.mrs, RegOpOf(w));
      host := host.(mrs := Regions.Apply(host.mrs, RegOpOf(w)));
      PostSendNpg(i, RegStatus(w));
    }

    /** process_sq_wqe() */
    method ProcessSqWqe(i: nat, now: nat, w: Wqe, layer: (nat, nat) -> Dma.Answer)
      returns (past: bool, ghost got: Reaches)
      requires i < qp.Length && now < U64 && qp[i].rnrSince < U64 && Able(layer) && WqeFits(w)
      modifies this`nextReqId, this`sqStalled, this`outq, this`host, this`log, qp, pending
      ensures Able(layer)
      ensures Ran(View(), past) == Run(old(View()), i, now, Got(w, got))
    {
      past, got := true, NOWHERE;
      if w.Unreadable? {
        SqUnreadable(i);
        past := false;
      } else if w.op.OpRegMr? || w.op.OpLocalInv? {
        SqReg(i, w, layer);
      } else if w.early.Some? {
        CompleteSend(i, MalformedStatus(w.early.value));
      } else if !SgesOk(host.mrs, w.local) {
        CompleteSend(i, LocalProtErr);
      } else if localNode != NO_NODE && qp[i].destValid && qp[i].destNode != NO_NODE && qp[i].destNode != localNode {
        past, got := SendRemote(i, now, w, layer);
      } else {
        past, got := SqHere(i, now, w, layer);
      }
    }

    /** process_sq_wqe()'s dispatch of what isn't for another node's QP. */
    method SqHere(i: nat, now: nat, w: Wqe, layer: (nat, nat) -> Dma.Answer) returns (past: bool, ghost got: Reaches)
      requires i < qp.Length && w.Wqe? && now < U64 && qp[i].rnrSince < U64 && Able(layer) && WqeFits(w)
      modifies this`nextReqId, this`sqStalled, this`outq, this`host, this`log, qp, pending
      ensures Able(layer)
      ensures Ran(View(), past) == RunHere(old(View()), i, now, Got(w, got))
    {
      past, got := true, NOWHERE;
      if IsSendOp(w.op) {
        past, got := SqSend(i, now, w, layer);
      } else if w.op.OpOther? {
        CompleteSend(i, LocalQpOperErr);
      } else {
        got := SqLocal(i, w, layer);
      }
    }

    method MoveOn(i: nat)
      requires i < qp.Length && qp[i].depth > 0
      modifies this`sqStalled, this`log, qp
      ensures View() == Advance(old(View()), i)
    {
      SqStallClear(i);
      log := log + [Moved(qp[i].mesh, Rem(qp[i].cons, qp[i].depth))];
      qp[i] := qp[i].(cons := (qp[i].cons + 1) % U32, ran := qp[i].ran + 1);
    }

    /** One turn of sq_service(): the queue moves past a WQE, or stops at it. */
    method SqTurn(i: nat, now: nat, w: Wqe, layer: (nat, nat) -> Dma.Answer) returns (past: bool, ghost got: Reaches)
      requires CanServe(View(), i, now) && Able(layer) && WqeFits(w)
      modifies this`nextReqId, this`sqStalled, this`outq, this`host, this`log, qp, pending
      ensures Able(layer)
      ensures View() == Turned(old(View()), i, now, Got(w, got)).dp
      ensures past == Turned(old(View()), i, now, Got(w, got)).past
    {
      ghost var before := View();
      past, got := ProcessSqWqe(i, now, w, layer);
      assert Kept(before.qps[i], View().qps[i]);
      if past {
        MoveOn(i);
      }
    }

    /** Whether a send queue has WQEs before its last doorbell. */
    predicate Undrained(i: nat)
      requires i < qp.Length && qp[i].depth > 0
      reads qp
    {
      Rem(qp[i].cons, qp[i].depth) != qp[i].prod
    }

    /** sq_service()'s loop. */
    method SqRun(i: nat, now: nat, at: nat -> Wqe, layer: (nat, nat) -> Dma.Answer) returns (ghost got: Gone)
      requires CanServe(View(), i, now) && Able(layer) && forall n :: WqeFits(at(n))
      modifies this`nextReqId, this`sqStalled, this`outq, this`host, this`log, qp, pending
      ensures Able(layer)
      ensures View() == ServiceFrom(old(View()), i, now, With(at, got), 0)
    {
      var depth := qp[i].depth;
      var n: nat, more := 0, true;
      ghost var c, v := qp[i].cons, View();
      ghost var ds := [v];
      got := map[];
      while more && n < depth && Undrained(i)
        invariant n <= depth && Able(layer) && View() == v
        invariant 0 < |ds| <= depth + 1 && ds[0] == old(View()) && Courses(ds, v, i, now, at, got, n, more, c, depth)
        decreases depth - n, more
      {
        ghost var g := NOWHERE;
        var s := Rem(qp[i].cons, depth);
        more, g := SqTurn(i, now, at(s), layer);
        TurnTaken(ds, i, now, at, got, n, c, depth, g, Ran(View(), more));
        v, got := View(), got[s := g];
        ds := if more then ds + [v] else ds;
        n := n + 1;
      }
      CoursesEnd(ds, v, i, now, at, got, n, more, c, depth);
    }

    /** sq_service() */
    method SqService(i: nat, now: nat, at: nat -> Wqe, layer: (nat, nat) -> Dma.Answer)
      returns (ghost got: Gone)
      requires CanServe(View(), i, now) && Able(layer) && forall n :: WqeFits(at(n))
      modifies this`nextReqId, this`sqStalled, this`outq, this`host, this`log, qp, pending
      ensures Able(layer)
      ensures View() == Service(old(View()), i, now, With(at, got))
    {
      got := map[];
      if !qp[i].fault {
        got := SqRun(i, now, at, layer);
      }
    }

    /** The send queue's doorbell. */
    method SqDoorbell(i: nat, pIndex: nat, now: nat, at: nat -> Wqe, layer: (nat, nat) -> Dma.Answer)
      returns (ghost got: Gone)
      requires CanServe(View(), i, now) && Able(layer) && forall n :: WqeFits(at(n))
      modifies this`nextReqId, this`sqStalled, this`outq, this`host, this`log, qp, pending
      ensures Able(layer)
      ensures View() == Doorbell(old(View()), i, pIndex, now, With(at, got))
    {
      got := map[];
      if qp[i].valid {
        qp[i] := qp[i].(prod := Rem(pIndex, qp[i].depth));
        log := log + [SqRung(qp[i].mesh)];
        got := SqService(i, now, at, layer);
      }
    }

    /** ionic_datapath_poll()'s retry of stalled send queues. */
    method RetryStalled(now: nat, at: nat -> nat -> Wqe, layer: (nat, nat) -> Dma.Answer)
      returns (ghost got: seq<Gone>)
      requires now < U64 && Shaped(View()) && Able(layer) && forall i, n :: WqeFits(at(i)(n))
      modifies this`nextReqId, this`sqStalled, this`outq, this`host, this`log, qp, pending
      ensures Able(layer)
      ensures View() == RetryFrom(old(View()), 0, now, WithAll(at, got))
    {
      ghost var was := View();
      var i := 0;
      got := [];
      while sqStalled != 0 && i < qp.Length
        invariant i == |got| && i <= qp.Length && Shaped(View()) && Able(layer)
        invariant Retried(was, View(), now, at, got)
        decreases qp.Length - i
      {
        ghost var before, g := View(), map[];
        g := RetryQp(i, now, at(i), layer);
        RetriedOn(was, before, now, at, got, g);
        got := got + [g];
        i := i + 1;
      }
      RetriedEnds(was, View(), now, at, got);
    }

    method RetryQp(i: nat, now: nat, at: nat -> Wqe, layer: (nat, nat) -> Dma.Answer) returns (ghost got: Gone)
      requires now < U64 && i < qp.Length && Shaped(View()) && Able(layer) && forall n :: WqeFits(at(n))
      modifies this`nextReqId, this`sqStalled, this`outq, this`host, this`log, qp, pending
      ensures Able(layer)
      ensures View() == RetryOne(old(View()), i, now, With(at, got))
    {
      got := map[];
      if qp[i].valid && (qp[i].rnr || qp[i].busy) {
        got := SqService(i, now, at, layer);
      }
    }

    // -------------------------------------------------------------------
    // Other nodes' requests
    // -------------------------------------------------------------------

    /** dp_wire_send(), when the message isn't put back. */
    method WireSend(ring: Option<RingName>, ghost src: nat, msg: Msg, recv: Option<seq<Sge>>,
                    layer: (nat, nat) -> Dma.Answer, fault: Status)
      returns (status: Status, ghost f: Found)
      requires Regions.RegionsOk(host.mrs) && Dma.LayerOk(host.mem, layer) && |msg.payload| < U32
      requires recv.Some? ==> forall i :: 0 <= i < |recv.value| ==> recv.value[i].va < U64
      modifies this`host, this`log
      ensures var o := DoSend(old(host), ring, src, msg, f);
        status == o.status && host == o.host && log == old(log) + o.events && f.recv == recv
    {
      f := Found(recv, true, Reach(0, 0), Reach(0, 0), fault);
      if ring.None? {
        return RemoteAccErr, f;
      }
      ghost var h := host;
      var taken := TakeRecv(ring.value, recv);
      if !taken {
        return RnrRetryExceeded, f;
      }
      var data := Brought(msg);
      var got;
      ghost var reach;
      got, reach := ScatterData(recv.value, data, |data|, layer);
      f := f.(reach := reach);
      ghost var d := Deliver(h, ring.value, recv, FromHost(data), reach, fault);
      log := log + [TakenFor(msg, ring.value, src, |data|, d)];
      return Ok, f;
    }

    /** The receive a WRITE_IMM takes. */
    method WireImmediate(ring: RingName, ghost src: nat, msg: Msg, ghost f: Found, recv: Option<seq<Sge>>)
      requires f.recv == recv
      modifies this`host, this`log
      ensures var o := DoImmediate(old(host), ring, src, msg, f); host == o.host && log == old(log) + o.events
    {
      ghost var d := Deliver(host, ring, recv, Immediate(msg.length), f.reach, f.fault);
      var taken := TakeRecv(ring, recv);
      if taken {
        log := log + [TakenFor(msg, ring, src, msg.length, d)];
      } else {
        assert log + [] == log;
      }
    }

    /** dp_wire_write() */
    method WireWrite(ring: Option<RingName>, ghost src: nat, msg: Msg, recv: Option<seq<Sge>>,
                     layer: (nat, nat) -> Dma.Answer, fault: Status)
      returns (status: Status, ghost f: Found)
      requires Regions.RegionsOk(host.mrs) && Dma.LayerOk(host.mem, layer) && |msg.payload| < U32 && msg.va < U64
      modifies this`host, this`log
      ensures var o := DoWrite(old(host), ring, src, msg, f);
        status == o.status && host == o.host && log == old(log) + o.events && f.recv == recv
    {
      f := Found(recv, true, Reach(0, 0), Reach(0, 0), fault);
      assert log + [] == log;
      if msg.length != |msg.payload| || (msg.length != 0 && !Regions.Covers(host.mrs, msg.rkey, msg.va, msg.length)) {
        return RemoteAccErr, f;
      }
      var got;
      ghost var reach;
      got, reach := WriteData(Va(msg.rkey, msg.va), msg.payload, layer);
      f := f.(reach := reach);
      if got != msg.length {
        return RemoteAccErr, f;
      }
      if msg.op.WriteImm? && ring.Some? {
        WireImmediate(ring.value, src, msg, f, recv);
      }
      return Ok, f;
    }

    /** dp_wire_read() */
    method WireRead(msg: Msg, alloc: bool, layer: (nat, nat) -> Dma.Answer)
      returns (status: Status, data: seq<byte>, ghost f: Found)
      requires Regions.RegionsOk(host.mrs) && Dma.LayerOk(host.mem, layer) && msg.va < U64
      ensures var o := DoRead(host, msg, f); status == o.status && data == o.data && f.alloc == alloc
    {
      f := Found(None, alloc, Reach(0, 0), Reach(0, 0), Ok);
      if msg.length > MAX_PAYLOAD || (msg.length > 0 && !alloc) {
        return RemoteAccErr, [], f;
      }
      var got;
      ghost var reach;
      got, data, reach := ReadData(Va(msg.rkey, msg.va), msg.length, layer);
      f := f.(reach := reach);
      if got != msg.length {
        return RemoteAccErr, [], f;
      }
      return Ok, data, f;
    }

    /** One of dp_atomic_apply()'s two transfers: eight bytes of one run. */
    method XferEight(t: Dma.Transfer, v: Va, run: Translate.Run, write: bool, layer: (nat, nat) -> Dma.Answer)
      returns (ok: bool, ghost reach: Reach)
      requires Regions.RegionsOk(host.mrs) && Dma.LayerOk(t.mem, layer) && v.va < U64 && |t.buf| == 8
      requires t.mem == host.mem && run == SgeRun(host.mrs, v) && run.len >= 8 && run.gpa + 8 < U64
      modifies t
      ensures var s := Span(host.mrs, v, 8);
        && (ok <==> Counted(host.mem, s, 8, reach) == 8)
        && t.Now() == CopyBytes(write, old(t.Now()), s[..Went(host.mem, s, 8, reach)], 0)
    {
      ghost var s, was := Span(host.mrs, v, 8), t.Now();
      var rc;
      ghost var moved;
      rc, moved := t.Xfer(layer, write, run.gpa, 0, 8);
      ok := rc == Dma.Done;
      reach := Reach(if ok then 8 else 0, moved);
      AheadNone(v);
      RunMoved(host.mrs, v, 8, 0, run, moved, write, was, was, s, 0, 0, moved);
      WithinAtLeast(host.mem, s, moved);
    }

    /** dp_atomic_apply() */
    method ApplyEight(v: Va, run: Translate.Run, a: Atomic, layer: (nat, nat) -> Dma.Answer)
      returns (ok: bool, was: seq<byte>, ghost reach: Reach, ghost again: Reach)
      requires Able(layer) && v.va < U64 && run == SgeRun(host.mrs, v) && run.len >= 8
      modifies this`host
      ensures Able(layer)
      ensures Swapped(host, ok, was) == SwapEight(old(host), v, a, reach, again)
    {
      ok, was, reach, again := false, [], Reach(0, 0), Reach(0, 0);
      if run.gpa + 8 >= U64 {
        return;
      }
      ghost var h, s := host, Span(host.mrs, v, 8);
      var t := new Dma.Transfer(host.mem, seq(8, i => 0));
      ghost var before := t.Now();
      ok, reach := XferEight(t, v, run, false, layer);
      if !ok {
        return;
      }
      AllCounted(host.mem, s, 8, reach);
      assert s[..8] == s;
      ReadInto(before, s);
      var data := t.buf;
      var u := new Dma.Transfer(host.mem, NewBytes(a, data));
      ok, again := XferEight(u, v, run, true, layer);
      PutKeys(h.mem, s, NewBytes(a, data), Went(h.mem, s, 8, again));
      Dma.LayerStays(h.mem, u.mem, layer);
      host := host.(mem := u.mem);
      was := if ok then data else [];
    }

    /** dp_wire_atomic() */
    method WireAtomic(msg: Msg, layer: (nat, nat) -> Dma.Answer)
      returns (status: Status, data: seq<byte>, ghost f: Found)
      requires Regions.RegionsOk(host.mrs) && Dma.LayerOk(host.mem, layer) && msg.va < U64
      modifies this`host
      ensures var o := DoAtomic(old(host), msg, f); status == o.status && data == o.data && host == o.host
    {
      f := Found(None, true, Reach(0, 0), Reach(0, 0), Ok);
      var v := Va(msg.rkey, msg.va);
      var run := SgeGpa(host.mrs, v);
      if run.len < 8 {
        return RemoteAccErr, [], f;
      }
      var ok;
      ghost var reach, again;
      ok, data, reach, again := ApplyEight(v, run, msg.atomic, layer);
      f := f.(reach := reach, again := again);
      status := if ok then Ok else RemoteAccErr;
    }

    /** dp_handle_wire(), for a request that isn't put back: what its reply is to
        carry. */
    method HandleRequest(ring: Option<RingName>, ghost src: nat, msg: Msg, recv: Option<seq<Sge>>, alloc: bool,
                         layer: (nat, nat) -> Dma.Answer, fault: Status)
      returns (status: Status, data: seq<byte>, ghost f: Found)
      requires Regions.RegionsOk(host.mrs) && Dma.LayerOk(host.mem, layer) && |msg.payload| < U32 && msg.va < U64
      requires recv.Some? ==> forall i :: 0 <= i < |recv.value| ==> recv.value[i].va < U64
      modifies this`host, this`log
      ensures var o := Execute(old(host), ring, src, msg, f);
        status == o.status && data == o.data && host == o.host && log == old(log) + o.events
    {
      data := [];
      assert log + [] == log;
      if IsSend(msg.op) {
        status, f := WireSend(ring, src, msg, recv, layer, fault);
        return;
      }
      f := Found(recv, alloc, Reach(0, 0), Reach(0, 0), fault);
      if msg.rkey == 0 && msg.length > 0 {
        return RemoteAccErr, [], f;
      }
      if IsWrite(msg.op) {
        status, f := WireWrite(ring, src, msg, recv, layer, fault);
      } else if msg.op.ReadReq? {
        status, data, f := WireRead(msg, alloc, layer);
      } else if msg.op.AtomicReq? {
        status, data, f := WireAtomic(msg, layer);
      } else {
        status := RemoteAccErr;
      }
    }
  }
}
