/** The send side's books: how its state and its journal agree. From this
    follow that every request has exactly one end, and every WQE one fate. */
module Ledger {
  import opened Arith
  import opened Wire
  import opened Journal
  import opened RecvRings
  import opened Host
  import opened SendQueue
  import opened SendQueueInv

  // ---------------------------------------------------------------------
  // Requests
  // ---------------------------------------------------------------------

  predicate InPend(t: Table, r: nat) {
    exists s :: 0 <= s < |t| && Holds(t[s], r)
  }

  /** Whether an entry is what a request was sent with. */
  predicate Describes(e: Event, p: Pending) {
    && e.Sent? && e.completes == Completes(p) && e.msn == (if p.useMsn then Some(p.msn) else None)
    && e.mesh == p.mesh && e.msg.srcQp == p.qp && e.local == p.local && AnswerSize(e.msg) == p.length
  }

  predicate Described(log: Log, p: Pending) {
    SentOf(log, p.req).Some? && Describes(SentOf(log, p.req).value, p)
  }

  predicate AllDescribed(t: Table, log: Log) {
    forall s :: 0 <= s < |t| && t[s].Some? ==> Described(log, t[s].value)
  }

  /** The table holds exactly the requests handed to the mesh and not retired
      since, each as it was sent, and none of them has been completed. */
  ghost predicate ReqsOk(t: Table, nextReq: nat, log: Log) {
    && Sound(log)
    && (forall r: nat :: InPend(t, r) ==> Open(log, r) && Tally(log, KAnswer(r)) == 0)
    && (forall r: nat :: Open(log, r) ==> InPend(t, r))
    && (forall r: nat :: r > nextReq ==> Tally(log, KSent(r)) == 0)
    && AllDescribed(t, log) && !Unsettled(log)
  }

  /** An event that is about no request, and leaves nothing to be settled. */
  predicate AboutNone(e: Event) {
    !e.Sent? && !e.Landed? && !e.Retired? && !(e.Cqe? && e.cause.ByReq?) && !LocalTake(e)
  }

  lemma {:induction false} TallyAfter(log: Log, e: Event)
    ensures forall key :: Tally(log + [e], key) == Tally(log, key) + (if Hits(e, key) then 1 else 0)
  {
  }

  lemma {:induction false} SentAfter(log: Log, e: Event, r: nat)
    ensures SentOf(log + [e], r) == if e.Sent? && e.req == r then Some(e) else SentOf(log, r)
  {
  }

  lemma {:induction false} DescribedAfter(t: Table, t': Table, log: Log, e: Event)
    requires AllDescribed(t, log) && SubTable(t, t') && !e.Sent?
    ensures AllDescribed(t', log + [e])
  {
    forall s | 0 <= s < |t'| && t'[s].Some? ensures Described(log + [e], t'[s].value) {
      SentAfter(log, e, t'[s].value.req);
    }
  }

  lemma {:induction false} OtherEvent(t: Table, nextReq: nat, log: Log, e: Event)
    requires ReqsOk(t, nextReq, log) && AboutNone(e) && MayFollow(log, e)
    ensures ReqsOk(t, nextReq, log + [e])
  {
    SoundOne(log, e);
    TallyAfter(log, e);
    DescribedAfter(t, t, log, e);
  }

  /** A receive taken for a WQE, and the WQE's completion. */
  lemma {:induction false} TakenEvents(t: Table, nextReq: nat, log: Log, take: Event, e: Event)
    requires ReqsOk(t, nextReq, log) && LocalTake(take) && MayFollow(log, take)
    requires AboutNone(e) && MayFollow(log + [take], e)
    ensures ReqsOk(t, nextReq, log + [take] + [e])
  {
    SoundOne(log, take);
    TallyAfter(log, take);
    DescribedAfter(t, t, log, take);
    SoundOne(log + [take], e);
    TallyAfter(log + [take], e);
    DescribedAfter(t, t, log + [take], e);
  }

  lemma {:induction false} LandEvent(t: Table, nextReq: nat, log: Log, s: nat, data: seq<byte>)
    requires ReqsOk(t, nextReq, log) && s < |t| && t[s].Some? && |data| <= t[s].value.length
    ensures ReqsOk(t, nextReq, log + [Landed(t[s].value.req, t[s].value.local, data)])
  {
    var e := Landed(t[s].value.req, t[s].value.local, data);
    assert Holds(t[s], t[s].value.req);
    SoundOne(log, e);
    TallyAfter(log, e);
    DescribedAfter(t, t, log, e);
  }

  lemma {:induction false} PendGone(t: Table, s: nat)
    requires Distinct(t) && s < |t| && t[s].Some?
    ensures forall r: nat :: InPend(t[s := None], r) <==> (InPend(t, r) && r != t[s].value.req)
  {
    var t' := t[s := None];
    forall r: nat ensures InPend(t', r) <==> (InPend(t, r) && r != t[s].value.req) {
      if InPend(t', r) {
        var a :| 0 <= a < |t'| && Holds(t'[a], r);
        assert Holds(t[a], r);
      }
      if InPend(t, r) && r != t[s].value.req {
        var a :| 0 <= a < |t| && Holds(t[a], r);
        assert Holds(t'[a], r);
      }
    }
  }

  lemma {:induction false} PendNew(t: Table, s: nat, p: Pending)
    requires s < |t| && t[s].None?
    ensures forall r: nat :: InPend(t[s := Some(p)], r) <==> (InPend(t, r) || r == p.req)
  {
    var t' := t[s := Some(p)];
    assert Holds(t'[s], p.req);
    forall r: nat ensures InPend(t', r) <==> (InPend(t, r) || r == p.req) {
      if InPend(t', r) {
        var a :| 0 <= a < |t'| && Holds(t'[a], r);
        assert a != s ==> Holds(t[a], r);
      }
      if InPend(t, r) {
        var a :| 0 <= a < |t| && Holds(t[a], r);
        assert Holds(t'[a], r);
      }
    }
  }

  /** A request's retirement leaves the books of the rest. */
  lemma {:induction false} Retiring(t: Table, nextReq: nat, log: Log, s: nat, e: Event)
    requires Sound(log) && !Unsettled(log) && MayFollow(log, e) && e.Retired? && AllDescribed(t, log)
    requires Distinct(t) && s < |t| && t[s].Some? && e.req == t[s].value.req
    requires forall r: nat :: r != e.req && InPend(t, r) ==> Open(log, r) && Tally(log, KAnswer(r)) == 0
    requires forall r: nat :: Open(log, r) ==> InPend(t, r)
    requires forall r: nat :: r > nextReq ==> Tally(log, KSent(r)) == 0
    ensures ReqsOk(t[s := None], nextReq, log + [e])
  {
    var t', log' := t[s := None], log + [e];
    PendGone(t, s);
    TallyAfter(log, e);
    SoundOne(log, e);
    DescribedAfter(t, t', log, e);
    forall x: nat | InPend(t', x) ensures Open(log', x) && Tally(log', KAnswer(x)) == 0 {
      assert InPend(t, x);
    }
    forall x: nat | Open(log', x) ensures InPend(t', x) {
      assert Open(log, x) && x != e.req;
    }
  }

  lemma {:induction false} RetireSilently(t: Table, nextReq: nat, log: Log, s: nat, how: How)
    requires ReqsOk(t, nextReq, log) && Distinct(t) && s < |t| && t[s].Some?
    requires how.Cancelled? || !Completes(t[s].value)
    ensures ReqsOk(t[s := None], nextReq, log + [Retired(t[s].value.req, how, false)])
  {
    assert Holds(t[s], t[s].value.req);
    Retiring(t, nextReq, log, s, Retired(t[s].value.req, how, false));
  }

  /** The completion a request was promised. */
  function CqeOf(p: Pending, status: Status): (e: Event) {
    Cqe(p.qp, ByReq(p.req), if p.useMsn then Some(p.msn) else None, status)
  }

  lemma {:induction false} RetireWithCqe(t: Table, nextReq: nat, log: Log, s: nat, how: How, status: Status)
    requires ReqsOk(t, nextReq, log) && Distinct(t) && s < |t| && t[s].Some? && !how.Cancelled?
    requires Completes(t[s].value) && RegOf(log, t[s].value.qp) == Some(t[s].value.mesh)
    ensures ReqsOk(t[s := None], nextReq, log + [CqeOf(t[s].value, status)] + [Retired(t[s].value.req, how, true)])
  {
    var cqe, done := CqeOf(t[s].value, status), Retired(t[s].value.req, how, true);
    assert Holds(t[s], t[s].value.req);
    SoundOne(log, cqe);
    TallyAfter(log, cqe);
    DescribedAfter(t, t, log, cqe);
    SentAfter(log, cqe, t[s].value.req);
    Retiring(t, nextReq, log + [cqe], s, done);
  }

  lemma {:induction false} SendDescribed(t: Table, nextReq: nat, log: Log, s: nat, p: Pending, sent: Event)
    requires AllDescribed(t, log) && s < |t| && Describes(sent, p) && sent.req == p.req
    requires Tally(log, KSent(p.req)) == 0
    ensures AllDescribed(t[s := Some(p)], log + [sent])
  {
    var t' := t[s := Some(p)];
    SentOfTally(log, p.req);
    forall x | 0 <= x < |t'| && t'[x].Some? ensures Described(log + [sent], t'[x].value) {
      SentAfter(log, sent, t'[x].value.req);
    }
  }

  lemma {:induction false} SendReq(t: Table, nextReq: nat, log: Log, s: nat, p: Pending, sent: Event)
    requires ReqsOk(t, nextReq, log) && s < |t| && t[s].None? && Describes(sent, p)
    requires sent.req == p.req == nextReq + 1 && MayFollow(log, sent)
    ensures ReqsOk(t[s := Some(p)], nextReq + 1, log + [sent])
  {
    PendNew(t, s, p);
    TallyAfter(log, sent);
    SoundOne(log, sent);
    AtMostOnce(log, p.req);
    SendDescribed(t, nextReq, log, s, p, sent);
    var log' := log + [sent];
    forall x: nat | InPend(t[s := Some(p)], x) ensures Open(log', x) && Tally(log', KAnswer(x)) == 0 {
      assert InPend(t, x) || x == p.req;
    }
    forall x: nat | Open(log', x) ensures InPend(t[s := Some(p)], x) {
      assert x != p.req ==> Open(log, x);
    }
  }

  lemma {:induction false} DistinctSub(a: Table, b: Table)
    requires Distinct(a) && SubTable(a, b)
    ensures Distinct(b)
  {
  }

  lemma {:induction false} WithoutNext(t: Table, n: nat, qp: nat)
    requires n < |t|
    ensures Without(t, n + 1, qp) == if Owned(t[n], qp) then Without(t, n, qp)[n := None] else Without(t, n, qp)
    ensures SubTable(t, Without(t, n, qp)) && Without(t, n, qp)[n] == t[n]
  {
  }

  lemma {:induction false} DroppedNext(log: Log, t: Table, n: nat, qp: nat)
    requires n < |t|
    ensures log + Dropped(t, n + 1, qp)
         == log + Dropped(t, n, qp) + if Owned(t[n], qp) then [Retired(t[n].value.req, Cancelled, false)] else []
  {
  }

  /** One entry's turn: it is dropped, or left. */
  lemma {:induction false} CancelOne(t: Table, t': Table, nextReq: nat, log: Log, log': Log, s: nat, drop: bool)
    requires ReqsOk(t, nextReq, log) && Distinct(t) && s < |t| && (drop ==> t[s].Some?)
    requires t' == if drop then t[s := None] else t
    requires log' == log + if drop then [Retired(t[s].value.req, Cancelled, false)] else []
    ensures ReqsOk(t', nextReq, log')
  {
    if drop {
      RetireSilently(t, nextReq, log, s, Cancelled);
    } else {
      assert log' == log;
    }
  }

  lemma {:induction false} CancelReqs(t: Table, nextReq: nat, log: Log, n: nat, qp: nat)
    requires ReqsOk(t, nextReq, log) && Distinct(t) && n <= |t|
    ensures ReqsOk(Without(t, n, qp), nextReq, log + Dropped(t, n, qp))
  {
    if n == 0 {
      assert Without(t, 0, qp) == t;
      assert log + Dropped(t, 0, qp) == log;
    } else {
      var k := n - 1;
      CancelReqs(t, nextReq, log, k, qp);
      WithoutNext(t, k, qp);
      DroppedNext(log, t, k, qp);
      DistinctSub(t, Without(t, k, qp));
      CancelOne(Without(t, k, qp), Without(t, n, qp), nextReq, log + Dropped(t, k, qp), log + Dropped(t, n, qp), k,
                Owned(t[k], qp));
    }
  }

  // ---------------------------------------------------------------------
  // Registrations
  // ---------------------------------------------------------------------

  /** Whether e is part of what registration m's send queue has done. */
  predicate Affects(e: Event, m: nat) {
    || (e.Moved? && e.mesh == m)
    || (e.Cqe? && e.cause.ByWqe? && e.cause.mesh == m)
    || (e.Sent? && e.mesh == m && (e.completes || e.msn.Some?))
    || (e.Opened? && e.mesh == m)
  }

  /** Registration m has moved past its first n WQEs, the next open to whether
      it has run; each of a connected QP's has exactly one fate. */
  ghost predicate Books(log: Log, m: nat, n: nat, connected: bool, mid: bool) {
    && Tally(log, KMoved(m)) == n
    && (Tally(log, KOpen(m)) > 0 <==> connected)
    && (forall k: nat :: k > n ==> Tally(log, KFate(m, k)) == 0)
    && (!mid ==> Tally(log, KFate(m, n)) == 0)
    && (mid && connected ==> Tally(log, KFate(m, n)) == 1)
    && (connected ==> forall k: nat :: k < n ==> Tally(log, KFate(m, k)) == 1)
  }

  lemma {:induction false} BooksFrame(log: Log, e: Event, m: nat, n: nat, connected: bool, mid: bool)
    requires Books(log, m, n, connected, mid) && !Affects(e, m)
    ensures Books(log + [e], m, n, connected, mid)
    ensures Tally(log + [e], KMsn(m)) == Tally(log, KMsn(m))
  {
    TallyAfter(log, e);
  }

  ghost predicate QpBooks(q: Qp, log: Log, mid: bool) {
    && Books(log, q.mesh, q.ran, !IsDatagram(q.kind), mid)
    && q.msn == Tally(log, KMsn(q.mesh)) % U32
  }

  /** A registration that is gone: what it moved past keeps its fate. */
  ghost predicate Settled(log: Log, m: nat) {
    Tally(log, KOpen(m)) > 0 ==>
      forall k: nat :: k < Tally(log, KMoved(m)) ==> Tally(log, KFate(m, k)) == 1
  }

  predicate MeshesApart(qps: seq<Qp>) {
    forall i, j :: 0 <= i < j < |qps| && qps[i].valid && qps[j].valid ==> qps[i].mesh != qps[j].mesh
  }

  /** The books of every registration there has been or is to be. mid names the
      QP that is between running a WQE and moving past it, if any. */
  ghost predicate MeshesOk(qps: seq<Qp>, nextMesh: nat, log: Log, mid: int) {
    && (forall i :: 0 <= i < |qps| && qps[i].valid ==> qps[i].mesh <= nextMesh && QpBooks(qps[i], log, i == mid))
    && MeshesApart(qps)
    && (forall m: nat :: m > nextMesh ==> Books(log, m, 0, false, false) && Tally(log, KMsn(m)) == 0)
    && (forall m: nat :: m <= nextMesh ==> Settled(log, m))
  }

  /** An event that is no send queue's fate, move or registration. */
  predicate Quiet(e: Event) {
    !e.Moved? && !(e.Cqe? && e.cause.ByWqe?) && !e.Opened? && !(e.Sent? && (e.completes || e.msn.Some?))
  }

  lemma {:induction false} QuietSettled(log: Log, e: Event, m: nat)
    requires Settled(log, m) && !Affects(e, m)
    ensures Settled(log + [e], m)
  {
  }

  lemma {:induction false} QuietEvent(qps: seq<Qp>, nextMesh: nat, log: Log, mid: int, e: Event)
    requires MeshesOk(qps, nextMesh, log, mid) && Quiet(e)
    ensures MeshesOk(qps, nextMesh, log + [e], mid)
  {
    forall i | 0 <= i < |qps| && qps[i].valid ensures QpBooks(qps[i], log + [e], i == mid) {
      BooksFrame(log, e, qps[i].mesh, qps[i].ran, !IsDatagram(qps[i].kind), i == mid);
    }
    forall m: nat | m > nextMesh
      ensures Books(log + [e], m, 0, false, false) && Tally(log + [e], KMsn(m)) == 0
    {
      BooksFrame(log, e, m, 0, false, false);
    }
    forall m: nat | m <= nextMesh ensures Settled(log + [e], m) {
      QuietSettled(log, e, m);
    }
  }

  lemma {:induction false} QuietDrops(qps: seq<Qp>, nextMesh: nat, log: Log, mid: int, t: Table, n: nat, qp: nat)
    requires MeshesOk(qps, nextMesh, log, mid) && n <= |t|
    ensures MeshesOk(qps, nextMesh, log + Dropped(t, n, qp), mid)
  {
    if n == 0 {
      assert log + [] == log;
    } else {
      QuietDrops(qps, nextMesh, log, mid, t, n - 1, qp);
      var log1 := log + Dropped(t, n - 1, qp);
      if Owned(t[n - 1], qp) {
        var e := Retired(t[n - 1].value.req, Cancelled, false);
        QuietEvent(qps, nextMesh, log1, mid, e);
        assert log + Dropped(t, n, qp) == log1 + [e];
      } else {
        assert log + Dropped(t, n, qp) == log1;
      }
    }
  }

  /** A QP's flags and rings are not part of its books. */
  predicate SameBooks(a: Qp, b: Qp) {
    b.valid ==> a.valid && b.mesh == a.mesh && b.ran == a.ran && b.kind == a.kind && b.msn == a.msn
  }

  // ---------------------------------------------------------------------
  // One WQE's events
  // ---------------------------------------------------------------------

  /** e is the fate of the WQE QP q is running: its completion, or the request
      parked for it. */
  predicate IsFate(e: Event, q: Qp) {
    || (e.Cqe? && e.cause == ByWqe(q.mesh, q.ran))
    || (e.Sent? && e.mesh == q.mesh && e.k == q.ran && e.completes)
  }

  /** q once e has given out the message sequence number it did, if it did. */
  function TookMsn(q: Qp, e: Event): (r: Qp)
    requires e.Cqe? || e.Sent?
  {
    if e.msn.Some? then q.(msn := e.msn.value) else q
  }

  predicate MsnFits(e: Event, q: Qp) {
    (e.Cqe? || e.Sent?) && (e.msn.Some? ==> e.msn.value == NextMsn(q))
  }

  lemma {:induction false} FateInBooks(log: Log, q: Qp, e: Event)
    requires Books(log, q.mesh, q.ran, !IsDatagram(q.kind), false) && IsFate(e, q)
    ensures Books(log + [e], q.mesh, q.ran, !IsDatagram(q.kind), true)
  {
  }

  lemma {:induction false} FateMsn(log: Log, q: Qp, e: Event)
    requires q.msn == Tally(log, KMsn(q.mesh)) % U32 && IsFate(e, q) && MsnFits(e, q)
    ensures TookMsn(q, e).msn == Tally(log + [e], KMsn(q.mesh)) % U32
  {
  }

  lemma {:induction false} FateBooks(log: Log, q: Qp, e: Event)
    requires QpBooks(q, log, false) && IsFate(e, q) && MsnFits(e, q)
    ensures QpBooks(TookMsn(q, e), log + [e], true)
  {
    FateInBooks(log, q, e);
    FateMsn(log, q, e);
  }

  lemma {:induction false} FateSettled(log: Log, q: Qp, e: Event)
    requires QpBooks(q, log, false) && IsFate(e, q) && Settled(log, q.mesh)
    ensures Settled(log + [e], q.mesh)
  {
  }

  lemma {:induction false} OtherMesh(qps: seq<Qp>, i: nat, j: nat)
    requires MeshesApart(qps) && i < |qps| && j < |qps| && i != j && qps[i].valid && qps[j].valid
    ensures qps[i].mesh != qps[j].mesh
  {
  }

  /** A WQE's fate enters the books of its own QP and of no other. */
  lemma {:induction false} FateEvent(qps: seq<Qp>, nextMesh: nat, log: Log, i: nat, e: Event)
    requires MeshesOk(qps, nextMesh, log, -1) && i < |qps| && qps[i].valid
    requires IsFate(e, qps[i]) && MsnFits(e, qps[i])
    ensures MeshesOk(qps[i := TookMsn(qps[i], e)], nextMesh, log + [e], i)
  {
    var q := qps[i];
    var qps' := qps[i := TookMsn(q, e)];
    var log' := log + [e];
    forall j | 0 <= j < |qps'| && qps'[j].valid
      ensures qps'[j].mesh <= nextMesh && QpBooks(qps'[j], log', j == i)
    {
      if j == i {
        FateBooks(log, q, e);
      } else {
        OtherMesh(qps, i, j);
        BooksFrame(log, e, qps[j].mesh, qps[j].ran, !IsDatagram(qps[j].kind), false);
      }
    }
    forall m: nat | m > nextMesh
      ensures Books(log', m, 0, false, false) && Tally(log', KMsn(m)) == 0
    {
      BooksFrame(log, e, m, 0, false, false);
    }
    forall m: nat | m <= nextMesh ensures Settled(log', m) {
      if m == q.mesh {
        FateSettled(log, q, e);
      } else {
        QuietSettled(log, e, m);
      }
    }
  }

  lemma {:induction false} MovedBooks(log: Log, q: Qp, slot: nat)
    requires QpBooks(q, log, true)
    ensures QpBooks(q.(ran := q.ran + 1), log + [Moved(q.mesh, slot)], false)
    ensures Settled(log + [Moved(q.mesh, slot)], q.mesh)
  {
  }

  lemma {:induction false} MovedEvent(qps: seq<Qp>, nextMesh: nat, log: Log, i: nat, slot: nat)
    requires MeshesOk(qps, nextMesh, log, i) && i < |qps| && qps[i].valid
    ensures MeshesOk(qps[i := qps[i].(ran := qps[i].ran + 1)], nextMesh, log + [Moved(qps[i].mesh, slot)], -1)
  {
    var q := qps[i];
    var e := Moved(q.mesh, slot);
    var qps' := qps[i := q.(ran := q.ran + 1)];
    var log' := log + [e];
    MovedBooks(log, q, slot);
    forall j | 0 <= j < |qps'| && qps'[j].valid
      ensures qps'[j].mesh <= nextMesh && QpBooks(qps'[j], log', false)
    {
      if j != i {
        OtherMesh(qps, i, j);
        BooksFrame(log, e, qps[j].mesh, qps[j].ran, !IsDatagram(qps[j].kind), false);
      }
    }
    forall m: nat | m > nextMesh
      ensures Books(log', m, 0, false, false) && Tally(log', KMsn(m)) == 0
    {
      BooksFrame(log, e, m, 0, false, false);
    }
    forall m: nat | m <= nextMesh ensures Settled(log', m) {
      if m != q.mesh {
        QuietSettled(log, e, m);
      }
    }
  }

  lemma {:induction false} OpenedEvent(qps: seq<Qp>, nextMesh: nat, log: Log, i: nat, q: Qp)
    requires MeshesOk(qps, nextMesh, log, -1) && i < |qps|
    requires q.mesh == nextMesh + 1 && q.ran == 0 && q.msn == 0
    ensures MeshesOk(qps[i := q], nextMesh + 1, log + [Opened(i, q.mesh, !IsDatagram(q.kind))], -1)
  {
    var e := Opened(i, q.mesh, !IsDatagram(q.kind));
    var qps' := qps[i := q];
    var log' := log + [e];
    assert Books(log, q.mesh, 0, false, false);
    TallyAfter(log, e);
    assert QpBooks(q, log', false);
    forall j | 0 <= j < |qps'| && qps'[j].valid
      ensures qps'[j].mesh <= nextMesh + 1 && QpBooks(qps'[j], log', false)
    {
      if j != i {
        BooksFrame(log, e, qps[j].mesh, qps[j].ran, !IsDatagram(qps[j].kind), false);
      }
    }
    forall m: nat | m > nextMesh + 1
      ensures Books(log', m, 0, false, false) && Tally(log', KMsn(m)) == 0
    {
      BooksFrame(log, e, m, 0, false, false);
    }
    forall m: nat | m <= nextMesh + 1 ensures Settled(log', m) {
      if m <= nextMesh {
        QuietSettled(log, e, m);
      }
    }
  }

  // ---------------------------------------------------------------------
  // What a registration's send queue is at
  // ---------------------------------------------------------------------

  /** Nothing before its last doorbell is left to run. */
  predicate Idle(q: Qp) { q.depth > 0 && !q.fault && Drained(q) }

  /** QP i's present registration, whether it has been flushed, and since when
      the WQE it is at has waited for a receive. */
  ghost predicate QpNow(q: Qp, i: nat, log: Log, mid: bool) {
    && RegOf(log, i) == Some(q.mesh)
    && (Halted(log, q.mesh) ==> !mid && Idle(q))
    && (q.rnr ==> WaitsSince(log, q.mesh) == Some(q.rnrSince))
    && (!q.rnr && !q.fault ==> WaitsSince(log, q.mesh).None?)
  }

  ghost predicate NowOk(qps: seq<Qp>, nextMesh: nat, log: Log, mid: int) {
    && LastReg(log) <= nextMesh
    && (forall i :: 0 <= i < |qps| && qps[i].valid ==> QpNow(qps[i], i, log, i == mid))
    && (forall m: nat :: m > nextMesh ==> !Halted(log, m) && WaitsSince(log, m).None?)
  }

  /** An event that none of that depends on. */
  predicate Still(e: Event) { !e.Opened? && !e.Flushed? && !e.SqRung? && !e.Waited? && !e.Moved? }

  /** What one event does to it. */
  lemma {:induction false} NowAfter(log: Log, e: Event, m: nat)
    ensures Halted(log + [e], m)
         <==> if e.Flushed? && e.mesh == m then true else if e == SqRung(m) then false else Halted(log, m)
    ensures WaitsSince(log + [e], m)
         == if (e.Moved? || e.Flushed?) && e.mesh == m then None
            else if e.Waited? && e.mesh == m && WaitsSince(log, m).None? then Some(e.now)
            else WaitsSince(log, m)
  {
  }

  lemma {:induction false} RegAfter(log: Log, e: Event, i: nat)
    ensures RegOf(log + [e], i) == if e.Opened? && e.qp == i then Some(e.mesh) else RegOf(log, i)
    ensures LastReg(log + [e]) == if e.Opened? then e.mesh else LastReg(log)
  {
  }

  /** Whether e has to do with what registration m's send queue is at. */
  predicate Stirs(e: Event, m: nat) {
    (e.Flushed? || e.SqRung? || e.Waited? || e.Moved?) && e.mesh == m
  }

  lemma {:induction false} QpNowFrame(q: Qp, i: nat, log: Log, mid: bool, e: Event)
    requires QpNow(q, i, log, mid) && !Stirs(e, q.mesh) && !(e.Opened? && e.qp == i)
    ensures QpNow(q, i, log + [e], mid)
  {
    NowAfter(log, e, q.mesh);
    RegAfter(log, e, i);
  }

  lemma {:induction false} NewNowFrame(nextMesh: nat, log: Log, e: Event)
    requires forall m: nat :: m > nextMesh ==> !Halted(log, m) && WaitsSince(log, m).None?
    requires (e.Flushed? || e.SqRung? || e.Waited? || e.Moved?) ==> e.mesh <= nextMesh
    ensures forall m: nat :: m > nextMesh ==> !Halted(log + [e], m) && WaitsSince(log + [e], m).None?
  {
    forall m: nat | m > nextMesh ensures !Halted(log + [e], m) && WaitsSince(log + [e], m).None? {
      NowAfter(log, e, m);
    }
  }

  lemma {:induction false} StillNow(qps: seq<Qp>, nextMesh: nat, log: Log, mid: int, e: Event)
    requires NowOk(qps, nextMesh, log, mid) && Still(e)
    ensures NowOk(qps, nextMesh, log + [e], mid)
  {
    NewNowFrame(nextMesh, log, e);
    RegAfter(log, e, 0);
    forall i | 0 <= i < |qps| && qps[i].valid ensures QpNow(qps[i], i, log + [e], i == mid) {
      QpNowFrame(qps[i], i, log, i == mid, e);
    }
  }

  lemma {:induction false} DropsNow(qps: seq<Qp>, nextMesh: nat, log: Log, mid: int, t: Table, n: nat, qp: nat)
    requires NowOk(qps, nextMesh, log, mid) && n <= |t|
    ensures NowOk(qps, nextMesh, log + Dropped(t, n, qp), mid)
  {
    if n == 0 {
      assert log + [] == log;
    } else {
      DropsNow(qps, nextMesh, log, mid, t, n - 1, qp);
      var log1 := log + Dropped(t, n - 1, qp);
      if Owned(t[n - 1], qp) {
        var e := Retired(t[n - 1].value.req, Cancelled, false);
        StillNow(qps, nextMesh, log1, mid, e);
        assert log + Dropped(t, n, qp) == log1 + [e];
      } else {
        assert log + Dropped(t, n, qp) == log1;
      }
    }
  }

  /** What of a QP that is about. */
  predicate SameNow(a: Qp, b: Qp) {
    b.valid ==>
      && a.valid && b.mesh == a.mesh && b.rnr == a.rnr && b.rnrSince == a.rnrSince && b.fault == a.fault
      && b.cons == a.cons && b.prod == a.prod && b.depth == a.depth
  }

  lemma {:induction false} FlagsNow(qps: seq<Qp>, nextMesh: nat, log: Log, mid: int, i: nat, q: Qp)
    requires NowOk(qps, nextMesh, log, mid) && i < |qps| && SameNow(qps[i], q)
    ensures NowOk(qps[i := q], nextMesh, log, mid)
  {
  }

  /** The send queue runs a WQE, or has moved past it. */
  lemma {:induction false} MidNow(qps: seq<Qp>, nextMesh: nat, log: Log, i: nat)
    requires NowOk(qps, nextMesh, log, -1) && i < |qps| && (qps[i].valid ==> !Halted(log, qps[i].mesh))
    ensures NowOk(qps, nextMesh, log, i)
  {
  }

  /** An event of one QP's own send queue, and the QP after it. */
  lemma {:induction false} OwnNow(qps: seq<Qp>, nextMesh: nat, log: Log, mid: int, i: nat, q: Qp, e: Event)
    requires NowOk(qps, nextMesh, log, mid) && MeshesApart(qps) && i < |qps| && (mid == -1 || mid == i)
    requires qps[i].valid && q.valid && qps[i].mesh == q.mesh <= nextMesh && Stirs(e, q.mesh)
    requires QpNow(q, i, log + [e], false)
    ensures NowOk(qps[i := q], nextMesh, log + [e], -1)
  {
    NewNowFrame(nextMesh, log, e);
    RegAfter(log, e, 0);
    var qps' := qps[i := q];
    forall j | 0 <= j < |qps'| && qps'[j].valid ensures QpNow(qps'[j], j, log + [e], false) {
      if j != i {
        OtherMesh(qps, i, j);
        QpNowFrame(qps[j], j, log, j == mid, e);
      }
    }
  }

  lemma {:induction false} OpenedNow(qps: seq<Qp>, nextMesh: nat, log: Log, i: nat, q: Qp, e: Event)
    requires NowOk(qps, nextMesh, log, -1) && i < |qps|
    requires q.mesh == nextMesh + 1 && !q.rnr && e.Opened? && e.qp == i && e.mesh == q.mesh
    requires forall j :: 0 <= j < |qps| && qps[j].valid ==> qps[j].mesh <= nextMesh
    ensures NowOk(qps[i := q], nextMesh + 1, log + [e], -1)
  {
    var qps' := qps[i := q];
    RegAfter(log, e, i);
    NewNowFrame(nextMesh, log, e);
    forall j | 0 <= j < |qps'| && qps'[j].valid ensures QpNow(qps'[j], j, log + [e], false) {
      if j != i {
        QpNowFrame(qps[j], j, log, false, e);
      }
    }
  }

  // ---------------------------------------------------------------------
  // Receive rings
  // ---------------------------------------------------------------------

  /** A ring's counters are the receives posted and taken since it was set up,
      as 32-bit counts. */
  predicate RingTrue(r: RecvRing, log: Log, ring: RingName) {
    r.cons == TakenFrom(log, ring) % U32 && r.prod == PostedTo(log, ring) % U32
  }

  ghost predicate RingsOk(h: Host, log: Log) {
    forall ring :: HasRing(h, ring) ==> RingTrue(RingAt(h, ring), log, ring)
  }

  lemma {:induction false} RingAfter(log: Log, e: Event, ring: RingName)
    ensures TakenFrom(log + [e], ring)
         == if e == RingReset(ring) then 0 else TakenFrom(log, ring) + (if e.Received? && e.ring == ring then 1 else 0)
    ensures PostedTo(log + [e], ring)
         == if e == RingReset(ring) then 0 else PostedTo(log, ring) + (if e.Posted? && e.ring == ring then e.n else 0)
  {
  }

  /** An event of no ring. */
  predicate Ringless(e: Event) { !e.RingReset? && !e.Posted? && !e.Received? }

  lemma {:induction false} SameRings(h: Host, h': Host, log: Log)
    requires RingsOk(h, log) && h'.rq == h.rq && h'.srq == h.srq
    ensures RingsOk(h', log)
  {
    forall ring | HasRing(h', ring) ensures RingTrue(RingAt(h', ring), log, ring) {
      assert HasRing(h, ring) && RingAt(h', ring) == RingAt(h, ring);
    }
  }

  lemma {:induction false} RinglessEvent(h: Host, log: Log, e: Event)
    requires RingsOk(h, log) && Ringless(e)
    ensures RingsOk(h, log + [e])
  {
    forall ring | HasRing(h, ring) ensures RingTrue(RingAt(h, ring), log + [e], ring) {
      RingAfter(log, e, ring);
    }
  }

  lemma {:induction false} DropsRings(h: Host, log: Log, t: Table, n: nat, qp: nat)
    requires RingsOk(h, log) && n <= |t|
    ensures RingsOk(h, log + Dropped(t, n, qp))
  {
    if n == 0 {
      assert log + [] == log;
    } else {
      DropsRings(h, log, t, n - 1, qp);
      var log1 := log + Dropped(t, n - 1, qp);
      if Owned(t[n - 1], qp) {
        var e := Retired(t[n - 1].value.req, Cancelled, false);
        RinglessEvent(h, log1, e);
        assert log + Dropped(t, n, qp) == log1 + [e];
      } else {
        assert log + Dropped(t, n, qp) == log1;
      }
    }
  }

  /** An event of one ring, and the ring after it. */
  lemma {:induction false} RingEvent(h: Host, log: Log, e: Event, r: RecvRing)
    requires RingsOk(h, log) && !Ringless(e) && (HasRing(h, e.ring) ==> RingTrue(r, log + [e], e.ring))
    ensures RingsOk(SetRing(h, e.ring, r), log + [e])
  {
    var h' := SetRing(h, e.ring, r);
    forall ring | HasRing(h', ring) ensures RingTrue(RingAt(h', ring), log + [e], ring) {
      RingAfter(log, e, ring);
    }
  }

  /** A receive can only be taken if one has been posted that wasn't. */
  lemma {:induction false} TakesPosted(h: Host, log: Log, ring: RingName, wqe: Option<seq<Sge>>)
    requires RingsOk(h, log) && Sound(log) && Takes(RingAt(h, ring), wqe)
    ensures HasRing(h, ring) && TakenFrom(log, ring) < PostedTo(log, ring)
  {
    TakenWerePosted(log, ring);
  }

  /** A receive that is taken, told in the journal. */
  lemma {:induction false} TakeRings(h: Host, log: Log, ring: RingName, wqe: Option<seq<Sge>>, h': Host, e: Event)
    requires RingsOk(h, log) && Sound(log) && e.Received? && e.ring == ring
    requires Takes(RingAt(h, ring), wqe) && RingsAfter(h, h', ring, wqe)
    ensures RingsOk(h', log + [e]) && TakenFrom(log, ring) < PostedTo(log, ring)
  {
    TakesPosted(h, log, ring, wqe);
    RingAfter(log, e, ring);
    var r := Take(RingAt(h, ring), wqe);
    WrapAdd(TakenFrom(log, ring), 1);
    RingEvent(h, log, e, r);
    SameRings(SetRing(h, ring, r), h', log + [e]);
  }
}
