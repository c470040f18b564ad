/** What every run of a data path comes to, whatever its guest, its peers and
    the clock have it do. */
module Runs {
  import opened Arith
  import opened Wire
  import opened Journal
  import opened RecvRings
  import opened Host
  import opened WorkRequests
  import opened SendQueue
  import opened SendQueueInv
  import opened Ledger
  import opened LedgerOps

  ghost predicate Sane(dp: Dp) { Inv(dp) && Shaped(dp) }

  ghost predicate Good(dp: Dp) { Inv(dp) && Shaped(dp) && JOk(dp, -1) }

  /** A device with no QP registered, nothing pending and no receive posted. */
  predicate Fresh(dp: Dp) {
    && (forall i :: 0 <= i < |dp.qps| ==> QpOk(dp.qps[i]) && !dp.qps[i].valid)
    && (forall s :: 0 <= s < |dp.pend| ==> dp.pend[s].None?)
    && (forall i :: 0 <= i < |dp.host.rq| ==> dp.host.rq[i] == RecvRing(false, 0, 0, 0))
    && (forall s :: 0 <= s < |dp.host.srq| ==> dp.host.srq[s] == RecvRing(false, 0, 0, 0))
    && dp.stalled == 0 && dp.log == [] && dp.outq == []
  }

  lemma {:induction false} FreshGood(dp: Dp)
    requires Fresh(dp)
    ensures Good(dp)
  {
    StalledZero(dp.qps, |dp.qps|);
    forall node: nat ensures ReplyBytes(dp.pend, |dp.pend|, node) <= REPLY_BUDGET {
      NothingPending(dp.pend, |dp.pend|, node);
    }
  }

  lemma {:induction false} DoGood(dp: Dp, c: Cmd)
    requires Good(dp)
    ensures Good(Do(dp, c))
  {
    DoInv(dp, c);
    DoJ(dp, c);
    InvShaped(Do(dp, c));
  }

  lemma {:induction false} DoSane(dp: Dp, c: Cmd)
    requires Sane(dp)
    ensures Sane(Do(dp, c))
  {
    DoInv(dp, c);
    InvShaped(Do(dp, c));
  }

  ghost function DoAll(dp: Dp, cmds: seq<Cmd>): (r: Dp)
    requires Sane(dp)
    ensures Sane(r)
    decreases |cmds|
  {
    if cmds == [] then dp
    else
      DoSane(dp, cmds[0]);
      DoAll(Do(dp, cmds[0]), cmds[1..])
  }

  lemma {:induction false} AllGood(dp: Dp, cmds: seq<Cmd>)
    requires Good(dp)
    ensures Good(DoAll(dp, cmds))
    decreases |cmds|
  {
    if cmds != [] {
      DoGood(dp, cmds[0]);
      AllGood(Do(dp, cmds[0]), cmds[1..]);
    }
  }

  /** Whether a command, if any, makes one state of another. */
  ghost predicate Makes(dp: Dp, c: Option<Cmd>, dp': Dp)
    requires Shaped(dp)
  {
    dp' == if c.None? then dp else Do(dp, c.value)
  }

  lemma {:induction false} MakesGood(dp: Dp, c: Option<Cmd>, dp': Dp)
    requires Good(dp) && Makes(dp, c, dp')
    ensures Good(dp')
  {
    if c.Some? {
      DoGood(dp, c.value);
    }
  }

  /** It as the first of some. */
  function First(c: Option<Cmd>, cmds: seq<Cmd>): (all: seq<Cmd>) { if c.None? then cmds else [c.value] + cmds }

  lemma {:induction false} MakesFirst(dp: Dp, c: Option<Cmd>, dp': Dp, cmds: seq<Cmd>)
    requires Good(dp) && Makes(dp, c, dp') && Good(dp')
    ensures DoAll(dp, First(c, cmds)) == DoAll(dp', cmds)
  {
    assert First(c, cmds)[if c.None? then 0 else 1..] == cmds;
  }

  // ---------------------------------------------------------------------
  // Send queues
  // ---------------------------------------------------------------------

  /** No lost wakeup, after any sequence of operations: the count of stalled
      queues is exact and all of them are valid, and a queue stopped on a WQE it
      couldn't read has a completion still to come. */
  lemma {:induction false} NoLostWakeup(dp: Dp, cmds: seq<Cmd>)
    requires Fresh(dp)
    ensures Good(dp)
    ensures var dp' := DoAll(dp, cmds);
      && dp'.stalled == StalledUpTo(dp'.qps, |dp'.qps|)
      && (forall i :: 0 <= i < |dp'.qps| && (IsStalled(dp'.qps[i]) || dp'.qps[i].fault) ==> dp'.qps[i].valid)
      && (forall i :: 0 <= i < |dp'.qps| && dp'.qps[i].fault ==> Awaits(dp'.pend, i))
  {
    FreshGood(dp);
    AllGood(dp, cmds);
  }

  /** Every WQE a connected QP's send queue has moved past has exactly one fate:
      one completion, or one request parked for it. */
  lemma {:induction false} OneFate(dp: Dp, cmds: seq<Cmd>, m: nat, k: nat)
    requires Fresh(dp)
    ensures Good(dp)
    ensures var log := DoAll(dp, cmds).log;
      Tally(log, KOpen(m)) > 0 && k < Tally(log, KMoved(m)) ==> Tally(log, KFate(m, k)) == 1
  {
    FreshGood(dp);
    AllGood(dp, cmds);
    var dp' := DoAll(dp, cmds);
    if m > dp'.nextMesh {
      assert Books(dp'.log, m, 0, false, false);
    } else {
      assert Settled(dp'.log, m);
    }
  }

  /** Message sequence numbers, in any run: the n-th a registration gives out,
      whether to a completion or a request, is n, and they follow the order of
      the WQEs in its ring. */
  lemma {:induction false} MsnsGapless(dp: Dp, cmds: seq<Cmd>, m: nat, i: nat, j: nat)
    requires Fresh(dp)
    ensures Good(dp)
    ensures var log := DoAll(dp, cmds).log;
      && (i < |log| && TakesMsn(log[i], m) ==> log[i].msn.value == (Tally(log[..i], KMsn(m)) + 1) % U32)
      && (i < j < |log| && TakesMsn(log[i], m) && TakesMsn(log[j], m) ==> PlaceOf(log[i]) < PlaceOf(log[j]))
  {
    FreshGood(dp);
    AllGood(dp, cmds);
    var log := DoAll(dp, cmds).log;
    if i < |log| && TakesMsn(log[i], m) {
      MsnsInSequence(log, m, i);
      if i < j < |log| && TakesMsn(log[j], m) {
        MsnsInRingOrder(log, m, i, j);
      }
    }
  }

  /** After a flush, and until its next doorbell, a QP's send queue does nothing,
      whatever else happens: none of its WQEs is run, completed, sent or moved
      past. (A QP that is registered anew has a new number.) */
  lemma {:induction false} FlushedRunsNothing(dp: Dp, cmds: seq<Cmd>, i: nat, j: nat)
    requires Fresh(dp)
    ensures Good(dp)
    ensures var log := DoAll(dp, cmds).log;
      i < j < |log| && log[i].Flushed? && (forall n :: i < n < j ==> log[n] != SqRung(log[i].mesh)) ==>
        !QueueDid(log[j], log[i].mesh)
  {
    FreshGood(dp);
    AllGood(dp, cmds);
    var log := DoAll(dp, cmds).log;
    if i < j < |log| && log[i].Flushed? && forall n :: i < n < j ==> log[n] != SqRung(log[i].mesh) {
      NothingAfterFlush(log, i, j);
    }
  }

  /** The time from which the WQE QP i is at waits for a receive, if it finds none
      at t: when it first did. */
  function FirstWait(dp: Dp, i: nat, t: nat): (s: nat)
    requires i < |dp.qps|
  {
    var w := WaitsSince(dp.log, dp.qps[i].mesh);
    if w.Some? then w.value else t
  }

  /** An RC SEND that finds no receive waits from the first time it found none,
      whatever has happened since: it is given up exactly when the retry time has
      gone by from then. */
  lemma {:induction false} RnrWaitsFromFirst(dp: Dp, cmds: seq<Cmd>, i: nat, t: nat, w: Wqe)
    requires Fresh(dp) && t < U64 && w.Wqe? && w.send.ToQp?
    ensures Good(dp)
    ensures var dp' := DoAll(dp, cmds);
      i < |dp'.qps| && dp'.qps[i].valid && dp'.qps[i].kind.RC? && !dp'.qps[i].fault ==>
        var j := SendTarget(dp'.qps[i], i, w.send.dst);
        Delivers(dp', dp'.qps[i], j, w) && !DeliveryTo(dp', j, w, SendLoad(dp', j, w)).taken ==>
          && FirstWait(dp', i, t) < U64
          && (RunSend(dp', i, t, w).past <==> Since(t, FirstWait(dp', i, t)) >= RNR_RETRY_MS)
  {
    FreshGood(dp);
    AllGood(dp, cmds);
    var dp' := DoAll(dp, cmds);
    if i < |dp'.qps| && dp'.qps[i].valid && dp'.qps[i].kind.RC? && !dp'.qps[i].fault {
      var j := SendTarget(dp'.qps[i], i, w.send.dst);
      if Delivers(dp', dp'.qps[i], j, w) && !DeliveryTo(dp', j, w, SendLoad(dp', j, w)).taken {
        WaitsFromFirst(dp', i, t, w, j);
      }
    }
  }

  lemma {:induction false} WaitsFromFirst(dp: Dp, i: nat, t: nat, w: Wqe, j: nat)
    requires Good(dp) && i < |dp.qps| && dp.qps[i].valid && dp.qps[i].kind.RC? && !dp.qps[i].fault && t < U64
    requires w.Wqe? && w.send.ToQp? && j == SendTarget(dp.qps[i], i, w.send.dst)
    requires Delivers(dp, dp.qps[i], j, w) && !DeliveryTo(dp, j, w, SendLoad(dp, j, w)).taken
    ensures FirstWait(dp, i, t) < U64
    ensures RunSend(dp, i, t, w).past <==> Since(t, FirstWait(dp, i, t)) >= RNR_RETRY_MS
  {
    NoneTaken(dp.host, RingFor(dp.qps[j], j), w.recv, SendLoad(dp, j, w), w.got.move, w.fault);
    assert QpNow(dp.qps[i], i, dp.log, false);
  }

  // ---------------------------------------------------------------------
  // Requests
  // ---------------------------------------------------------------------

  /** The reply bytes asked of any node never exceed the budget. */
  lemma {:induction false} BudgetHolds(dp: Dp, cmds: seq<Cmd>, node: nat)
    requires Fresh(dp)
    ensures Good(dp)
    ensures var dp' := DoAll(dp, cmds); ReplyBytes(dp'.pend, |dp'.pend|, node) <= REPLY_BUDGET
  {
    FreshGood(dp);
    AllGood(dp, cmds);
  }

  /** Every request handed to the mesh is still pending, and not completed, or
      has been retired once. One whose completion was promised has exactly one if
      an answer or a timeout retired it, and none if it was dropped; one that was
      promised none never has any. */
  lemma {:induction false} OneEnd(dp: Dp, cmds: seq<Cmd>, r: nat)
    requires Fresh(dp)
    ensures Good(dp)
    ensures var dp' := DoAll(dp, cmds);
      && Tally(dp'.log, KSent(r)) == (if InPend(dp'.pend, r) then 1 else 0) + Tally(dp'.log, KRetired(r)) <= 1
      && (InPend(dp'.pend, r) ==> Tally(dp'.log, KAnswer(r)) == 0)
      && (Tally(dp'.log, KRetired(r)) == 1 ==>
            Tally(dp'.log, KAnswer(r)) == if Promised(dp'.log, r) then Tally(dp'.log, KEnded(r)) else 0)
  {
    FreshGood(dp);
    AllGood(dp, cmds);
    var dp' := DoAll(dp, cmds);
    AtMostOnce(dp'.log, r);
    CompletedAsPromised(dp'.log, r);
    if InPend(dp'.pend, r) {
      assert Open(dp'.log, r);
    } else {
      assert !Open(dp'.log, r);
    }
  }

  /** A request's completion goes to the QP that sent it, which has not been
      registered anew since, with the sequence number it was sent with. */
  lemma {:induction false} CompletionIsItsOwn(dp: Dp, cmds: seq<Cmd>, i: nat)
    requires Fresh(dp)
    ensures Good(dp)
    ensures var log := DoAll(dp, cmds).log;
      i < |log| && log[i].Cqe? && log[i].cause.ByReq? ==>
        var r := log[i].cause.req;
        && SentOf(log[..i], r).Some?
        && var s := SentOf(log[..i], r).value;
           && s.completes && log[i].msn == s.msn && log[i].qp == s.msg.srcQp
           && SentUnderLast(log[..i], log[i].qp, r)
  {
    FreshGood(dp);
    AllGood(dp, cmds);
    var log := DoAll(dp, cmds).log;
    if i < |log| && log[i].Cqe? && log[i].cause.ByReq? {
      SoundAt(log, i);
      SoundPrefix(log, i);
      TagTellsRegistration(log[..i], log[i].qp, log[i].cause.req);
    }
  }

  /** In any run every pending request names a registered QP, and carries the id
      of that QP's present registration, which no other QP has. */
  lemma {:induction false} PendingNamesItsQp(dp: Dp, cmds: seq<Cmd>, s: nat, j: nat)
    requires Fresh(dp)
    ensures Good(dp)
    ensures var dp' := DoAll(dp, cmds);
      s < |dp'.pend| && dp'.pend[s].Some? ==>
        var p := dp'.pend[s].value;
        && p.qp < |dp'.qps| && dp'.qps[p.qp].valid && p.mesh == dp'.qps[p.qp].mesh
        && (j < |dp'.qps| && dp'.qps[j].valid && j != p.qp ==> dp'.qps[j].mesh != p.mesh)
  {
    FreshGood(dp);
    AllGood(dp, cmds);
    var dp' := DoAll(dp, cmds);
    if s < |dp'.pend| && dp'.pend[s].Some? {
      var p := dp'.pend[s].value;
      assert EntryOk(dp'.qps, dp'.nextReq, p);
      if j < |dp'.qps| && dp'.qps[j].valid && j != p.qp {
        OtherMesh(dp'.qps, j, p.qp);
      }
    }
  }

  /** Once a request has been retired, by an answer, a flush, its QP's end or
      re-registration, or a timeout, nothing lands for it and nothing completes
      it, in the rest of any run. */
  lemma {:induction false} RetiredForGood(dp: Dp, cmds: seq<Cmd>, i: nat, j: nat)
    requires Fresh(dp)
    ensures Good(dp)
    ensures var log := DoAll(dp, cmds).log;
      i < j < |log| && log[i].Retired? ==> !Touches(log[j], log[i].req)
  {
    FreshGood(dp);
    AllGood(dp, cmds);
    var log := DoAll(dp, cmds).log;
    if i < j < |log| && log[i].Retired? {
      NothingAfterRetired(log, i, j);
    }
  }

  // ---------------------------------------------------------------------
  // Receives
  // ---------------------------------------------------------------------

  /** A ring's counters are the receives posted to it and taken from it since it
      was set up, and none is taken that wasn't posted. */
  lemma {:induction false} ReceivesCounted(dp: Dp, cmds: seq<Cmd>, ring: RingName)
    requires Fresh(dp)
    ensures Good(dp)
    ensures var dp' := DoAll(dp, cmds);
      HasRing(dp'.host, ring) ==>
        && RingAt(dp'.host, ring).cons == TakenFrom(dp'.log, ring) % U32
        && RingAt(dp'.host, ring).prod == PostedTo(dp'.log, ring) % U32
        && TakenFrom(dp'.log, ring) <= PostedTo(dp'.log, ring)
  {
    FreshGood(dp);
    AllGood(dp, cmds);
    var dp' := DoAll(dp, cmds);
    TakenWerePosted(dp'.log, ring);
    if HasRing(dp'.host, ring) {
      assert RingTrue(RingAt(dp'.host, ring), dp'.log, ring);
    }
  }

  /** A WQE of this device takes one receive at most, and one that has was
      completed. */
  lemma {:induction false} WqeTakesOne(dp: Dp, cmds: seq<Cmd>, m: nat, k: nat)
    requires Fresh(dp)
    ensures Good(dp)
    ensures var log := DoAll(dp, cmds).log;
      Tally(log, KTook(ForWqe(m, k))) <= Tally(log, KFate(m, k)) <= 1
  {
    FreshGood(dp);
    AllGood(dp, cmds);
    TookOnce(DoAll(dp, cmds).log, m, k);
  }
}
