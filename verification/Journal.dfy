/** The data path's history: what it handed the mesh, what it completed, what
    it retired and which receives it took. The journal is kept only for the
    proofs; it says in what order things happened and how often, which the
    device's own state doesn't. */
module Journal {
  import opened Arith
  import opened Wire

  /** What a send completion answers: the k-th WQE a QP's send queue ran, a
      parked request, or a WQE the device couldn't read. mesh names one
      registration of a QP (its mesh_id). */
  datatype By =
    | ByWqe(mesh: nat, k: nat)
    | ByReq(req: nat)
    | ByFault(mesh: nat)

  datatype How = Answered | TimedOut | Cancelled

  /** A receive ring: a QP's own, or a shared one. */
  datatype RingName = Own(qp: nat) | Shared(srq: nat)

  /** Whose message a receive was taken for: this device's own WQE, or a request
      of another node. */
  datatype Taker = ForWqe(mesh: nat, k: nat) | ForPeer(origin: nat, req: nat)

  datatype Event =
    | Opened(qp: nat, mesh: nat, connected: bool)
    | Sent(mesh: nat, k: nat, req: nat, msn: Option<nat>, completes: bool, dst: nat, msg: Msg, local: seq<Sge>)
    | Cqe(qp: nat, cause: By, msn: Option<nat>, status: Status)
    | Landed(req: nat, list: seq<Sge>, data: seq<byte>)
    | Retired(req: nat, how: How, completed: bool)
    | Moved(mesh: nat, slot: nat)
    | Flushed(qp: nat, mesh: nat, recvToo: bool, takenBack: seq<nat>)
    | TakenBack(req: nat)
    | SqRung(mesh: nat)                 // a send doorbell
    | Waited(mesh: nat, now: nat)       // an RC SEND found no receive
    | RingReset(ring: RingName)
    | Posted(ring: RingName, n: nat)    // a receive doorbell, for n more
    | Received(qp: nat, ring: RingName, taker: Taker, total: nat, landed: nat, status: Status)

  type Log = seq<Event>

  /** What can be counted in a journal. */
  datatype Key =
    | KSent(req: nat)
    | KRetired(req: nat)
    | KAnswer(req: nat)             // completions of a parked request
    | KEnded(req: nat)              // retirements by an answer or a timeout
    | KFate(mesh: nat, k: nat)      // completions of a WQE, or requests parked for it
    | KMoved(mesh: nat)
    | KMsn(mesh: nat)
    | KOpen(mesh: nat)              // registrations of a connected QP
    | KOk(req: nat)                 // successful completions of a parked request
    | KTook(taker: Taker)              // receives taken

  predicate Hits(e: Event, key: Key) {
    match key
    case KSent(r) => e.Sent? && e.req == r
    case KRetired(r) => e.Retired? && e.req == r
    case KAnswer(r) => e.Cqe? && e.cause == ByReq(r)
    case KEnded(r) => e.Retired? && e.req == r && !e.how.Cancelled?
    case KFate(m, k) => (e.Cqe? && e.cause == ByWqe(m, k)) || (e.Sent? && e.mesh == m && e.k == k && e.completes)
    case KMoved(m) => e.Moved? && e.mesh == m
    case KMsn(m) => TakesMsn(e, m)
    case KOk(r) => e.Cqe? && e.cause == ByReq(r) && e.status == Ok
    case KOpen(m) => e.Opened? && e.mesh == m && e.connected
    case KTook(t) => e.Received? && e.taker == t
  }

  /** Whether e gave out one of registration m's message sequence numbers. */
  predicate TakesMsn(e: Event, m: nat) {
    || (e.Cqe? && e.cause.ByWqe? && e.cause.mesh == m && e.msn.Some?)
    || (e.Sent? && e.mesh == m && e.msn.Some?)
  }

  /** The place in its send queue of the WQE that took one. */
  function PlaceOf(e: Event): (k: nat)
    requires (e.Cqe? && e.cause.ByWqe?) || e.Sent?
  {
    if e.Sent? then e.k else e.cause.k
  }

  function Tally(log: Log, key: Key): (n: nat) {
    if log == [] then 0
    else Tally(log[..|log| - 1], key) + (if Hits(log[|log| - 1], key) then 1 else 0)
  }

  // ---------------------------------------------------------------------
  // What a journal says is so
  // ---------------------------------------------------------------------

  /** The event that handed request r to the mesh. */
  function SentOf(log: Log, r: nat): (e: Option<Event>)
    ensures e.Some? ==> e.value.Sent? && e.value.req == r && e.value in log
  {
    if log == [] then None
    else
      var e := log[|log| - 1];
      if e.Sent? && e.req == r then Some(e) else SentOf(log[..|log| - 1], r)
  }

  /** The registration QP i had last. */
  function RegOf(log: Log, i: nat): (m: Option<nat>) {
    if log == [] then None
    else
      var e := log[|log| - 1];
      if e.Opened? && e.qp == i then Some(e.mesh) else RegOf(log[..|log| - 1], i)
  }

  /** The number of the last registration. */
  function LastReg(log: Log): (m: nat) {
    if log == [] then 0
    else if log[|log| - 1].Opened? then log[|log| - 1].mesh
    else LastReg(log[..|log| - 1])
  }

  /** Whether registration m has been flushed, and had no doorbell since. */
  predicate Halted(log: Log, m: nat) {
    log != [] &&
    var e := log[|log| - 1];
    if e.Flushed? && e.mesh == m then true
    else if e == SqRung(m) then false
    else Halted(log[..|log| - 1], m)
  }

  /** When the WQE registration m is at first found no receive, if it has. */
  function WaitsSince(log: Log, m: nat): (t: Option<nat>) {
    if log == [] then None
    else
      var e := log[|log| - 1];
      var before := WaitsSince(log[..|log| - 1], m);
      if (e.Moved? || e.Flushed?) && e.mesh == m then None
      else if e.Waited? && e.mesh == m && before.None? then Some(e.now)
      else before
  }

  /** How many receives have been taken from a ring since it was set up. */
  function TakenFrom(log: Log, ring: RingName): (n: nat) {
    if log == [] then 0
    else
      var e := log[|log| - 1];
      if e == RingReset(ring) then 0
      else TakenFrom(log[..|log| - 1], ring) + (if e.Received? && e.ring == ring then 1 else 0)
  }

  /** And how many posted to it. */
  function PostedTo(log: Log, ring: RingName): (n: nat) {
    if log == [] then 0
    else
      var e := log[|log| - 1];
      if e == RingReset(ring) then 0
      else PostedTo(log[..|log| - 1], ring) + (if e.Posted? && e.ring == ring then e.n else 0)
  }

  // ---------------------------------------------------------------------
  // Sound journals
  // ---------------------------------------------------------------------

  /** A receive taken for a WQE of this device. */
  predicate LocalTake(e: Event) { e.Received? && e.taker.ForWqe? }

  /** Whether e completes the WQE a receive was taken for. */
  predicate Settles(e: Event, take: Event)
    requires LocalTake(take)
  {
    e.Cqe? && e.cause == ByWqe(take.taker.mesh, take.taker.k) && e.status == Ok
  }

  /** Whether the last event took a receive for a WQE yet to be completed. */
  predicate Unsettled(log: Log) { log != [] && LocalTake(log[|log| - 1]) }

  /** An event may only follow a history it is consistent with; and one that
      took a receive for a WQE is followed by that WQE's completion. */
  predicate MayFollow(log: Log, e: Event) {
    Fits(log, e) && (Unsettled(log) ==> Settles(e, log[|log| - 1]))
  }

  predicate Fits(log: Log, e: Event) {
    match e
    case Opened(_, m, _) => m > LastReg(log)
    case Sent(m, k, r, msn, completes, _, msg, _) =>
      && Tally(log, KSent(r)) == 0
      && msg.reqId == r && RegOf(log, msg.srcQp) == Some(m)
      && RunsNext(log, m, k)
      && (msn.Some? ==> completes)
      && (completes ==> Tally(log, KFate(m, k)) == 0)
      && (msn.Some? ==> msn.value == (Tally(log, KMsn(m)) + 1) % U32)
    case Cqe(qp, cause, msn, _) =>
      (match cause
       case ByWqe(m, k) =>
         && RegOf(log, qp) == Some(m) && RunsNext(log, m, k)
         && Tally(log, KFate(m, k)) == 0
         && (msn.Some? ==> msn.value == (Tally(log, KMsn(m)) + 1) % U32)
       case ByReq(r) =>
         && Open(log, r) && Tally(log, KAnswer(r)) == 0 && SentOf(log, r).Some?
         && var s := SentOf(log, r).value;
            s.completes && msn == s.msn && qp == s.msg.srcQp && RegOf(log, qp) == Some(s.mesh)
       case ByFault(m) => RegOf(log, qp) == Some(m) && !Halted(log, m))
    case Landed(r, list, data) =>
      && Open(log, r) && Tally(log, KAnswer(r)) == 0 && SentOf(log, r).Some?
      && list == SentOf(log, r).value.local && |data| <= AnswerSize(SentOf(log, r).value.msg)
    case Retired(r, how, completed) =>
      && Open(log, r) && SentOf(log, r).Some?
      && Tally(log, KAnswer(r)) == (if completed then 1 else 0)
      && (completed <==> SentOf(log, r).value.completes && !how.Cancelled?)
    case Moved(m, _) => !Halted(log, m)
    case Waited(m, _) => !Halted(log, m)
    case Flushed(qp, m, _, _) => RegOf(log, qp) == Some(m)
    case Received(_, ring, taker, total, landed, _) =>
      && landed <= total && TakenFrom(log, ring) < PostedTo(log, ring)
      && (taker.ForWqe? ==> RunsNext(log, taker.mesh, taker.k) && Tally(log, KFate(taker.mesh, taker.k)) == 0)
    case _ => true
  }

  /** Registration m's send queue is at its k-th WQE, and may run it. */
  predicate RunsNext(log: Log, m: nat, k: nat) {
    k == Tally(log, KMoved(m)) && !Halted(log, m)
  }

  /** Request r has been handed to the mesh and not been retired since. */
  predicate Open(log: Log, r: nat) {
    Tally(log, KSent(r)) == 1 && Tally(log, KRetired(r)) == 0
  }

  /** Every event of the journal followed a history it is consistent with. */
  predicate Sound(log: Log) {
    log == [] || (Sound(log[..|log| - 1]) && MayFollow(log[..|log| - 1], log[|log| - 1]))
  }

  lemma {:induction false} SoundOne(log: Log, e: Event)
    requires Sound(log) && MayFollow(log, e)
    ensures Sound(log + [e])
  {
    assert (log + [e])[..|log|] == log;
  }

  lemma {:induction false} SoundPrefix(log: Log, n: nat)
    requires Sound(log) && n <= |log|
    ensures Sound(log[..n])
    decreases |log| - n
  {
    if n < |log| {
      SoundPrefix(log, n + 1);
      assert log[..n + 1][..n] == log[..n];
    } else {
      assert log[..n] == log;
    }
  }

  lemma {:induction false} SoundAt(log: Log, i: nat)
    requires Sound(log) && i < |log|
    ensures MayFollow(log[..i], log[i])
  {
    SoundPrefix(log, i + 1);
    assert log[..i + 1][..i] == log[..i];
  }

  lemma {:induction false} TallyMonotone(log: Log, a: nat, b: nat, key: Key)
    requires a <= b <= |log|
    ensures Tally(log[..a], key) <= Tally(log[..b], key)
    decreases b - a
  {
    if a < b {
      TallyMonotone(log, a, b - 1, key);
      assert log[..b][..b - 1] == log[..b - 1];
    }
  }

  lemma {:induction false} TallyHit(log: Log, i: nat, key: Key)
    requires i < |log| && Hits(log[i], key)
    ensures Tally(log[..i + 1], key) == Tally(log[..i], key) + 1
    ensures Tally(log, key) >= 1
  {
    assert log[..i + 1][..i] == log[..i];
    TallyMonotone(log, i + 1, |log|, key);
    assert log[..|log|] == log;
  }

  // ---------------------------------------------------------------------
  // What a sound journal rules out
  // ---------------------------------------------------------------------

  lemma {:induction false} SentOfTally(log: Log, r: nat)
    ensures SentOf(log, r).Some? <==> Tally(log, KSent(r)) > 0
  {
    if log != [] {
      SentOfTally(log[..|log| - 1], r);
    }
  }

  /** Whether request r is one whose completion was promised. */
  predicate Promised(log: Log, r: nat) { SentOf(log, r).Some? && SentOf(log, r).value.completes }

  /** In a sound journal a request is handed to the mesh once, and retired at
      most once. */
  lemma {:induction false} AtMostOnce(log: Log, r: nat)
    requires Sound(log)
    ensures Tally(log, KSent(r)) <= 1
    ensures Tally(log, KRetired(r)) <= Tally(log, KSent(r))
    ensures Tally(log, KEnded(r)) <= Tally(log, KRetired(r))
    ensures Tally(log, KAnswer(r)) <= Tally(log, KSent(r))
  {
    if log != [] {
      AtMostOnce(log[..|log| - 1], r);
    }
  }

  /** A request has the completion it was promised, and it has just one, if an
      answer or a timeout retired it, and none if it was dropped. */
  lemma {:induction false} CompletedAsPromised(log: Log, r: nat)
    requires Sound(log)
    ensures Tally(log, KRetired(r)) == 1 ==>
              Tally(log, KAnswer(r)) == if Promised(log, r) then Tally(log, KEnded(r)) else 0
  {
    if log != [] {
      var before, e := log[..|log| - 1], log[|log| - 1];
      CompletedAsPromised(before, r);
      AtMostOnce(before, r);
    }
  }

  lemma {:induction false} FateOnce(log: Log, m: nat, k: nat)
    requires Sound(log)
    ensures Tally(log, KFate(m, k)) <= 1
  {
    if log != [] {
      FateOnce(log[..|log| - 1], m, k);
    }
  }

  predicate Touches(e: Event, r: nat) {
    || (e.Sent? && e.req == r)
    || (e.Cqe? && e.cause == ByReq(r))
    || (e.Landed? && e.req == r)
    || (e.Retired? && e.req == r)
  }

  /** Once a request has been retired, however it was, nothing more happens to
      it: no reply lands in its buffers, and no completion is posted for it. */
  lemma {:induction false} NothingAfterRetired(log: Log, i: nat, j: nat)
    requires Sound(log) && i < j < |log| && log[i].Retired?
    ensures !Touches(log[j], log[i].req)
  {
    var r := log[i].req;
    TallyHit(log, i, KRetired(r));
    TallyMonotone(log, i + 1, j, KRetired(r));
    SoundPrefix(log, j);
    SoundAt(log, j);
    AtMostOnce(log[..j], r);
  }

  /** The n-th message sequence number a registration gives out is n, as a
      uint32_t: none is skipped, and none comes twice, until they wrap. */
  lemma {:induction false} MsnsInSequence(log: Log, m: nat, i: nat)
    requires Sound(log) && i < |log| && TakesMsn(log[i], m)
    ensures log[i].msn.value == (Tally(log[..i], KMsn(m)) + 1) % U32
    ensures Tally(log[..i + 1], KMsn(m)) == Tally(log[..i], KMsn(m)) + 1
  {
    SoundAt(log, i);
    TallyHit(log, i, KMsn(m));
  }

  /** And they follow the order of the WQEs they are given to. */
  lemma {:induction false} MsnsInRingOrder(log: Log, m: nat, i: nat, j: nat)
    requires Sound(log) && i < j < |log| && TakesMsn(log[i], m) && TakesMsn(log[j], m)
    ensures PlaceOf(log[i]) < PlaceOf(log[j])
  {
    SoundAt(log, i);
    SoundAt(log, j);
    var k := PlaceOf(log[i]);
    TallyMonotone(log, i, j, KMoved(m));
    TallyHit(log, i, KFate(m, k));
    TallyMonotone(log, i + 1, j, KFate(m, k));
  }

  /** A request number stands for one request: it is handed to the mesh once. */
  lemma {:induction false} SentUnique(log: Log, i: nat, j: nat)
    requires Sound(log) && i < |log| && j < |log|
    requires log[i].Sent? && log[j].Sent? && log[i].req == log[j].req
    ensures i == j
  {
    var r := log[i].req;
    if i < j {
      TallyHit(log, i, KSent(r));
      TallyMonotone(log, i + 1, j, KSent(r));
      SoundAt(log, j);
    } else if j < i {
      TallyHit(log, j, KSent(r));
      TallyMonotone(log, j + 1, i, KSent(r));
      SoundAt(log, i);
    }
  }

  lemma {:induction false} SentOfAt(log: Log, i: nat)
    requires Sound(log) && i < |log| && log[i].Sent?
    ensures SentOf(log, log[i].req) == Some(log[i])
  {
    var r := log[i].req;
    TallyHit(log, i, KSent(r));
    SentOfTally(log, r);
    var e := SentOf(log, r).value;
    var j :| 0 <= j < |log| && log[j] == e;
    SentUnique(log, i, j);
  }

  /** What lands for a request lands in the list it was sent with, and is no more
      than it asked for. */
  lemma {:induction false} LandsInItsList(log: Log, i: nat)
    requires Sound(log) && i < |log| && log[i].Landed?
    ensures SentOf(log, log[i].req).Some?
    ensures var s := SentOf(log, log[i].req).value; log[i].list == s.local && |log[i].data| <= AnswerSize(s.msg)
  {
    SoundAt(log, i);
    var s := SentOf(log[..i], log[i].req).value;
    var k :| 0 <= k < i && log[..i][k] == s;
    SentOfAt(log, k);
  }

  // ---------------------------------------------------------------------
  // Registrations
  // ---------------------------------------------------------------------

  /** Whether request r was sent by QP i under the registration it had last:
      QP i sent it, and has not been registered since. */
  predicate SentUnderLast(log: Log, i: nat, r: nat) {
    log != [] &&
    var e := log[|log| - 1];
    if e.Sent? && e.req == r then e.msg.srcQp == i
    else if e.Opened? && e.qp == i then false
    else SentUnderLast(log[..|log| - 1], i, r)
  }

  lemma {:induction false} RegBelow(log: Log, i: nat)
    requires Sound(log)
    ensures RegOf(log, i).Some? ==> RegOf(log, i).value <= LastReg(log)
  {
    if log != [] {
      RegBelow(log[..|log| - 1], i);
    }
  }

  lemma {:induction false} SentBelow(log: Log, r: nat)
    requires Sound(log)
    ensures SentOf(log, r).Some? ==> SentOf(log, r).value.mesh <= LastReg(log)
  {
    if log != [] {
      var before, e := log[..|log| - 1], log[|log| - 1];
      SentBelow(before, r);
      if e.Sent? {
        RegBelow(before, e.msg.srcQp);
      }
    }
  }

  /** Two QPs never have the same registration. */
  lemma {:induction false} RegsApart(log: Log, i: nat, j: nat)
    requires Sound(log) && i != j && RegOf(log, i).Some?
    ensures RegOf(log, i) != RegOf(log, j)
  {
    if log != [] {
      var before, e := log[..|log| - 1], log[|log| - 1];
      RegBelow(before, i);
      RegBelow(before, j);
      if RegOf(before, i).Some? {
        RegsApart(before, i, j);
      }
    }
  }

  /** The number a request carries tells whether it was sent under the
      registration its QP had last. */
  lemma {:induction false} TagTellsRegistration(log: Log, i: nat, r: nat)
    requires Sound(log) && SentOf(log, r).Some?
    ensures RegOf(log, i) == Some(SentOf(log, r).value.mesh) <==> SentUnderLast(log, i, r)
  {
    var before, e := log[..|log| - 1], log[|log| - 1];
    if e.Sent? && e.req == r {
      if e.msg.srcQp != i {
        RegsApart(before, e.msg.srcQp, i);
      }
    } else {
      TagTellsRegistration(before, i, r);
      SentBelow(before, r);
    }
  }

  /** A request sent before QP i was registered again is none of its present
      ones. */
  lemma {:induction false} OpenedSince(log: Log, i: nat, r: nat, k: nat, n: nat)
    requires Sound(log) && k < n < |log| && log[k].Sent? && log[k].req == r && log[n].Opened? && log[n].qp == i
    ensures !SentUnderLast(log, i, r)
  {
    var last := |log| - 1;
    if last > n {
      if log[last].Sent? && log[last].req == r {
        SentUnique(log, k, last);
      }
      OpenedSince(log[..last], i, r, k, n);
    }
  }

  // ---------------------------------------------------------------------
  // Flushes
  // ---------------------------------------------------------------------

  /** Whether e is something registration m's send queue does. */
  predicate QueueDid(e: Event, m: nat) {
    || (e.Cqe? && e.cause.ByWqe? && e.cause.mesh == m)
    || (e.Cqe? && e.cause == ByFault(m))
    || ((e.Sent? || e.Moved? || e.Waited?) && e.mesh == m)
  }

  lemma {:induction false} HaltedStays(log: Log, m: nat, i: nat, j: nat)
    requires i <= j <= |log| && Halted(log[..i], m)
    requires forall n :: i <= n < j ==> log[n] != SqRung(m)
    ensures Halted(log[..j], m)
    decreases j - i
  {
    if i < j {
      HaltedStays(log, m, i, j - 1);
      assert log[..j][..j - 1] == log[..j - 1];
    }
  }

  /** After a flush a send queue does nothing until its next doorbell. */
  lemma {:induction false} NothingAfterFlush(log: Log, i: nat, j: nat)
    requires Sound(log) && i < j < |log| && log[i].Flushed?
    requires forall n :: i < n < j ==> log[n] != SqRung(log[i].mesh)
    ensures !QueueDid(log[j], log[i].mesh)
  {
    assert log[..i + 1][..i] == log[..i];
    HaltedStays(log, log[i].mesh, i + 1, j);
    SoundAt(log, j);
  }

  // ---------------------------------------------------------------------
  // Receives
  // ---------------------------------------------------------------------

  /** No receive is taken that hasn't been posted. */
  lemma {:induction false} TakenWerePosted(log: Log, ring: RingName)
    requires Sound(log)
    ensures TakenFrom(log, ring) <= PostedTo(log, ring)
  {
    if log != [] {
      TakenWerePosted(log[..|log| - 1], ring);
    }
  }

  /** A WQE takes one receive at most, and is completed with success if it has:
      at once. */
  lemma {:induction false} TookOnce(log: Log, m: nat, k: nat)
    requires Sound(log)
    ensures var took, fate := Tally(log, KTook(ForWqe(m, k))), Tally(log, KFate(m, k));
      && took <= 1 && fate <= 1
      && (took <= fate || (Unsettled(log) && log[|log| - 1].taker == ForWqe(m, k)))
  {
    FateOnce(log, m, k);
    if log != [] {
      TookOnce(log[..|log| - 1], m, k);
    }
  }
}
