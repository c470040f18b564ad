/** The turns a run of the data path consists of, and what they say of its journal:
    every request and every WQE's own completion is some turn's, and says of its WQE
    what that turn's WQE, QP and surroundings call for. */
module Histories {
  import opened Arith
  import opened Wire
  import opened Journal
  import opened WorkRequests
  import opened Serving
  import opened SendQueue
  import opened SendQueueInv
  import opened Quiet
  import opened Outcomes
  import opened Turns
  import opened Progress
  import opened Setups
  import opened Runs
  import Evolve
  import Regions

  /** One turn of QP i's send queue: the WQE it found, and what came of it. */
  datatype Turn = Turn(dp: Dp, i: nat, now: nat, w: Wqe, r: Ran)

  predicate TurnOk(t: Turn) { CanServe(t.dp, t.i, t.now) && t.r == Run(t.dp, t.i, t.now, t.w) }

  /** Whether the k-th event of a journal is one of a turn's. */
  predicate Of(t: Turn, l: Log, k: nat) { |t.dp.log| <= k < |t.r.dp.log| && t.r.dp.log <= l }

  // ---------------------------------------------------------------------
  // The turns
  // ---------------------------------------------------------------------

  /** The turns of a service: each runs the WQE in front, in a state of the service's
      course. */
  ghost predicate ServiceHas(dp: Dp, i: nat, now: nat, at: nat -> Wqe, t: Turn)
    requires CanServe(dp, i, now)
  {
    && t.dp in Course(dp, i, now, at, dp.qps[i].depth) && t.i == i && t.now == now
    && TurnOk(t) && !Drained(t.dp.qps[i]) && t.w == Front(t.dp.qps[i], at)
  }

  /** A QP's doorbell, before its queue is served. */
  function Rung(dp: Dp, i: nat, pIndex: nat): (r: Dp)
    requires i < |dp.qps| && dp.qps[i].depth > 0
  {
    var q := dp.qps[i];
    dp.(qps := dp.qps[i := q.(prod := Rem(pIndex, q.depth))], log := dp.log + [SqRung(q.mesh)])
  }

  /** The turns of a command: those of the queue whose doorbell it is, or of every
      stalled queue, in the state the retry comes to it in. */
  ghost predicate CmdHas(dp: Dp, c: Cmd, t: Turn)
    requires Shaped(dp)
  {
    match c
    case Ring(i, pIndex, now, at) =>
      && i < |dp.qps| && now < U64 && dp.qps[i].valid && !dp.qps[i].fault
      && ServiceHas(Rung(dp, i, pIndex), i, now, at, t)
    case Retry(now, all) =>
      && t.i < |dp.qps| && now < U64
      && var d := Reached(dp, t.i, now, all);
         && CanServe(d, t.i, now) && d.qps[t.i].valid && (d.qps[t.i].rnr || d.qps[t.i].busy) && !d.qps[t.i].fault
         && ServiceHas(d, t.i, now, all(t.i), t)
    case _ => false
  }

  /** The turns of a run. */
  ghost predicate RunHas(dp: Dp, cmds: seq<Cmd>, t: Turn)
    requires Sane(dp)
    decreases |cmds|
  {
    cmds != [] &&
    (CmdHas(dp, cmds[0], t) || (DoSane(dp, cmds[0]); RunHas(Do(dp, cmds[0]), cmds[1..], t)))
  }

  // ---------------------------------------------------------------------
  // They account for what a run does
  // ---------------------------------------------------------------------

  lemma {:induction false} NextGrows(d: Dp, i: nat, now: nat, at: nat -> Wqe, next: Option<Dp>)
    requires next == NextState(d, i, now, at) && next.Some?
    ensures d.log <= next.value.log
  {
  }

  /** A turn that is followed by another leaves its events, and one more. */
  lemma {:induction false} TurnThere(d: Dp, i: nat, now: nat, at: nat -> Wqe, next: Dp, l: Log, k: nat)
    returns (t: Turn)
    requires CanServe(d, i, now) && NextState(d, i, now, at) == Some(next) && next.log <= l
    requires |d.log| <= k < |next.log| && OwnEvent(l[k])
    ensures t == Turn(d, i, now, Front(d.qps[i], at), Run(d, i, now, Front(d.qps[i], at))) && Of(t, l, k)
  {
    t := Turn(d, i, now, Front(d.qps[i], at), Run(d, i, now, Front(d.qps[i], at)));
    assert next == Advance(t.r.dp, i);
  }

  lemma {:induction false} TurnLast(d: Dp, i: nat, now: nat, at: nat -> Wqe, out: Dp, k: nat) returns (t: Turn)
    requires EndsAt(d, i, now, at, out) && |d.log| <= k < |out.log|
    ensures t == Turn(d, i, now, Front(d.qps[i], at), Run(d, i, now, Front(d.qps[i], at))) && Of(t, out.log, k)
    ensures !Drained(d.qps[i])
  {
    t := Turn(d, i, now, Front(d.qps[i], at), Run(d, i, now, Front(d.qps[i], at)));
  }

  /** Which turn of a service an event is of. */
  lemma {:induction false} ServiceTurnOf(dp: Dp, i: nat, now: nat, at: nat -> Wqe, d: Dp, out: Dp, k: nat)
    returns (t: Turn)
    requires CanServe(dp, i, now) && d == Last(Course(dp, i, now, at, dp.qps[i].depth)) && EndsAt(d, i, now, at, out)
    requires |dp.log| <= k < |out.log| && OwnEvent(out.log[k]) && d.log <= out.log
    ensures ServiceHas(dp, i, now, at, t) && Of(t, out.log, k)
  {
    var next := (x: Dp) => NextState(x, i, now, at);
    var list := (x: Dp) => x.log;
    var ok := (x: Dp) => true;
    forall y | ok(y) && next(y).Some? ensures ok(next(y).value) && list(y) <= list(next(y).value) {
      NextGrows(y, i, now, at, next(y));
    }
    if k >= |d.log| {
      t := TurnLast(d, i, now, at, out, k);
    } else {
      var x := TrailCovers(next, list, ok, dp, dp.qps[i].depth, k);
      t := TurnThere(x, i, now, at, next(x).value, out.log, k);
    }
  }

  /** The operations that run no send queue say nothing only one does. */
  lemma {:induction false} OtherQuiet(dp: Dp, c: Cmd)
    requires Shaped(dp) && !c.Ring? && !c.Retry?
    ensures Quietly(dp.log, Do(dp, c).log, Evolve.MayAnswer(c), c.Tick?)
  {
    match c
    case Tick(now) => ExpireQuiet(dp, now, 0);
    case Answer(msg, reach, fault) => AnswerQuiet(dp, msg, reach, fault);
    case Admin(i, op) => if i < |dp.qps| { AdminQuiet(dp, i, op); }
    case Gives(_) =>
    case Serves(l, env) => ServedQuiet(dp, l, env);
    case Leaves(_) =>
  }

  lemma {:induction false} AdminQuiet(dp: Dp, i: nat, op: QpOp)
    requires i < |dp.qps|
    ensures Quietly(dp.log, Administered(dp, i, op).log, None, false)
  {
    match op
    case Flushes => FlushQuiet(dp, i, None, false);
    case Registers(kind, rings) => RegisterQuiet(dp, i, kind, rings);
    case Unregisters => UnregisterQuiet(dp, i);
    case SetsDest(_, _) =>
    case BindsSrq(_) =>
  }

  lemma {:induction false} ServedQuiet(dp: Dp, l: Letter, env: HandleEnv)
    ensures Quietly(dp.log, Replied(dp, l, env).log, None, false)
  {
    var o := Served(dp, l, env);
    assert forall k :: 0 <= k < |o.events| ==> o.events[k].Received?;
  }

  lemma {:induction false} ServiceBehind(dp: Dp, i: nat, now: nat, at: nat -> Wqe, out: Dp, k: nat) returns (t: Turn)
    requires Servable(dp, i, now) && !dp.qps[i].fault && out == Service(dp, i, now, at)
    requires |dp.log| <= k < |out.log| && OwnEvent(out.log[k])
    ensures ServiceHas(dp, i, now, at, t) && Of(t, out.log, k)
  {
    var q := dp.qps[i];
    var d := ServiceReaches(dp, i, now, at, out, q.depth, q.prod, q.ran + Waiting(q));
    EndsGrows(d, i, now, at, out);
    t := ServiceTurnOf(dp, i, now, at, d, out, k);
  }

  lemma {:induction false} EndsGrows(d: Dp, i: nat, now: nat, at: nat -> Wqe, out: Dp)
    requires EndsAt(d, i, now, at, out)
    ensures d.log <= out.log
  {
  }

  lemma {:induction false} RingBehind(dp: Dp, c: Cmd, k: nat) returns (t: Turn)
    requires Sane(dp) && c.Ring? && |dp.log| <= k < |Do(dp, c).log| && OwnEvent(Do(dp, c).log[k])
    ensures CmdHas(dp, c, t) && Of(t, Do(dp, c).log, k)
  {
    var b := Rung(dp, c.i, c.pIndex);
    Evolve.ServiceEv(b, c.i, c.now, c.at);
    assert b.log[|dp.log|] == Do(dp, c).log[|dp.log|];
    t := ServiceBehind(b, c.i, c.now, c.at, Do(dp, c), k);
  }

  lemma {:induction false} PollBehind(dp: Dp, d: Dp, i: nat, now: nat, at: nat -> Wqe, out: Dp, k: nat)
    returns (t: Turn)
    requires Like(dp, d) && now < U64 && out == Poll(d, i, now, at) && |d.log| <= k < |out.log| && OwnEvent(out.log[k])
    ensures i < |d.qps| && d.qps[i].valid && (d.qps[i].rnr || d.qps[i].busy) && !d.qps[i].fault && CanServe(d, i, now)
    ensures ServiceHas(d, i, now, at, t) && Of(t, out.log, k)
  {
    t := ServiceBehind(d, i, now, at, out, k);
  }

  lemma {:induction false} PollGrows(dp: Dp, d: Dp, k: nat, now: nat, at: nat -> Wqe)
    requires Like(dp, d) && now < U64
    ensures d.log <= Poll(d, k, now, at).log && Like(dp, Poll(d, k, now, at))
  {
    PollOnly(dp, d, k, now, at);
    if k < |d.qps| {
      Evolve.ServiceEv(d, k, now, at);
    }
  }

  lemma {:induction false} RetryBehind(dp: Dp, c: Cmd, k: nat) returns (t: Turn)
    requires Sane(dp) && c.Retry? && |dp.log| <= k < |Do(dp, c).log| && OwnEvent(Do(dp, c).log[k])
    ensures CmdHas(dp, c, t) && Of(t, Do(dp, c).log, k)
  {
    RetryServesAll(dp, c.now, c.all);
    var step := (x, m: nat) => Poll(x, m, c.now, c.all(m));
    var list := (x: Dp) => x.log;
    var ok := (x: Dp) => Like(dp, x);
    forall x, m: nat | ok(x) ensures ok(step(x, m)) && list(x) <= list(step(x, m)) {
      PollGrows(dp, x, m, c.now, c.all(m));
    }
    var i := FoldCovers(step, list, ok, dp, |dp.qps|, k);
    var d := Reached(dp, i, c.now, c.all);
    t := PollBehind(dp, d, i, c.now, c.all(i), Poll(d, i, c.now, c.all(i)), k);
  }

  lemma {:induction false} CmdBehind(dp: Dp, c: Cmd, k: nat) returns (t: Turn)
    requires Sane(dp) && |dp.log| <= k < |Do(dp, c).log| && OwnEvent(Do(dp, c).log[k])
    ensures CmdHas(dp, c, t) && Of(t, Do(dp, c).log, k)
  {
    if c.Ring? {
      t := RingBehind(dp, c, k);
    } else if c.Retry? {
      t := RetryBehind(dp, c, k);
    } else {
      OtherQuiet(dp, c);
      assert false;
    }
  }

  /** A journal is only added to. */
  lemma {:induction false} DoGrows(dp: Dp, c: Cmd)
    requires Shaped(dp)
    ensures dp.log <= Do(dp, c).log
  {
    if c.Ring? || c.Retry? {
      Evolve.DoEv(dp, c);
    } else {
      OtherQuiet(dp, c);
    }
  }

  lemma {:induction false} AllGrows(dp: Dp, cmds: seq<Cmd>)
    requires Sane(dp)
    ensures dp.log <= DoAll(dp, cmds).log
    decreases |cmds|
  {
    if cmds != [] {
      DoGrows(dp, cmds[0]);
      DoSane(dp, cmds[0]);
      AllGrows(Do(dp, cmds[0]), cmds[1..]);
    }
  }

  /** The turn of a run that an event is of. */
  lemma {:induction false} TurnBehind(dp: Dp, cmds: seq<Cmd>, k: nat) returns (t: Turn)
    requires Sane(dp) && |dp.log| <= k < |DoAll(dp, cmds).log| && OwnEvent(DoAll(dp, cmds).log[k])
    ensures RunHas(dp, cmds, t) && Of(t, DoAll(dp, cmds).log, k)
    decreases |cmds|
  {
    var next := Do(dp, cmds[0]);
    DoSane(dp, cmds[0]);
    AllGrows(next, cmds[1..]);
    if k < |next.log| {
      t := CmdBehind(dp, cmds[0], k);
    } else {
      t := TurnBehind(next, cmds[1..], k);
    }
  }

  lemma {:induction false} HasOk(dp: Dp, cmds: seq<Cmd>, t: Turn)
    requires Sane(dp) && RunHas(dp, cmds, t)
    ensures TurnOk(t)
    decreases |cmds|
  {
    if !CmdHas(dp, cmds[0], t) {
      DoSane(dp, cmds[0]);
      HasOk(Do(dp, cmds[0]), cmds[1..], t);
    }
  }

  /** A turn keeps every QP set up as it was. */
  lemma {:induction false} NextSame(a: Dp, d: Dp, i: nat, now: nat, at: nat -> Wqe, next: Option<Dp>)
    requires SameSetups(a, d) && next == NextState(d, i, now, at) && next.Some?
    ensures SameSetups(a, next.value)
  {
    TurnSame(a, d, i, now, Front(d.qps[i], at), Run(d, i, now, Front(d.qps[i], at)));
  }

  lemma {:induction false} CourseSame(dp: Dp, i: nat, now: nat, at: nat -> Wqe, left: nat, x: Dp)
    requires x in Course(dp, i, now, at, left)
    ensures SameSetups(dp, x)
  {
    var next := (d: Dp) => NextState(d, i, now, at);
    var ok := (d: Dp) => SameSetups(dp, d);
    forall y | ok(y) && next(y).Some? ensures ok(next(y).value) {
      NextSame(dp, y, i, now, at, next(y));
    }
    TrailAll(next, ok, dp, left, x);
  }

  /** The QP whose turn it is is set up as it was when the command came. */
  lemma {:induction false} TurnSetup(dp: Dp, c: Cmd, t: Turn)
    requires Sane(dp) && CmdHas(dp, c, t)
    ensures t.i < |dp.qps| && SetupOf(t.dp.qps[t.i]) == SetupOf(dp.qps[t.i])
  {
    match c
    case Ring(i, pIndex, now, at) => CourseSame(Rung(dp, i, pIndex), i, now, at, dp.qps[i].depth, t.dp);
    case Retry(now, all) =>
      var d := Progress.Reached(dp, t.i, now, all);
      ReachedOnly(dp, t.i, t.i, now, all);
      CourseSame(d, t.i, now, all(t.i), d.qps[t.i].depth, t.dp);
  }

  // ---------------------------------------------------------------------
  // What the journal of a run says
  // ---------------------------------------------------------------------

  /** Whether a turn's events say what its WQE calls for. */
  predicate Faithful(t: Turn) { TurnSays(t.dp, t.i, t.w, t.r, Verdict(t.dp, t.i, t.now, t.w)) }

  /** The turn that an event is of says what its WQE calls for. */
  lemma {:induction false} FaithfulTurn(dp: Dp, cmds: seq<Cmd>, k: nat) returns (t: Turn)
    requires Sane(dp) && |dp.log| <= k < |DoAll(dp, cmds).log| && OwnEvent(DoAll(dp, cmds).log[k])
    ensures RunHas(dp, cmds, t) && TurnOk(t) && Of(t, DoAll(dp, cmds).log, k) && Faithful(t)
  {
    t := TurnBehind(dp, cmds, k);
    HasOk(dp, cmds, t);
    TurnVerdict(t.dp, t.i, t.now, t.w, t.r);
  }

  /** Every request of a run is what the WQE of one of its turns asks for, from that
      turn's QP to its peer, or the datagram that WQE describes. */
  lemma {:induction false} RequestsAskForTheirWqe(dp: Dp, cmds: seq<Cmd>, k: nat) returns (t: Turn)
    requires Sane(dp) && |dp.log| <= k < |DoAll(dp, cmds).log| && DoAll(dp, cmds).log[k].Sent?
    ensures RunHas(dp, cmds, t) && TurnOk(t) && t.w.Wqe? && Departs(t.dp, t.i, t.w, DoAll(dp, cmds).log[k])
  {
    t := FaithfulTurn(dp, cmds, k);
    OfDeparts(t, DoAll(dp, cmds).log, k);
  }

  lemma {:induction false} OfDeparts(t: Turn, l: Log, k: nat)
    requires CanServe(t.dp, t.i, t.now) && Of(t, l, k) && Faithful(t) && l[k].Sent?
    ensures t.w.Wqe? && Departs(t.dp, t.i, t.w, l[k])
  {
    assert t.r.dp.log[k] == l[k] && OwnEvent(t.r.dp.log[k]);
  }

  /** Every completion of a WQE of its own is one of the turn that ran it, with the
      status it earned there. */
  lemma {:induction false} CompletionsAreEarned(dp: Dp, cmds: seq<Cmd>, k: nat) returns (t: Turn)
    requires Sane(dp) && |dp.log| <= k < |DoAll(dp, cmds).log|
    requires DoAll(dp, cmds).log[k].Cqe? && DoAll(dp, cmds).log[k].cause.ByWqe?
    ensures RunHas(dp, cmds, t) && TurnOk(t) && t.w.Wqe? && Of(t, DoAll(dp, cmds).log, k)
    ensures var e := DoAll(dp, cmds).log[k];
      OwnCqe(t.dp, t.i, t.w, e, e.status) && Verdict(t.dp, t.i, t.now, t.w) == Some(e.status)
  {
    t := FaithfulTurn(dp, cmds, k);
    OfEarned(t, DoAll(dp, cmds).log, k);
  }

  lemma {:induction false} OfEarned(t: Turn, l: Log, k: nat)
    requires CanServe(t.dp, t.i, t.now) && Of(t, l, k) && Faithful(t) && l[k].Cqe? && l[k].cause.ByWqe?
    ensures t.w.Wqe? && OwnCqe(t.dp, t.i, t.w, l[k], l[k].status)
    ensures Verdict(t.dp, t.i, t.now, t.w) == Some(l[k].status)
  {
    assert t.r.dp.log[k] == l[k] && OwnEvent(t.r.dp.log[k]);
  }

  predicate TookOne(l: Log, j: nat, mesh: nat, k: nat) {
    exists x :: 0 <= x < |l| && l[x].Received? && l[x].qp == j && l[x].taker == ForWqe(mesh, k)
  }

  /** An RC SEND that gets as far as a QP's receives takes one. */
  predicate GotReceive(t: Turn, l: Log) {
    SendsTo(t.dp, t.i, t.w) && t.dp.qps[t.i].kind.RC? ==>
      var j := PeerOf(t.dp, t.i, t.w);
      GetsTo(t.dp, t.i, j, t.w) ==> TookOne(l, j, t.dp.qps[t.i].mesh, t.dp.qps[t.i].ran)
  }

  /** What a connected QP's WQE that the device completes itself with success has
      done. */
  predicate Did(t: Turn, l: Log) {
    && t.i < |t.dp.qps| && t.w.Wqe?
    && (t.w.op.OpRegMr? ==> t.w.reg.Binds? && Regions.Accepts(Asked(t.w)))
    && (!IsReg(t.w) ==>
          && Sendable(t.dp, t.w) && !Elsewhere(t.dp, t.dp.qps[t.i]) && !t.w.op.OpOther?
          && (IsRdmaOp(t.w.op) ==> RdmaCan(t.dp.host, t.w))
          && (IsAtomicOp(t.w) ==> AtomicCan(t.dp.host, t.w)) && GotReceive(t, l))
  }

  predicate Connected(t: Turn) { t.i < |t.dp.qps| && (t.dp.qps[t.i].kind.RC? || t.dp.qps[t.i].kind.UC?) }

  /** A WQE that succeeds here. */
  predicate Succeeds(t: Turn) {
    && CanServe(t.dp, t.i, t.now) && Connected(t) && t.w.Wqe? && Verdict(t.dp, t.i, t.now, t.w) == Some(Ok)
  }

  lemma {:induction false} SucceedsHere(t: Turn, l: Log)
    requires Succeeds(t)
    ensures IsReg(t.w) || (Sendable(t.dp, t.w) && !Elsewhere(t.dp, t.dp.qps[t.i]))
    ensures SendsTo(t.dp, t.i, t.w) && !IsReg(t.w) ==> SendStatus(t.dp, t.i, t.now, t.w) == Some(Ok)
    ensures GotReceive(t, l) ==> Did(t, l)
  {
  }

  /** A SEND that takes a receive says so in the journal. */
  lemma {:induction false} TakesOne(t: Turn, l: Log)
    requires TurnOk(t) && Succeeds(t) && !IsReg(t.w) && t.r.dp.log <= l && SendsTo(t.dp, t.i, t.w)
    requires SendEnds(t.dp, t.i, t.now, t.w, t.r) && SendStatus(t.dp, t.i, t.now, t.w) == Some(Ok)
    ensures GotReceive(t, l)
  {
    assert t.dp.log < t.r.dp.log ==> l[|t.dp.log|] == t.r.dp.log[|t.dp.log|];
  }

  lemma {:induction false} SuccessDid(t: Turn, l: Log)
    requires TurnOk(t) && Succeeds(t) && t.r.dp.log <= l
    ensures Did(t, l)
  {
    SucceedsHere(t, l);
    if !IsReg(t.w) && SendsTo(t.dp, t.i, t.w) {
      Dispatched(t.dp, t.i, t.now, t.w, t.r);
      SendVerdict(t.dp, t.i, t.now, t.w, t.r);
      TakesOne(t, l);
    }
  }

  /** In every run, a WQE of a connected QP that the device completes itself with
      success was not for another node, and has been done: a registration was
      accepted, an RDMA or an atomic could be carried out, and an RC SEND that got as
      far as a QP's receives took one. */
  lemma {:induction false} OwnSuccessIsDone(dp: Dp, cmds: seq<Cmd>, k: nat) returns (t: Turn)
    requires Sane(dp) && |dp.log| <= k < |DoAll(dp, cmds).log|
    requires DoAll(dp, cmds).log[k].Cqe? && DoAll(dp, cmds).log[k].cause.ByWqe? && DoAll(dp, cmds).log[k].status == Ok
    ensures RunHas(dp, cmds, t) && TurnOk(t) && t.w.Wqe? && OwnCqe(t.dp, t.i, t.w, DoAll(dp, cmds).log[k], Ok)
    ensures Connected(t) ==> Did(t, DoAll(dp, cmds).log)
  {
    t := CompletionsAreEarned(dp, cmds, k);
    if Connected(t) {
      SuccessDid(t, DoAll(dp, cmds).log);
    }
  }
}
