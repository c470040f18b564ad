/** What every run of several nodes keeps, and what a completion with success
    therefore means. */
module MeshInv {
  import opened Arith
  import opened Wire
  import opened Journal
  import opened Inbound
  import opened Copying
  import opened Host
  import opened Responder
  import opened SendQueue
  import opened Serving
  import opened Ledger
  import opened Evolve
  import opened Mesh
  import opened MeshTokens

  // ---------------------------------------------------------------------
  // What messages say
  // ---------------------------------------------------------------------

  /** Each node's journal. */
  function LogsOf(w: World): (l: seq<Log>) {
    seq(|w.nodes|, i requires 0 <= i < |w.nodes| => w.nodes[i].dp.log)
  }

  /** Whether e is what the reply m to node t reports. */
  predicate Reports(e: Exec, t: nat, m: Msg) {
    e.origin == t && e.msg.reqId == m.reqId && e.status == m.status && m.op == ReplyOp(e.msg.op)
    && (m.status == Ok ==> e.data == m.payload)
  }

  predicate Backed(execs: seq<Exec>, t: nat, m: Msg) {
    exists k :: 0 <= k < |execs| && Reports(execs[k], t, m)
  }

  /** A message for dst is the request its sender sent there, or reports an
      execution. */
  predicate MailOk(logs: seq<Log>, execs: seq<Exec>, dst: nat, l: Letter) {
    && l.src < |logs|
    && (IsRequest(l.msg.op) ==> SentAs(logs[l.src], dst, l.msg))
    && (IsResponse(l.msg.op) ==> Backed(execs, dst, l.msg))
  }

  /** A message a node has queued is a request under the registration that sent
      it, or a reply. */
  predicate OutOk(logs: seq<Log>, execs: seq<Exec>, i: nat, m: Queued) {
    && m.reply == IsResponse(m.msg.op)
    && (!m.reply ==> IsRequest(m.msg.op) && m.req == m.msg.reqId && i < |logs| && SentUnder(logs[i], m))
    && MailOk(logs, execs, m.dst, Letter(i, m.msg))
  }

  predicate ExecOk(logs: seq<Log>, e: Exec) {
    && e.origin < |logs| && IsRequest(e.msg.op)
    && SentAs(logs[e.origin], e.at, e.msg)
    && (e.status == Ok ==> |e.data| == AnswerSize(e.msg))
    && (e.took ==> e.status == Ok && (IsSend(e.msg.op) || e.msg.op.WriteImm?))
    && (IsSend(e.msg.op) && e.status == Ok ==> e.took)
  }

  ghost predicate OutqsOk(w: World) {
    forall i, m :: 0 <= i < |w.nodes| && m in w.nodes[i].dp.outq ==> OutOk(LogsOf(w), w.execs, i, m)
  }

  ghost predicate NetOk(w: World) {
    forall p :: p in w.net ==> MailOk(LogsOf(w), w.execs, p.dst, p.letter)
  }

  ghost predicate RxsOk(w: World) {
    forall i, m :: 0 <= i < |w.nodes| && m in Held(w.nodes[i].rx) ==> MailOk(LogsOf(w), w.execs, i, m.letter)
  }

  ghost predicate ExecsOk(w: World) {
    forall e :: e in w.execs ==> ExecOk(LogsOf(w), e)
  }

  predicate HasLanded(log: Log, r: nat, data: seq<byte>) {
    exists i :: 0 <= i < |log| && log[i].Landed? && log[i].req == r && log[i].data == data
  }

  /** Whether e is a successful execution of request r of node i, with all it
      returned landed there. */
  predicate Proves(log: Log, e: Exec, i: nat, r: nat) {
    && e.origin == i && e.msg.reqId == r && e.status == Ok
    && (e.msg.op.ReadReq? || e.msg.op.AtomicReq? ==> HasLanded(log, r, e.data))
  }

  predicate Confirmed(log: Log, execs: seq<Exec>, i: nat, r: nat) {
    exists k :: 0 <= k < |execs| && Proves(log, execs[k], i, r)
  }

  ghost predicate OksOk(w: World) {
    forall i, r: nat :: 0 <= i < |w.nodes| && Tally(w.nodes[i].dp.log, KOk(r)) > 0
      ==> Confirmed(w.nodes[i].dp.log, w.execs, i, r)
  }

  ghost predicate MailInv(w: World) {
    OutqsOk(w) && NetOk(w) && RxsOk(w) && ExecsOk(w) && OksOk(w)
  }

  // ---------------------------------------------------------------------
  // All of it stays true as journals and executions grow
  // ---------------------------------------------------------------------

  predicate Later(w: World, w': World) {
    && |w'.nodes| == |w.nodes|
    && w.execs <= w'.execs
    && forall i :: 0 <= i < |w.nodes| ==> w.nodes[i].dp.log <= w'.nodes[i].dp.log
  }

  lemma {:induction false} MailLater(w: World, w': World, dst: nat, l: Letter)
    requires Later(w, w') && MailOk(LogsOf(w), w.execs, dst, l)
    ensures MailOk(LogsOf(w'), w'.execs, dst, l)
  {
  }

  lemma {:induction false} OutqsLater(w: World, w': World)
    requires Later(w, w') && OutqsOk(w)
    requires forall i, m :: 0 <= i < |w.nodes| && m in w'.nodes[i].dp.outq
               ==> m in w.nodes[i].dp.outq || OutOk(LogsOf(w'), w'.execs, i, m)
    ensures OutqsOk(w')
  {
  }

  lemma {:induction false} NetLater(w: World, w': World)
    requires Later(w, w') && NetOk(w)
    requires forall p :: p in w'.net ==> p in w.net || MailOk(LogsOf(w'), w'.execs, p.dst, p.letter)
    ensures NetOk(w')
  {
  }

  predicate HoldsLetter(rx: Rx, l: Letter) { l in Letters(Held(rx)) }

  lemma {:induction false} HeldMail(w: World, i: nat, l: Letter)
    requires RxsOk(w) && i < |w.nodes| && HoldsLetter(w.nodes[i].rx, l)
    ensures MailOk(LogsOf(w), w.execs, i, l)
  {
  }

  lemma {:induction false} RxsLater(w: World, w': World)
    requires Later(w, w') && RxsOk(w)
    requires forall i, m :: 0 <= i < |w.nodes| && m in Held(w'.nodes[i].rx)
               ==> HoldsLetter(w.nodes[i].rx, m.letter) || MailOk(LogsOf(w'), w'.execs, i, m.letter)
    ensures RxsOk(w')
  {
    forall i, m | 0 <= i < |w'.nodes| && m in Held(w'.nodes[i].rx) ensures MailOk(LogsOf(w'), w'.execs, i, m.letter) {
      if HoldsLetter(w.nodes[i].rx, m.letter) {
        HeldMail(w, i, m.letter);
        MailLater(w, w', i, m.letter);
      }
    }
  }

  lemma {:induction false} ExecsLater(w: World, w': World)
    requires Later(w, w') && ExecsOk(w)
    requires forall e :: e in w'.execs ==> e in w.execs || ExecOk(LogsOf(w'), e)
    ensures ExecsOk(w')
  {
  }

  lemma {:induction false} OksLater(w: World, w': World)
    requires Later(w, w') && OksOk(w)
    requires forall i, r: nat :: 0 <= i < |w.nodes|
               && Tally(w'.nodes[i].dp.log, KOk(r)) > Tally(w.nodes[i].dp.log, KOk(r))
               ==> Confirmed(w'.nodes[i].dp.log, w'.execs, i, r)
    ensures OksOk(w')
  {
  }

  // ---------------------------------------------------------------------
  // Steps that leave the data paths' journals alone
  // ---------------------------------------------------------------------

  /** What a step does that sends, moves or loses messages. */
  lemma {:induction false} ShuffleMail(w: World, w': World)
    requires MailInv(w) && Later(w, w') && w'.execs == w.execs
    requires forall i :: 0 <= i < |w.nodes| ==> w'.nodes[i].dp.log == w.nodes[i].dp.log
    requires forall i, m :: 0 <= i < |w.nodes| && m in w'.nodes[i].dp.outq ==> m in w.nodes[i].dp.outq
    requires forall p :: p in w'.net ==> p in w.net || MailOk(LogsOf(w), w.execs, p.dst, p.letter)
    requires forall i, m :: 0 <= i < |w.nodes| && m in Held(w'.nodes[i].rx)
               ==> HoldsLetter(w.nodes[i].rx, m.letter) || MailOk(LogsOf(w), w.execs, i, m.letter)
    ensures MailInv(w')
  {
    assert LogsOf(w') == LogsOf(w);
    OutqsLater(w, w');
    NetLater(w, w');
    RxsLater(w, w');
    ExecsLater(w, w');
    OksLater(w, w');
  }

  lemma {:induction false} HeldHolds(rx: Rx, m: InMsg)
    requires m in Held(rx)
    ensures HoldsLetter(rx, m.letter)
  {
  }

  lemma {:induction false} SameRxs(w: World, w': World)
    requires |w'.nodes| == |w.nodes| && forall i :: 0 <= i < |w.nodes| ==> w'.nodes[i].rx == w.nodes[i].rx
    ensures forall i, m :: 0 <= i < |w.nodes| && m in Held(w'.nodes[i].rx) ==> HoldsLetter(w.nodes[i].rx, m.letter)
  {
  }

  lemma {:induction false} DropIn<T>(s: seq<T>, k: nat, x: T)
    requires k < |s| && x in Drop(s, k)
    ensures x in s
  {
  }

  lemma {:induction false} DepartMail(w: World, j: nat, k: nat)
    requires MailInv(w) && j < |w.nodes| && k < |w.nodes[j].dp.outq|
    ensures MailInv(Departed(w, j, k))
  {
    var w' := Departed(w, j, k);
    var q := w.nodes[j].dp.outq;
    assert q[k] in q;
    assert OutOk(LogsOf(w), w.execs, j, q[k]);
    forall i, m | 0 <= i < |w.nodes| && m in w'.nodes[i].dp.outq ensures m in w.nodes[i].dp.outq {
      if i == j {
        DropIn(q, k, m);
      }
    }
    SameRxs(w, w');
    ShuffleMail(w, w');
  }

  lemma {:induction false} LoseQueuedMail(w: World, j: nat, k: nat, w': World)
    requires MailInv(w) && j < |w.nodes| && k < |w.nodes[j].dp.outq|
    requires w' == SetDp(w, j, w.nodes[j].dp.(outq := Drop(w.nodes[j].dp.outq, k)))
    ensures MailInv(w')
  {
    var q := w.nodes[j].dp.outq;
    forall i, m | 0 <= i < |w.nodes| && m in w'.nodes[i].dp.outq ensures m in w.nodes[i].dp.outq {
      if i == j {
        DropIn(q, k, m);
      }
    }
    SameRxs(w, w');
    ShuffleMail(w, w');
  }

  lemma {:induction false} LoseMail(w: World, k: nat)
    requires MailInv(w) && k < |w.net|
    ensures MailInv(w.(net := Drop(w.net, k)))
  {
  }

  lemma {:induction false} RecvHolds(rx: Rx, l: Letter, allocOk: bool, at: nat, m: InMsg)
    requires m in Held(Recv(rx, l, allocOk, at).0)
    ensures HoldsLetter(rx, m.letter) || m.letter == l
  {
    var (rx', res) := Recv(rx, l, allocOk, at);
    if res.Took? {
      assert Held(rx') == Held(rx) + [InMsg(l, 0)];
    } else {
      assert Held(rx') == Held(rx);
    }
    if m in Held(rx) {
      HeldHolds(rx, m);
    }
  }

  lemma {:induction false} DeliverMail(w: World, k: nat, allocOk: bool, at: nat)
    requires MailInv(w) && k < |w.net| && w.net[k].dst < |w.nodes|
    ensures MailInv(Arrived(w, k, allocOk, at))
  {
    var w' := Arrived(w, k, allocOk, at);
    var t := w.net[k].dst;
    assert w.net[k] in w.net;
    forall i, m | 0 <= i < |w.nodes| && m in Held(w'.nodes[i].rx)
      ensures HoldsLetter(w.nodes[i].rx, m.letter) || MailOk(LogsOf(w), w.execs, i, m.letter)
    {
      if i == t {
        RecvHolds(w.nodes[t].rx, w.net[k].letter, allocOk, at, m);
      } else {
        HeldHolds(w.nodes[i].rx, m);
      }
    }
    ShuffleMail(w, w');
  }

  /** Messages that only move within a node's inbound queue. */
  lemma {:induction false} MoveMail(w: World, j: nat, rx: Rx)
    requires MailInv(w) && j < |w.nodes| && Letters(Held(rx)) == Letters(Held(w.nodes[j].rx))
    ensures MailInv(SetRx(w, j, rx))
  {
    var w' := SetRx(w, j, rx);
    forall i, m | 0 <= i < |w.nodes| && m in Held(w'.nodes[i].rx) ensures HoldsLetter(w.nodes[i].rx, m.letter) {
      HeldHolds(w'.nodes[i].rx, m);
    }
    ShuffleMail(w, w');
  }

  // ---------------------------------------------------------------------
  // A node's own step
  // ---------------------------------------------------------------------

  /** How a node's data path moves on: its queue and pending table as Ev says,
      and its inbound queue loses messages at most. */
  ghost predicate Moves(w: World, j: nat, node: Node, ans: Option<nat>) {
    && j < |w.nodes| && Ev(w.nodes[j].dp, node.dp, ans)
    && forall m :: m in Held(node.rx) ==> HoldsLetter(w.nodes[j].rx, m.letter)
  }

  lemma {:induction false} MovesOutqs(w: World, j: nat, node: Node, ans: Option<nat>, w': World)
    requires OutqsOk(w) && Moves(w, j, node, ans) && Later(w, w') && w'.nodes == w.nodes[j := node]
    ensures OutqsOk(w')
  {
  }

  lemma {:induction false} MovesRest(w: World, j: nat, node: Node, ans: Option<nat>, w': World)
    requires NetOk(w) && RxsOk(w)
    requires Moves(w, j, node, ans) && Later(w, w') && w' == w.(nodes := w.nodes[j := node], execs := w'.execs)
    ensures NetOk(w') && RxsOk(w')
  {
    NetLater(w, w');
    forall i, m | 0 <= i < |w.nodes| && m in Held(w'.nodes[i].rx) ensures HoldsLetter(w.nodes[i].rx, m.letter) {
      if i != j {
        HeldHolds(w.nodes[i].rx, m);
      }
    }
    RxsLater(w, w');
  }

  lemma {:induction false} LocalMail(w: World, j: nat, dp: Dp)
    requires MailInv(w) && j < |w.nodes| && Ev(w.nodes[j].dp, dp, None)
    ensures MailInv(SetDp(w, j, dp))
  {
    var w' := SetDp(w, j, dp);
    var node := w.nodes[j].(dp := dp);
    forall m | m in Held(node.rx) ensures HoldsLetter(w.nodes[j].rx, m.letter) {
      HeldHolds(node.rx, m);
    }
    MovesOutqs(w, j, node, None, w');
    MovesRest(w, j, node, None, w');
    ExecsLater(w, w');
    OksLater(w, w');
  }

  // ---------------------------------------------------------------------
  // Carrying out a message
  // ---------------------------------------------------------------------

  /** What a request leaves of its node's journal. */
  lemma {:induction false} CarriedLog(dp: Dp, o: Outcome)
    requires o.events == [] || (|o.events| == 1 && o.events[0].Received?)
    ensures dp.log <= Carried(dp, o).log
    ensures forall r: nat :: Tally(Carried(dp, o).log, KOk(r)) == Tally(dp.log, KOk(r))
  {
    if o.events == [] {
      assert dp.log + [] == dp.log;
    } else {
      assert o.events == [o.events[0]];
      TallyAfter(dp.log, o.events[0]);
    }
  }

  /** The execution of a request that was sent here, and the reply to it. */
  lemma {:induction false} ExecutedOk(w: World, j: nat, l: Letter, env: HandleEnv, e: Exec)
    requires RxsOk(w) && j < |w.nodes| && HoldsLetter(w.nodes[j].rx, l) && IsRequest(l.msg.op)
    requires e == ExecOf(j, l, Served(w.nodes[j].dp, l, env))
    ensures ExecOk(LogsOf(w), e) && Reports(e, l.src, ReplyTo(l.msg, e.status, e.data)) && l.src < |w.nodes|
  {
    var dp := w.nodes[j].dp;
    HeldMail(w, j, l);
    AnswerSized(dp.host, RingOf(dp, l.msg), l.src, l.msg, env.found);
    TakesAsItSays(dp.host, RingOf(dp, l.msg), l.src, l.msg, env.found);
  }

  lemma {:induction false} ReplyOut(w: World, w': World, j: nat, l: Letter, e: Exec, m: Queued)
    requires Later(w, w') && l.src < |w.nodes| && w'.execs == w.execs + [e]
    requires Reports(e, l.src, ReplyTo(l.msg, e.status, e.data))
    requires j < |w.nodes| && m == Queued(l.src, true, 0, 0, ReplyTo(l.msg, e.status, e.data))
    ensures OutOk(LogsOf(w'), w'.execs, j, m)
  {
    assert w'.execs[|w.execs|] == e;
    assert Backed(w'.execs, l.src, m.msg);
  }

  /** A request is carried out, and its reply queued or lost. */
  lemma {:induction false} RequestMail(w: World, j: nat, l: Letter, env: HandleEnv, rx: Rx)
    requires MailInv(w) && j < |w.nodes| && HoldsLetter(w.nodes[j].rx, l) && IsRequest(l.msg.op)
    requires forall m :: m in Held(rx) ==> HoldsLetter(w.nodes[j].rx, m.letter)
    ensures var dp := w.nodes[j].dp;
      MailInv(w.(nodes := w.nodes[j := Node(Replied(dp, l, env), rx)], execs := w.execs + Executed(j, dp, l, env)))
  {
    var dp := w.nodes[j].dp;
    var o := Served(dp, l, env);
    var node, e := Node(Replied(dp, l, env), rx), ExecOf(j, l, o);
    var w' := w.(nodes := w.nodes[j := node], execs := w.execs + [e]);
    TakesAsItSays(dp.host, RingOf(dp, l.msg), l.src, l.msg, env.found);
    CarriedLog(dp, o);
    ExecutedOk(w, j, l, env, e);
    assert Later(w, w');
    forall i, m | 0 <= i < |w.nodes| && m in w'.nodes[i].dp.outq
      ensures m in w.nodes[i].dp.outq || OutOk(LogsOf(w'), w'.execs, i, m)
    {
      if i == j && m !in dp.outq {
        ReplyOut(w, w', j, l, e, m);
      }
    }
    OutqsLater(w, w');
    RequestRest(w, j, node, e, w');
  }

  lemma {:induction false} RequestRest(w: World, j: nat, node: Node, e: Exec, w': World)
    requires MailInv(w) && j < |w.nodes| && ExecOk(LogsOf(w), e) && w.nodes[j].dp.log <= node.dp.log
    requires forall r: nat :: Tally(node.dp.log, KOk(r)) == Tally(w.nodes[j].dp.log, KOk(r))
    requires forall m :: m in Held(node.rx) ==> HoldsLetter(w.nodes[j].rx, m.letter)
    requires w' == w.(nodes := w.nodes[j := node], execs := w.execs + [e])
    ensures NetOk(w') && RxsOk(w') && ExecsOk(w') && OksOk(w')
  {
    assert Later(w, w');
    NetLater(w, w');
    forall i, m | 0 <= i < |w.nodes| && m in Held(w'.nodes[i].rx) ensures HoldsLetter(w.nodes[i].rx, m.letter) {
      if i != j {
        HeldHolds(w.nodes[i].rx, m);
      }
    }
    RxsLater(w, w');
    ExecLater(w, w', e);
    ExecsLater(w, w');
    OksLater(w, w');
  }

  lemma {:induction false} ExecLater(w: World, w': World, e: Exec)
    requires Later(w, w') && ExecOk(LogsOf(w), e)
    ensures ExecOk(LogsOf(w'), e)
  {
    assert e.origin < |LogsOf(w')| && LogsOf(w)[e.origin] <= LogsOf(w')[e.origin];
    SentAsLater(LogsOf(w)[e.origin], LogsOf(w')[e.origin], e.at, e.msg);
  }

  lemma {:induction false} SentAsLater(log: Log, log': Log, dst: nat, msg: Msg)
    requires log <= log' && SentAs(log, dst, msg)
    ensures SentAs(log', dst, msg)
  {
    var i :| 0 <= i < |log| && log[i].Sent? && log[i].msg == msg && log[i].req == msg.reqId && log[i].dst == dst;
    assert log'[i] == log[i];
  }

  // ---------------------------------------------------------------------
  // An answer
  // ---------------------------------------------------------------------

  lemma {:induction false} CompleteHost(dp: Dp, s: nat, status: Status, how: How)
    requires s < |dp.pend| && dp.pend[s].Some?
    ensures Complete(dp, s, status, how).host == dp.host
  {
  }

  /** What an answer that completes a request with success has done: all it
      brought that was wanted is in the request's list, and nothing else of memory
      has changed. */
  predicate LandedAll(dp: Dp, dp': Dp, p: Pending, msg: Msg) {
    var s, n := Flat(dp.host.mrs, p.local), Wanted(p, msg);
    && n <= |s| && Reachable(dp.host.mem, s[..n])
    && dp'.host == dp.host.(mem := Put(dp.host.mem, s, msg.payload, n))
    && HasLanded(dp'.log, p.req, msg.payload[..n])
  }

  /** What a completion with success tells about the answer that brought it. */
  lemma {:induction false} ResponseOk(dp: Dp, msg: Msg, reach: Reach, fault: Status, r: nat, dp': Dp)
    requires dp' == Response(dp, msg, reach, fault)
    requires Tally(dp'.log, KOk(r)) > Tally(dp.log, KOk(r))
    ensures r == msg.reqId && msg.status == Ok
    ensures var s := Find(dp.pend, 0, r);
      s < |dp.pend| && (msg.op != Ack ==> LandedAll(dp, dp', dp.pend[s].value, msg))
  {
    ResponseEv(dp, msg, reach, fault);
    var s := Find(dp.pend, 0, msg.reqId);
    if s < |dp.pend| {
      if msg.status != Ok {
        CompleteEv(dp, s, msg.status, Answered, None);
      } else if msg.op != Ack {
        LandedOk(dp, msg, reach, fault, r, dp', s);
      }
    }
  }

  lemma {:induction false} LandedOk(dp: Dp, msg: Msg, reach: Reach, fault: Status, r: nat, dp': Dp, s: nat)
    requires dp' == Response(dp, msg, reach, fault) && s == Find(dp.pend, 0, msg.reqId) && s < |dp.pend|
    requires msg.status == Ok && msg.op != Ack && r == msg.reqId
    requires Tally(dp'.log, KOk(r)) > Tally(dp.log, KOk(r))
    ensures LandedAll(dp, dp', dp.pend[s].value, msg)
  {
    var p := dp.pend[s].value;
    var b, status := Scattered(dp, p, msg, reach), ScatterStatus(dp, p, msg, reach, fault);
    var e := b.log[|dp.log|];
    if status != Ok {
      CalmEv(dp, b, e, None);
      CompleteEv(b, s, status, Answered, None);
    }
    AllCounted(dp.host.mem, Flat(dp.host.mrs, p.local), Wanted(p, msg), reach);
    CompleteHost(b, s, status, Answered);
    assert dp'.log[|dp.log|] == e;
  }

  /** A reply's execution was of the request the pending entry stands for. */
  lemma {:induction false} SameRequest(log: Log, p: Pending, dst: nat, msg: Msg)
    requires Sound(log) && Described(log, p) && SentAs(log, dst, msg) && msg.reqId == p.req
    ensures AnswerSize(msg) == p.length
  {
    var j :| 0 <= j < |log| && log[j].Sent? && log[j].msg == msg && log[j].req == msg.reqId && log[j].dst == dst;
    SentOfAt(log, j);
  }

  /** The execution a held reply reports. */
  lemma {:induction false} ReplyExec(w: World, j: nat, l: Letter) returns (k: nat)
    requires RxsOk(w) && ExecsOk(w) && j < |w.nodes| && HoldsLetter(w.nodes[j].rx, l) && IsResponse(l.msg.op)
    ensures k < |w.execs| && Reports(w.execs[k], j, l.msg)
    ensures IsRequest(w.execs[k].msg.op) && SentAs(w.nodes[j].dp.log, w.execs[k].at, w.execs[k].msg)
    ensures w.execs[k].status == Ok ==> |w.execs[k].data| == AnswerSize(w.execs[k].msg)
  {
    HeldMail(w, j, l);
    k :| 0 <= k < |w.execs| && Reports(w.execs[k], j, l.msg);
    assert w.execs[k] in w.execs;
    assert ExecOk(LogsOf(w), w.execs[k]);
  }

  /** All that an execution returned has gone to the list its request was sent
      with, every byte of which was there, and nothing else of the requester's
      memory has changed. */
  predicate LandedFor(dp: Dp, dp': Dp, e: Exec, r: nat) {
    && SentOf(dp.log, r).Some?
    && var s := Flat(dp.host.mrs, SentOf(dp.log, r).value.local);
       && |e.data| <= |s| && Reachable(dp.host.mem, s[..|e.data|])
       && dp'.host == dp.host.(mem := Put(dp.host.mem, s, e.data, |e.data|))
  }

  /** What an answer to a READ or an atomic brought is what its execution returned. */
  lemma {:induction false} LandsFor(dp: Dp, dp': Dp, msg: Msg, e: Exec, j: nat, r: nat, p: Pending)
    requires Sound(dp.log) && Described(dp.log, p) && p.req == r && LandedAll(dp, dp', p, msg)
    requires Reports(e, j, msg) && msg.status == Ok && msg.reqId == r && SentAs(dp.log, e.at, e.msg)
    requires e.msg.op.ReadReq? || e.msg.op.AtomicReq?
    requires |e.data| == AnswerSize(e.msg)
    ensures HasLanded(dp'.log, r, e.data) && LandedFor(dp, dp', e, r)
  {
    SameRequest(dp.log, p, e.at, e.msg);
    assert msg.payload[..|msg.payload|] == msg.payload;
  }

  /** The reply that completes a request with success proves it was done, and has
      brought what it returned. */
  lemma {:induction false} ReplyConfirms(w: World, j: nat, l: Letter, env: HandleEnv, dp': Dp, r: nat) returns (e: Exec)
    requires RxsOk(w) && ExecsOk(w) && j < |w.nodes| && Sound(w.nodes[j].dp.log)
    requires AllDescribed(w.nodes[j].dp.pend, w.nodes[j].dp.log)
    requires HoldsLetter(w.nodes[j].rx, l) && IsResponse(l.msg.op)
    requires dp' == Response(w.nodes[j].dp, l.msg, env.found.reach, env.found.fault)
    requires Tally(dp'.log, KOk(r)) > Tally(w.nodes[j].dp.log, KOk(r))
    ensures e in w.execs && Proves(dp'.log, e, j, r) && |e.data| == AnswerSize(e.msg)
    ensures e.msg.op.ReadReq? || e.msg.op.AtomicReq? ==> LandedFor(w.nodes[j].dp, dp', e, r)
  {
    var dp := w.nodes[j].dp;
    ResponseOk(dp, l.msg, env.found.reach, env.found.fault, r, dp');
    var k := ReplyExec(w, j, l);
    e := w.execs[k];
    if e.msg.op.ReadReq? || e.msg.op.AtomicReq? {
      var s := Find(dp.pend, 0, r);
      assert Described(dp.log, dp.pend[s].value);
      LandsFor(dp, dp', l.msg, e, j, r, dp.pend[s].value);
    }
  }

  lemma {:induction false} Confirms(log: Log, execs: seq<Exec>, e: Exec, i: nat, r: nat)
    requires e in execs && Proves(log, e, i, r)
    ensures Confirmed(log, execs, i, r)
  {
  }

  lemma {:induction false} ResponseMail(w: World, j: nat, l: Letter, env: HandleEnv, rx: Rx)
    requires MailInv(w) && j < |w.nodes| && Sound(w.nodes[j].dp.log)
    requires AllDescribed(w.nodes[j].dp.pend, w.nodes[j].dp.log)
    requires HoldsLetter(w.nodes[j].rx, l) && IsResponse(l.msg.op)
    requires forall m :: m in Held(rx) ==> HoldsLetter(w.nodes[j].rx, m.letter)
    ensures var dp' := Response(w.nodes[j].dp, l.msg, env.found.reach, env.found.fault);
      MailInv(w.(nodes := w.nodes[j := Node(dp', rx)]))
  {
    var dp' := Response(w.nodes[j].dp, l.msg, env.found.reach, env.found.fault);
    var node := Node(dp', rx);
    var w' := w.(nodes := w.nodes[j := node]);
    ResponseEv(w.nodes[j].dp, l.msg, env.found.reach, env.found.fault);
    MovesOutqs(w, j, node, Some(l.msg.reqId), w');
    MovesRest(w, j, node, Some(l.msg.reqId), w');
    ExecsLater(w, w');
    forall i, r: nat | 0 <= i < |w.nodes| && Tally(w'.nodes[i].dp.log, KOk(r)) > Tally(w.nodes[i].dp.log, KOk(r))
      ensures Confirmed(w'.nodes[i].dp.log, w'.execs, i, r)
    {
      assert i == j;
      var e := ReplyConfirms(w, j, l, env, dp', r);
      Confirms(dp'.log, w.execs, e, j, r);
    }
    OksLater(w, w');
  }

  lemma {:induction false} HeldAfter(rx: Rx, noReceive: bool)
    requires rx.pass.Some? && PassOk(rx.pass.value) && rx.pass.value.list != []
    requires rx.pass.value.list[0].firstTry < U64
    ensures Tried(rx.pass.value).firstTry < U64
    ensures HoldsLetter(rx, rx.pass.value.list[0].letter)
    ensures Defers(rx.pass.value, noReceive) ==> Letters(Held(Handle(rx, noReceive))) == Letters(Held(rx))
    ensures !Defers(rx.pass.value, noReceive) ==>
              forall m :: m in Held(Handle(rx, noReceive)) ==> HoldsLetter(rx, m.letter)
  {
    var p := rx.pass.value;
    var m := p.list[0];
    var rest := p.list[1..] + rx.head;
    HandleHeld(rx, noReceive, rest);
    assert m in p.deferred + [m] + rest;
    HeldHolds(rx, m);
    if Defers(p, noReceive) {
      SameLetters(p.deferred, m, if Blocked(p, m.letter) then m else Tried(p), rest);
    } else {
      forall x | x in Held(Handle(rx, noReceive)) ensures HoldsLetter(rx, x.letter) {
        assert x in p.deferred + [m] + rest;
        HeldHolds(rx, x);
      }
    }
  }

  lemma {:induction false} UnknownMail(w: World, j: nat, rx: Rx)
    requires MailInv(w) && j < |w.nodes|
    requires forall m :: m in Held(rx) ==> HoldsLetter(w.nodes[j].rx, m.letter)
    ensures MailInv(SetRx(w, j, rx))
  {
    var node := w.nodes[j].(rx := rx);
    var w' := SetRx(w, j, rx);
    SameEv(node.dp, node.dp, None);
    MovesOutqs(w, j, node, None, w');
    MovesRest(w, j, node, None, w');
    ExecsLater(w, w');
    OksLater(w, w');
  }

  lemma {:induction false} ApplyMail(w: World, j: nat, l: Letter, env: HandleEnv, rx: Rx)
    requires MailInv(w) && j < |w.nodes| && Sound(w.nodes[j].dp.log) && HoldsLetter(w.nodes[j].rx, l)
    requires AllDescribed(w.nodes[j].dp.pend, w.nodes[j].dp.log)
    requires forall m :: m in Held(rx) ==> HoldsLetter(w.nodes[j].rx, m.letter)
    ensures var dp := w.nodes[j].dp;
      MailInv(w.(nodes := w.nodes[j := Node(Applied(dp, l, env), rx)], execs := w.execs + Executed(j, dp, l, env)))
  {
    assert w.execs + [] == w.execs;
    if IsResponse(l.msg.op) {
      ResponseMail(w, j, l, env, rx);
    } else if IsRequest(l.msg.op) {
      RequestMail(w, j, l, env, rx);
    } else {
      UnknownMail(w, j, rx);
    }
  }

  lemma {:induction false} HandleMail(w: World, j: nat, env: HandleEnv)
    requires MailInv(w) && j < |w.nodes| && Sound(w.nodes[j].dp.log)
    requires AllDescribed(w.nodes[j].dp.pend, w.nodes[j].dp.log)
    requires w.nodes[j].rx.pass.Some? && PassOk(w.nodes[j].rx.pass.value) && w.nodes[j].rx.pass.value.list != []
    requires w.nodes[j].rx.pass.value.list[0].firstTry < U64
    ensures Tried(w.nodes[j].rx.pass.value).firstTry < U64
    ensures MailInv(Handled(w, j, env))
  {
    var n := w.nodes[j];
    var l := n.rx.pass.value.list[0].letter;
    var noReceive := NoRecv(n.dp, l.msg, env);
    HeldAfter(n.rx, noReceive);
    if Defers(n.rx.pass.value, noReceive) {
      DeferredIs(w, j, env);
      MoveMail(w, j, Handle(n.rx, noReceive));
    } else {
      ApplyMail(w, j, l, env, Handle(n.rx, noReceive));
    }
  }
}
