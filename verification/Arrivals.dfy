/** What reaches another node, and where it comes from: the WQE a node's guest posted,
    and the bytes its list named when the WQE was run. */
module Arrivals {
  import opened Wire
  import opened Journal
  import opened Copying
  import opened Host
  import opened Responder
  import opened WorkRequests
  import opened SendQueue
  import opened Serving
  import opened Runs
  import opened Histories
  import opened Mesh
  import opened MeshInv
  import opened MeshSteps
  import opened MeshRuns
  import Inbound
  import Outcomes

  /** Whether node j is to carry out the request l next. */
  ghost predicate CarriesOut(w: World, j: nat, l: Letter, env: HandleEnv) {
    && CanTake(w, HandleOne(j, env)) && Fit(w, HandleOne(j, env)) && IsRequest(l.msg.op)
    && l == w.nodes[j].rx.pass.value.list[0].letter
    && !Inbound.Defers(w.nodes[j].rx.pass.value, NoRecv(w.nodes[j].dp, l.msg, env))
  }

  /** What node i sent as its k-th doing. */
  ghost predicate SentThere(w: World, l: Letter, j: nat, k: nat) {
    && l.src < |w.nodes| && k < |w.nodes[l.src].dp.log|
    && var e := w.nodes[l.src].dp.log[k];
       e.Sent? && e.msg == l.msg && e.dst == j
  }

  lemma {:induction false} SentIt(w: World, j: nat, l: Letter) returns (k: nat)
    requires MailInv(w) && j < |w.nodes| && HoldsLetter(w.nodes[j].rx, l) && IsRequest(l.msg.op)
    ensures SentThere(w, l, j, k)
  {
    assert MailOk(LogsOf(w), w.execs, j, l);
    var log := w.nodes[l.src].dp.log;
    k :| 0 <= k < |log| && log[k].Sent? && log[k].msg == l.msg && log[k].req == l.msg.reqId && log[k].dst == j;
  }

  /** Carrying a request out is what it says of its node's host. */
  lemma {:induction false} CarriedOutIs(w: World, j: nat, l: Letter, env: HandleEnv)
    requires CarriesOut(w, j, l, env)
    ensures Next(w, HandleOne(j, env)).nodes[j].dp.host == Served(w.nodes[j].dp, l, env).host
  {
  }

  lemma {:induction false} FrontHeld(rx: Inbound.Rx)
    requires Inbound.RxInv(rx) && rx.pass.Some? && rx.pass.value.list != []
    ensures HoldsLetter(rx, rx.pass.value.list[0].letter)
  {
    PassReady(rx);
    HeldAfter(rx, false);
  }

  lemma {:induction false} SentForIt(w: World, j: nat, l: Letter, env: HandleEnv) returns (k: nat)
    requires WInv(w) && CarriesOut(w, j, l, env)
    ensures SentThere(w, l, j, k)
  {
    FrontHeld(w.nodes[j].rx);
    k := SentIt(w, j, l);
  }

  lemma {:induction false} SentFor(w: World, steps: seq<WStep>, j: nat, l: Letter, env: HandleEnv) returns (k: nat)
    requires Start(w) && IsRunOf(w, steps) && CarriesOut(EndOf(w, steps), j, l, env)
    ensures SentThere(EndOf(w, steps), l, j, k)
  {
    var w' := Reached(w, steps);
    k := SentForIt(w', j, l, env);
  }

  // ---------------------------------------------------------------------
  // The WQE behind a message
  // ---------------------------------------------------------------------

  /** Whether t is a turn that node i took in a run. */
  ghost predicate TurnOf(w: World, steps: seq<WStep>, i: nat, t: Turn)
    requires IsRunOf(w, steps)
  {
    && i < |w.nodes| && Sane(w.nodes[i].dp) && RunHas(w.nodes[i].dp, NodeCmds(w, steps, i), t)
    && TurnOk(t) && t.w.Wqe?
  }

  /** Whether a node's k-th doing in a run is a request that WQE asked for whose turn t
      is. */
  ghost predicate AskedIn(w: World, steps: seq<WStep>, i: nat, k: nat, t: Turn)
    requires IsRunOf(w, steps)
  {
    && TurnOf(w, steps, i, t) && i < |EndOf(w, steps).nodes| && k < |EndOf(w, steps).nodes[i].dp.log|
    && Outcomes.Departs(t.dp, t.i, t.w, EndOf(w, steps).nodes[i].dp.log[k])
  }

  /** Every message was sent in a turn of its sender's, whose WQE asks for it. */
  lemma {:induction false} SentInTurn(w: World, steps: seq<WStep>, i: nat, k: nat) returns (t: Turn)
    requires Start(w) && IsRunOf(w, steps) && i < |EndOf(w, steps).nodes| && k < |EndOf(w, steps).nodes[i].dp.log|
    requires EndOf(w, steps).nodes[i].dp.log[k].Sent?
    ensures AskedIn(w, steps, i, k, t)
  {
    NodeRuns(w, steps, i);
    t := RequestsAskForTheirWqe(w.nodes[i].dp, NodeCmds(w, steps, i), k);
  }

  /** A WRITE that is sent is of a WRITE WQE, for the QP's peer, and names its key, its
      address and its length. */
  predicate WriteOf(t: Turn, j: nat, msg: Msg)
    requires TurnOk(t) && t.w.Wqe?
  {
    && (if msg.op.WriteImm? then t.w.op.OpWriteImm? else t.w.op.OpWrite?)
    && t.dp.qps[t.i].destNode == j && t.dp.qps[t.i].destQp == msg.dstQp
    && msg.rkey == t.w.rkey && msg.va == t.w.va && msg.length == t.w.length
  }

  /** Whether a WQE's WRITE has left, at its key and address, as many bytes of its list
      as it says, as they were when it was run, and changed no other. */
  ghost predicate Wrote(h: Host, h': Host, t: Turn)
    requires TurnOk(t) && t.w.Wqe?
  {
    var n := t.w.length;
    var s, d := Flat(t.dp.host.mrs, t.w.local), Span(h.mrs, Va(t.w.rkey, t.w.va), n);
    SameBut(h.mem, h'.mem, d) && n <= |s| && h'.mem == Put(h.mem, d, DataOf(t.dp.host.mem, s[..n]), n)
  }

  lemma {:induction false} WriteAsked(t: Turn, j: nat, e: Event)
    requires TurnOk(t) && t.w.Wqe? && Outcomes.Departs(t.dp, t.i, t.w, e) && e.Sent? && IsWrite(e.msg.op) && e.dst == j
    ensures WriteOf(t, j, e.msg) && Outcomes.Laden(t.dp, t.w, e.msg)
  {
  }

  lemma {:induction false} WroteIt(dp: Dp, l: Letter, env: HandleEnv, t: Turn, j: nat)
    requires IsWrite(l.msg.op) && Served(dp, l, env).status == Ok && TurnOk(t) && t.w.Wqe? && WriteOf(t, j, l.msg)
    requires Outcomes.Laden(t.dp, t.w, l.msg)
    ensures Wrote(dp.host, Served(dp, l, env).host, t)
  {
    WriteMeans(dp.host, RingOf(dp, l.msg), l.src, l.msg, env.found);
    var d := DataOf(t.dp.host.mem, Flat(t.dp.host.mrs, t.w.local)[..0]);
    assert t.w.length == 0 ==> d == [];
  }

  /** In every run, a WRITE carried out with success at node j is that of a WQE which
      a QP of its sender with that peer ran: it leaves, at the WQE's key and address,
      the bytes the WQE's list named when it was run, and no other byte of that
      memory changes. */
  lemma {:induction false} WriteArrives(w: World, steps: seq<WStep>, j: nat, l: Letter, env: HandleEnv)
    returns (k: nat, t: Turn)
    requires Start(w) && IsRunOf(w, steps) && CarriesOut(EndOf(w, steps), j, l, env) && IsWrite(l.msg.op)
    requires Served(EndOf(w, steps).nodes[j].dp, l, env).status == Ok
    ensures var w' := EndOf(w, steps);
      && SentThere(w', l, j, k) && TurnOf(w, steps, l.src, t) && WriteOf(t, j, l.msg)
      && Wrote(w'.nodes[j].dp.host, Next(w', HandleOne(j, env)).nodes[j].dp.host, t)
  {
    k := SentFor(w, steps, j, l, env);
    t := SentInTurn(w, steps, l.src, k);
    var w' := EndOf(w, steps);
    WriteAsked(t, j, w'.nodes[l.src].dp.log[k]);
    CarriedOutIs(w', j, l, env);
    WroteIt(w'.nodes[j].dp, l, env, t, j);
  }

  /** A SEND that is sent is of a SEND WQE: for the QP's peer if that is another node,
      and otherwise where its address handle says. */
  predicate SendOf(t: Turn, j: nat, msg: Msg)
    requires TurnOk(t) && t.w.Wqe?
  {
    && IsSendOp(t.w.op) && Outcomes.SameOp(t.w.op, msg.op)
    && if Outcomes.Elsewhere(t.dp, t.dp.qps[t.i])
       then t.dp.qps[t.i].destNode == j && t.dp.qps[t.i].destQp == msg.dstQp
       else t.w.send.ToNode? && t.w.send.node == j && t.w.send.dstQp == msg.dstQp
  }

  /** What it takes with it: all its list named when it was run, or of a datagram the
      header and as much of the list as one takes. */
  function SendBytes(t: Turn): (b: seq<byte>)
    requires TurnOk(t) && t.w.Wqe?
  {
    var s := Flat(t.dp.host.mrs, t.w.local);
    if Outcomes.Elsewhere(t.dp, t.dp.qps[t.i]) || !t.w.send.ToNode? then DataOf(t.dp.host.mem, s)
    else t.w.send.grh + DataOf(t.dp.host.mem, if |s| < 8192 then s else s[..8192])
  }

  lemma {:induction false} SendAsked(t: Turn, j: nat, e: Event)
    requires TurnOk(t) && t.w.Wqe? && Outcomes.Departs(t.dp, t.i, t.w, e) && e.Sent? && IsSend(e.msg.op) && e.dst == j
    ensures SendOf(t, j, e.msg) && Brought(e.msg) == SendBytes(t)
  {
    var s := Flat(t.dp.host.mrs, t.w.local);
    ListLenIs(t.dp.host.mrs, t.w.local);
    assert s[..|s|] == s;
  }

  lemma {:induction false} BroughtIt(dp: Dp, l: Letter, env: HandleEnv)
    requires IsSend(l.msg.op)
    requires var o := Served(dp, l, env); o.status == Ok && o.landed == |Brought(l.msg)|
    ensures env.found.recv.Some?
    ensures var s := Flat(dp.host.mrs, env.found.recv.value);
      && |Brought(l.msg)| <= |s|
      && Served(dp, l, env).host.mem == Put(dp.host.mem, s, Brought(l.msg), |Brought(l.msg)|)
  {
    SendLandsWhole(dp.host, RingOf(dp, l.msg).value, l.src, l.msg, env.found);
  }

  /** And a SEND that lands whole in its receive is that of a WQE which its sender ran,
      and leaves in the receive's list the bytes that took with it. */
  lemma {:induction false} SendArrives(w: World, steps: seq<WStep>, j: nat, l: Letter, env: HandleEnv)
    returns (k: nat, t: Turn)
    requires Start(w) && IsRunOf(w, steps) && CarriesOut(EndOf(w, steps), j, l, env) && IsSend(l.msg.op)
    requires var o := Served(EndOf(w, steps).nodes[j].dp, l, env); o.status == Ok && o.landed == |Brought(l.msg)|
    ensures var w' := EndOf(w, steps);
      && SentThere(w', l, j, k) && TurnOf(w, steps, l.src, t) && SendOf(t, j, l.msg) && env.found.recv.Some?
      && var h, h' := w'.nodes[j].dp.host, Next(w', HandleOne(j, env)).nodes[j].dp.host;
         var s, d := Flat(h.mrs, env.found.recv.value), SendBytes(t);
         |d| <= |s| && h'.mem == Put(h.mem, s, d, |d|)
  {
    k := SentFor(w, steps, j, l, env);
    t := SentInTurn(w, steps, l.src, k);
    var w' := EndOf(w, steps);
    SendAsked(t, j, w'.nodes[l.src].dp.log[k]);
    CarriedOutIs(w', j, l, env);
    BroughtIt(w'.nodes[j].dp, l, env);
  }

  /** Whether a READ's or an atomic's answer has gone to its WQE's list, every byte of
      which was there, and nothing else of its node's memory has changed. */
  predicate Fetched(dp: Dp, dp': Dp, t: Turn, data: seq<byte>)
    requires TurnOk(t) && t.w.Wqe?
  {
    var s := Flat(dp.host.mrs, t.w.local);
    && |data| == (if t.w.op.OpRead? then t.w.length else 8)
    && |data| <= |s| && Reachable(dp.host.mem, s[..|data|])
    && dp'.host == dp.host.(mem := Put(dp.host.mem, s, data, |data|))
  }

  /** The event that handed a request that was carried out to the mesh. */
  lemma {:induction false} SentOfExec(w: World, i: nat, e: Exec) returns (n: nat)
    requires WInv(w) && i < |w.nodes| && e in w.execs && e.origin == i
    ensures var log := w.nodes[i].dp.log;
      n < |log| && log[n].Sent? && log[n].msg == e.msg && log[n].dst == e.at && SentOf(log, e.msg.reqId) == Some(log[n])
  {
    ExecWasSent(w, e);
    var log := w.nodes[i].dp.log;
    n :| 0 <= n < |log| && log[n].Sent? && log[n].msg == e.msg && log[n].req == e.msg.reqId && log[n].dst == e.at;
    GoodFacts(w.nodes[i].dp);
    SentOfAt(log, n);
  }

  lemma {:induction false} FetchedFor(dp: Dp, dp': Dp, e: Exec, t: Turn, sent: Event)
    requires TurnOk(t) && t.w.Wqe? && Outcomes.Departs(t.dp, t.i, t.w, sent) && sent.Sent? && sent.msg == e.msg
    requires e.msg.op.ReadReq? || e.msg.op.AtomicReq?
    requires SentOf(dp.log, e.msg.reqId) == Some(sent) && LandedFor(dp, dp', e, e.msg.reqId)
    requires |e.data| == AnswerSize(e.msg)
    ensures Outcomes.Asks(t.dp, t.i, t.w, sent) && Fetched(dp, dp', t, e.data)
  {
  }

  /** In every run, a READ or an atomic that completes with success is that of a WQE
      which its node ran, carried out as that asks at its QP's peer; and what came
      back, as much as the WQE asks for, goes to the WQE's list. */
  lemma {:induction false} ReadArrives(w: World, steps: seq<WStep>, i: nat, r: nat) returns (k: nat, e: Exec, t: Turn)
    requires Start(w) && IsRunOf(w, steps) && i < |w.nodes| && Oks(EndOf(w, steps), i, r) > 0
    ensures k < |steps| && IsRunOf(w, steps[..k])
    ensures var w1 := EndOf(w, steps[..k]);
      && CanTake(w1, steps[k]) && Fit(w1, steps[k])
      && e in w1.execs && e.origin == i && e.msg.reqId == r && e.status == Ok
      && (e.msg.op.ReadReq? || e.msg.op.AtomicReq? ==>
            && TurnOf(w, steps[..k], i, t) && Outcomes.Says(t.w, e.msg) && t.dp.qps[t.i].destNode == e.at
            && Fetched(w1.nodes[i].dp, Next(w1, steps[k]).nodes[i].dp, t, e.data))
  {
    k, e := OkLandsInPlace(w, steps, i, r);
    if e.msg.op.ReadReq? || e.msg.op.AtomicReq? {
      var w1 := MeshRuns.Reached(w, steps[..k]);
      var n := SentOfExec(w1, i, e);
      t := SentInTurn(w, steps[..k], i, n);
      FetchedFor(w1.nodes[i].dp, Next(w1, steps[k]).nodes[i].dp, e, t, w1.nodes[i].dp.log[n]);
    } else {
      t := *;
    }
  }
}
