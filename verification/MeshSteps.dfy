/** Every step of several nodes, and of the network between them, keeps what a
    run keeps. */
module MeshSteps {
  import opened Arith
  import opened Wire
  import opened Journal
  import opened Inbound
  import opened Host
  import opened SendQueue
  import opened Serving
  import opened SendQueueInv
  import opened Ledger
  import opened Runs
  import opened Evolve
  import opened Mesh
  import opened MeshTokens
  import opened MeshInv
  import opened MeshTakes

  ghost predicate WInv(w: World) { NodesOk(w) && TokensOk(w) && MailInv(w) && TakesOk(w) }

  // ---------------------------------------------------------------------
  // Each node stays well
  // ---------------------------------------------------------------------

  /** What the mesh does to its queue is no concern of the send side's. */
  lemma {:induction false} OutqGood(dp: Dp, outq: seq<Queued>)
    requires Good(dp)
    ensures Good(dp.(outq := outq))
  {
  }

  lemma {:induction false} ResponseGood(dp: Dp, msg: Msg, reach: Reach, fault: Status)
    requires Good(dp)
    ensures Good(Response(dp, msg, reach, fault))
  {
    MakesGood(dp, Some(Answer(msg, reach, fault)), Response(dp, msg, reach, fault));
  }

  lemma {:induction false} RepliedGood(dp: Dp, l: Letter, env: HandleEnv)
    requires Good(dp) && IsRequest(l.msg.op)
    ensures Good(Replied(dp, l, env))
  {
    MakesGood(dp, Some(Serves(l, env)), Replied(dp, l, env));
  }

  lemma {:induction false} AppliedGood(dp: Dp, l: Letter, env: HandleEnv)
    requires Good(dp)
    ensures Good(Applied(dp, l, env))
  {
    if IsResponse(l.msg.op) {
      ResponseGood(dp, l.msg, env.found.reach, env.found.fault);
    } else if IsRequest(l.msg.op) {
      RepliedGood(dp, l, env);
    }
  }

  lemma {:induction false} SetNodeOk(w: World, j: nat, node: Node, w': World)
    requires NodesOk(w) && j < |w.nodes| && w'.nodes == w.nodes[j := node]
    requires Good(node.dp) && RxInv(node.rx)
    ensures NodesOk(w')
  {
  }

  lemma {:induction false} HandledNode(n: Node, env: HandleEnv)
    requires Good(n.dp) && RxInv(n.rx) && n.rx.pass.Some? && n.rx.pass.value.list != []
    ensures var l := n.rx.pass.value.list[0].letter;
      && Tried(n.rx.pass.value).firstTry < U64
      && Good(Applied(n.dp, l, env)) && RxInv(Handle(n.rx, NoRecv(n.dp, l.msg, env)))
  {
    var l := n.rx.pass.value.list[0].letter;
    HandleInv(n.rx, NoRecv(n.dp, l.msg, env));
    AppliedGood(n.dp, l, env);
  }

  lemma {:induction false} HandledOk(w: World, j: nat, env: HandleEnv, w': World)
    requires NodesOk(w) && CanTake(w, HandleOne(j, env)) && Fit(w, HandleOne(j, env)) && w' == Handled(w, j, env)
    ensures NodesOk(w')
  {
    var n := w.nodes[j];
    HandledNode(n, env);
    if Defers(n.rx.pass.value, NoRecv(n.dp, n.rx.pass.value.list[0].letter.msg, env)) {
      DeferredIs(w, j, env);
    }
    SetNodeOk(w, j, w'.nodes[j], w');
  }

  lemma {:induction false} NextOk(w: World, s: WStep)
    requires NodesOk(w) && CanTake(w, s) && Fit(w, s)
    ensures NodesOk(Next(w, s))
  {
    var w' := Next(w, s);
    match s
    case Local(i, cmd) => DoGood(w.nodes[i].dp, cmd); SetNodeOk(w, i, w'.nodes[i], w');
    case Depart(i, k) => OutqGood(w.nodes[i].dp, w'.nodes[i].dp.outq); SetNodeOk(w, i, w'.nodes[i], w');
    case LoseQueued(i, k) => OutqGood(w.nodes[i].dp, w'.nodes[i].dp.outq); SetNodeOk(w, i, w'.nodes[i], w');
    case Lose(k) =>
    case Deliver(k, allocOk, at) =>
      var t := w.net[k].dst;
      RecvInv(w.nodes[t].rx, w.net[k].letter, allocOk, at); SetNodeOk(w, t, w'.nodes[t], w');
    case BeginPass(i, now) => BeginInv(w.nodes[i].rx, now); SetNodeOk(w, i, w'.nodes[i], w');
    case HandleOne(i, env) => HandledOk(w, i, env, w');
    case EndPass(i, later) => EndInv(w.nodes[i].rx, later); SetNodeOk(w, i, w'.nodes[i], w');
  }

  // ---------------------------------------------------------------------
  // Each step keeps the invariant
  // ---------------------------------------------------------------------

  /** A pass in progress, as the other invariants need it. */
  lemma {:induction false} PassReady(rx: Rx)
    requires RxInv(rx) && rx.pass.Some? && rx.pass.value.list != []
    ensures PassOk(rx.pass.value) && rx.pass.value.list[0].firstTry < U64
  {
  }

  lemma {:induction false} GoodFacts(dp: Dp)
    requires Good(dp)
    ensures Shaped(dp) && Sound(dp.log) && AllDescribed(dp.pend, dp.log)
  {
  }

  lemma {:induction false} BeginLetters(rx: Rx, now: nat)
    requires rx.pass.None? && now < U64 && rx.crowdedMs < U64
    ensures Held(Begin(rx, now)) == Held(rx)
  {
  }

  lemma {:induction false} EndLetters(rx: Rx, later: nat)
    requires RxInv(rx) && rx.pass.Some? && rx.pass.value.list == []
    ensures rx.pass.value.done <= rx.msgs && rx.pass.value.doneBytes <= rx.bytes
    ensures Held(End(rx, later)) == Held(rx)
  {
    EndHeld(rx, later);
  }

  lemma {:induction false} DoTokens(dp: Dp, c: Cmd, dp': Dp)
    requires Good(dp) && IsOwn(c) && dp' == Do(dp, c)
    ensures Tokens(dp.outq, dp.log, dp'.outq, dp'.log)
  {
    DoEv(dp, c);
  }

  lemma {:induction false} SendTokens(w: World, s: WStep, i: nat, r: nat)
    requires NodesOk(w) && CanTake(w, s) && Fit(w, s) && i < |w.nodes| && TokenOk(w, i, r)
    requires s.Local? || s.LoseQueued? || s.Lose?
    ensures TokenOk(Next(w, s), i, r)
  {
    match s
    case Local(j, cmd) =>
      var dp := Do(w.nodes[j].dp, cmd);
      DoTokens(w.nodes[j].dp, cmd, dp);
      LocalTokens(w, j, dp, i, r);
    case LoseQueued(j, k) => LoseQueuedTokens(w, j, k, i, r);
    case Lose(k) => LoseTokens(w, k, i, r);
  }

  lemma {:induction false} SentOutTokens(w: World, j: nat, k: nat, i: nat, r: nat)
    requires OutqsOk(w) && j < |w.nodes| && k < |w.nodes[j].dp.outq| && i < |w.nodes| && TokenOk(w, i, r)
    ensures TokenOk(Departed(w, j, k), i, r)
  {
    assert w.nodes[j].dp.outq[k] in w.nodes[j].dp.outq;
    assert OutOk(LogsOf(w), w.execs, j, w.nodes[j].dp.outq[k]);
    DepartTokens(w, j, k, i, r);
  }

  lemma {:induction false} ReceiveTokens(w: World, s: WStep, i: nat, r: nat)
    requires NodesOk(w) && CanTake(w, s) && Fit(w, s) && i < |w.nodes| && TokenOk(w, i, r)
    requires s.Deliver? || s.BeginPass? || s.HandleOne? || s.EndPass?
    ensures TokenOk(Next(w, s), i, r)
  {
    match s
    case Deliver(k, allocOk, at) => DeliverTokens(w, k, allocOk, at, i, r);
    case BeginPass(j, now) => BeginLetters(w.nodes[j].rx, now); MoveTokens(w, j, Begin(w.nodes[j].rx, now), i, r);
    case HandleOne(j, env) => PassReady(w.nodes[j].rx); HandleTokens(w, j, env, i, r);
    case EndPass(j, later) => EndLetters(w.nodes[j].rx, later); MoveTokens(w, j, End(w.nodes[j].rx, later), i, r);
  }

  lemma {:induction false} NextMail(w: World, s: WStep)
    requires WInv(w) && CanTake(w, s) && Fit(w, s)
    ensures MailInv(Next(w, s))
  {
    match s
    case Local(j, cmd) => GoodFacts(w.nodes[j].dp); DoEv(w.nodes[j].dp, cmd); LocalMail(w, j, Do(w.nodes[j].dp, cmd));
    case Depart(j, k) => DepartMail(w, j, k);
    case LoseQueued(j, k) => LoseQueuedMail(w, j, k, Next(w, s));
    case Lose(k) => LoseMail(w, k);
    case Deliver(k, allocOk, at) => DeliverMail(w, k, allocOk, at);
    case BeginPass(j, now) => BeginLetters(w.nodes[j].rx, now); MoveMail(w, j, Begin(w.nodes[j].rx, now));
    case HandleOne(j, env) => GoodFacts(w.nodes[j].dp); PassReady(w.nodes[j].rx); HandleMail(w, j, env);
    case EndPass(j, later) => EndLetters(w.nodes[j].rx, later); MoveMail(w, j, End(w.nodes[j].rx, later));
  }

  lemma {:induction false} NextInv(w: World, s: WStep)
    requires WInv(w) && CanTake(w, s)
    ensures Fit(w, s) && WInv(Next(w, s))
  {
    StaysFit(w, s);
    NextOk(w, s);
    NextMail(w, s);
    NextTakes(w, s);
    forall i, r: nat | 0 <= i < |w.nodes| ensures TokenOk(Next(w, s), i, r) {
      assert TokenOk(w, i, r);
      if s.Depart? {
        SentOutTokens(w, s.i, s.k, i, r);
      } else if s.Local? || s.LoseQueued? || s.Lose? {
        SendTokens(w, s, i, r);
      } else {
        ReceiveTokens(w, s, i, r);
      }
    }
  }
}
