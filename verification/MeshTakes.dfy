/** The receives a node takes for other nodes' requests, told against the
    requests it has carried out. */
module MeshTakes {
  import opened Wire
  import opened Journal
  import opened Inbound
  import opened Responder
  import opened SendQueue
  import opened Serving
  import opened Ledger
  import opened Evolve
  import opened Mesh
  import opened MeshTokens

  predicate IsTake(e: Exec, j: nat, o: nat, r: nat) { e.took && e.at == j && e.origin == o && e.msg.reqId == r }

  /** How many of what has been carried out took a receive at node j for node o's
      request r. */
  function TCnt(s: seq<Exec>, j: nat, o: nat, r: nat): (n: nat) {
    if s == [] then 0 else TCnt(s[..|s| - 1], j, o, r) + One(IsTake(s[|s| - 1], j, o, r))
  }

  predicate TakeOk(w: World, j: nat, o: nat, r: nat)
    requires j < |w.nodes|
  {
    Tally(w.nodes[j].dp.log, KTook(ForPeer(o, r))) == TCnt(w.execs, j, o, r)
  }

  /** Every receive taken for a peer was taken by a request carried out there, and
      each of those that took one took just that. */
  ghost predicate TakesOk(w: World) {
    forall j, o: nat, r: nat :: 0 <= j < |w.nodes| ==> TakeOk(w, j, o, r)
  }

  lemma {:induction false} TCntOne(s: seq<Exec>, e: Exec, j: nat, o: nat, r: nat)
    ensures TCnt(s + [e], j, o, r) == TCnt(s, j, o, r) + One(IsTake(e, j, o, r))
  {
  }

  /** No request takes more receives than it has been carried out. */
  lemma {:induction false} TakesAtMostRuns(s: seq<Exec>, j: nat, o: nat, r: nat)
    ensures TCnt(s, j, o, r) <= XCnt(s, o, r)
  {
    if s != [] {
      TakesAtMostRuns(s[..|s| - 1], j, o, r);
    }
  }

  /** Nor do those it takes at two nodes together. */
  lemma {:induction false} TakesApart(s: seq<Exec>, j: nat, j': nat, o: nat, r: nat)
    requires j != j'
    ensures TCnt(s, j, o, r) + TCnt(s, j', o, r) <= XCnt(s, o, r)
  {
    if s != [] {
      TakesApart(s[..|s| - 1], j, j', o, r);
    }
  }

  /** A step that takes no receive for a peer, and carries nothing out. */
  lemma {:induction false} QuietTakes(w: World, i: nat, dp: Dp, w': World)
    requires TakesOk(w) && i < |w.nodes| && NoPeers(w.nodes[i].dp.log, dp.log)
    requires |w'.nodes| == |w.nodes| && w'.execs == w.execs && w'.nodes[i].dp.log == dp.log
    requires forall j :: 0 <= j < |w.nodes| && j != i ==> w'.nodes[j].dp == w.nodes[j].dp
    ensures TakesOk(w')
  {
    forall j, o: nat, r: nat | 0 <= j < |w'.nodes| ensures TakeOk(w', j, o, r) {
      assert TakeOk(w, j, o, r);
    }
  }

  lemma {:induction false} SameTakes(w: World, w': World)
    requires TakesOk(w) && w'.nodes == w.nodes && w'.execs == w.execs
    ensures TakesOk(w')
  {
    forall j, o: nat, r: nat | 0 <= j < |w'.nodes| ensures TakeOk(w', j, o, r) {
      assert TakeOk(w, j, o, r);
    }
  }

  lemma {:induction false} CarriedTakes(dp: Dp, o: Outcome, ring: Option<RingName>, src: nat, msg: Msg, x: nat, r: nat)
    requires TookOk(o, ring, src, msg)
    ensures Tally(Carried(dp, o).log, KTook(ForPeer(x, r)))
         == Tally(dp.log, KTook(ForPeer(x, r))) + One(o.took && x == src && r == msg.reqId)
  {
    if o.took {
      assert o.events == [o.events[0]];
      TallyAfter(dp.log, o.events[0]);
    } else {
      assert dp.log + [] == dp.log;
    }
  }

  /** A request carried out takes the receive its execution says it does. */
  lemma {:induction false} RequestTakes(w: World, i: nat, l: Letter, env: HandleEnv, rx: Rx, w': World)
    requires TakesOk(w) && i < |w.nodes| && IsRequest(l.msg.op)
    requires var dp := w.nodes[i].dp;
      w' == w.(nodes := w.nodes[i := Node(Replied(dp, l, env), rx)], execs := w.execs + Executed(i, dp, l, env))
    ensures TakesOk(w')
  {
    var dp := w.nodes[i].dp;
    var o, ring := Served(dp, l, env), RingOf(dp, l.msg);
    TakesAsItSays(dp.host, ring, l.src, l.msg, env.found);
    forall j, x: nat, r: nat | 0 <= j < |w'.nodes| ensures TakeOk(w', j, x, r) {
      assert TakeOk(w, j, x, r);
      TCntOne(w.execs, ExecOf(i, l, o), j, x, r);
      CarriedTakes(dp, o, ring, l.src, l.msg, x, r);
    }
  }

  lemma {:induction false} AppliedTakes(w: World, i: nat, l: Letter, env: HandleEnv, rx: Rx, w': World)
    requires TakesOk(w) && i < |w.nodes|
    requires var dp := w.nodes[i].dp;
      w' == w.(nodes := w.nodes[i := Node(Applied(dp, l, env), rx)], execs := w.execs + Executed(i, dp, l, env))
    ensures TakesOk(w')
  {
    var dp := w.nodes[i].dp;
    if IsRequest(l.msg.op) {
      RequestTakes(w, i, l, env, rx, w');
    } else {
      if IsResponse(l.msg.op) {
        ResponseEv(dp, l.msg, env.found.reach, env.found.fault);
      }
      assert w.execs + [] == w.execs;
      QuietTakes(w, i, Applied(dp, l, env), w');
    }
  }

  lemma {:induction false} HandleTakes(w: World, i: nat, env: HandleEnv)
    requires TakesOk(w) && CanTake(w, HandleOne(i, env)) && Fit(w, HandleOne(i, env))
    ensures TakesOk(Handled(w, i, env))
  {
    var n := w.nodes[i];
    var l := n.rx.pass.value.list[0].letter;
    if Defers(n.rx.pass.value, NoRecv(n.dp, l.msg, env)) {
      DeferredIs(w, i, env);
      QuietTakes(w, i, n.dp, Handled(w, i, env));
    } else {
      AppliedTakes(w, i, l, env, Handle(n.rx, NoRecv(n.dp, l.msg, env)), Handled(w, i, env));
    }
  }

  lemma {:induction false} NextTakes(w: World, s: WStep)
    requires TakesOk(w) && CanTake(w, s) && Fit(w, s)
    ensures TakesOk(Next(w, s))
  {
    var w' := Next(w, s);
    match s
    case Local(i, cmd) => DoEv(w.nodes[i].dp, cmd); QuietTakes(w, i, w'.nodes[i].dp, w');
    case HandleOne(i, env) => HandleTakes(w, i, env);
    case Depart(i, _) => QuietTakes(w, i, w.nodes[i].dp, w');
    case LoseQueued(i, _) => QuietTakes(w, i, w.nodes[i].dp, w');
    case Lose(_) => SameTakes(w, w');
    case Deliver(k, _, _) => QuietTakes(w, w.net[k].dst, w.nodes[w.net[k].dst].dp, w');
    case BeginPass(i, _) => QuietTakes(w, i, w.nodes[i].dp, w');
    case EndPass(i, _) => QuietTakes(w, i, w.nodes[i].dp, w');
  }
}
