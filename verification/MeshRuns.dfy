/** Every run of several nodes. */
module MeshRuns {
  import opened Arith
  import opened Wire
  import opened Journal
  import opened Inbound
  import opened Host
  import opened Responder
  import opened SendQueue
  import opened Serving
  import opened SendQueueInv
  import opened Ledger
  import opened Runs
  import opened Evolve
  import opened Mesh
  import opened MeshTokens
  import opened MeshInv
  import opened MeshTakes
  import opened MeshSteps

  /** Every node new, nothing on its way. */
  predicate Start(w: World) {
    && (forall i :: 0 <= i < |w.nodes| ==> Fresh(w.nodes[i].dp) && w.nodes[i].rx == Empty(w.nodes[i].rx.polledMs))
    && w.net == [] && w.execs == []
  }

  lemma {:induction false} NothingHeld(c: seq<nat>)
    requires forall d :: 0 <= d < |c| ==> c[d] == 0
    ensures Sum(c) == 0
  {
    if c != [] {
      NothingHeld(c[..|c| - 1]);
    }
  }

  lemma {:induction false} StartInv(w: World)
    requires Start(w)
    ensures WInv(w)
  {
    forall i | 0 <= i < |w.nodes| ensures Good(w.nodes[i].dp) && RxInv(w.nodes[i].rx) {
      FreshGood(w.nodes[i].dp);
      EmptyInv(w.nodes[i].rx.polledMs);
    }
    StartTokens(w);
  }

  lemma {:induction false} StartTokens(w: World)
    requires Start(w)
    ensures TokensOk(w)
  {
    forall i, r: nat | 0 <= i < |w.nodes| ensures TokenOk(w, i, r) {
      NothingHeld(RxCnts(w.nodes, i, r));
    }
  }

  /** A run: every step can be taken where it is. From a start, a step that can be
      taken is always fit to be (AnyStep below). */
  ghost predicate IsRunOf(w: World, steps: seq<WStep>)
    decreases |steps|
  {
    steps == [] || (CanTake(w, steps[0]) && Fit(w, steps[0]) && IsRunOf(Next(w, steps[0]), steps[1..]))
  }

  ghost function EndOf(w: World, steps: seq<WStep>): (r: World)
    requires IsRunOf(w, steps)
    ensures |r.nodes| == |w.nodes|
    decreases |steps|
  {
    if steps == [] then w else EndOf(Next(w, steps[0]), steps[1..])
  }

  lemma {:induction false} RunInv(w: World, steps: seq<WStep>)
    requires WInv(w) && IsRunOf(w, steps)
    ensures WInv(EndOf(w, steps))
    decreases |steps|
  {
    if steps != [] {
      NextInv(w, steps[0]);
      RunInv(Next(w, steps[0]), steps[1..]);
    }
  }

  /** The invariant holds wherever a run gets to. */
  lemma {:induction false} Reached(w: World, steps: seq<WStep>) returns (w': World)
    requires Start(w) && IsRunOf(w, steps)
    ensures w' == EndOf(w, steps) && |w'.nodes| == |w.nodes| && WInv(w')
  {
    StartInv(w);
    RunInv(w, steps);
    w' := EndOf(w, steps);
  }

  /** So a run can go on with any step that can be taken. */
  lemma {:induction false} AnyStep(w: World, steps: seq<WStep>, s: WStep)
    requires Start(w) && IsRunOf(w, steps) && CanTake(EndOf(w, steps), s)
    ensures IsRunOf(w, steps + [s])
  {
    var w' := Reached(w, steps);
    StaysFit(w', s);
    RunOn(w, steps, s);
  }

  lemma {:induction false} RunOn(w: World, steps: seq<WStep>, s: WStep)
    requires IsRunOf(w, steps) && CanTake(EndOf(w, steps), s) && Fit(EndOf(w, steps), s)
    ensures IsRunOf(w, steps + [s]) && EndOf(w, steps + [s]) == Next(EndOf(w, steps), s)
    decreases |steps|
  {
    if steps == [] {
      assert steps + [s] == [s] && [s][1..] == [];
    } else {
      RunOn(Next(w, steps[0]), steps[1..], s);
      assert (steps + [s])[1..] == steps[1..] + [s];
    }
  }

  /** What a node makes of the message it handles is one of the things a data path
      does, or nothing. */
  ghost function HandledAs(w: World, i: nat, env: HandleEnv): (c: Option<Cmd>)
    requires CanTake(w, HandleOne(i, env)) && Fit(w, HandleOne(i, env))
  {
    var n := w.nodes[i];
    var l := n.rx.pass.value.list[0].letter;
    if Defers(n.rx.pass.value, NoRecv(n.dp, l.msg, env)) then None
    else if IsResponse(l.msg.op) then Some(Answer(l.msg, env.found.reach, env.found.fault))
    else if IsRequest(l.msg.op) then Some(Serves(l, env))
    else None
  }

  /** What a step has node j's data path do. */
  ghost function CmdOf(w: World, s: WStep, j: nat): (c: Option<Cmd>)
    requires CanTake(w, s) && Fit(w, s)
  {
    match s
    case Local(i, cmd) => if i == j then Some(cmd) else None
    case Depart(i, k) => if i == j then Some(Leaves(k)) else None
    case LoseQueued(i, k) => if i == j then Some(Leaves(k)) else None
    case HandleOne(i, env) => if i == j then HandledAs(w, i, env) else None
    case _ => None
  }

  lemma {:induction false} HandledBy(w: World, i: nat, env: HandleEnv, dp': Dp)
    requires CanTake(w, HandleOne(i, env)) && Fit(w, HandleOne(i, env)) && Shaped(w.nodes[i].dp)
    requires dp' == Handled(w, i, env).nodes[i].dp
    ensures Makes(w.nodes[i].dp, HandledAs(w, i, env), dp')
  {
    var n := w.nodes[i];
    var l := n.rx.pass.value.list[0].letter;
    if Defers(n.rx.pass.value, NoRecv(n.dp, l.msg, env)) {
      DeferredIs(w, i, env);
    }
  }

  lemma {:induction false} LeftBy(dp: Dp, k: nat, dp': Dp)
    requires Shaped(dp) && k < |dp.outq| && dp' == dp.(outq := Drop(dp.outq, k))
    ensures Makes(dp, Some(Leaves(k)), dp')
  {
  }

  lemma {:induction false} OthersSame(w: World, s: WStep, j: nat)
    requires CanTake(w, s) && Fit(w, s) && j < |w.nodes|
    requires (s.Local? || s.Depart? || s.LoseQueued? || s.HandleOne?) ==> s.i != j
    ensures Next(w, s).nodes[j].dp == w.nodes[j].dp
  {
  }

  lemma {:induction false} StepBy(w: World, s: WStep, j: nat, dp': Dp)
    requires CanTake(w, s) && Fit(w, s) && j < |w.nodes| && Shaped(w.nodes[j].dp) && dp' == Next(w, s).nodes[j].dp
    ensures Makes(w.nodes[j].dp, CmdOf(w, s, j), dp')
  {
    if s.HandleOne? && s.i == j {
      HandledBy(w, j, s.env, dp');
    } else if (s.Depart? || s.LoseQueued?) && s.i == j {
      LeftBy(w.nodes[j].dp, s.k, dp');
    } else if !s.Local? || s.i != j {
      OthersSame(w, s, j);
    }
  }

  /** What a run has node j's data path do, in order. */
  ghost function NodeCmds(w: World, steps: seq<WStep>, j: nat): (cmds: seq<Cmd>)
    requires IsRunOf(w, steps)
    decreases |steps|
  {
    if steps == [] then [] else First(CmdOf(w, steps[0], j), NodeCmds(Next(w, steps[0]), steps[1..], j))
  }

  lemma {:induction false} NodeRunsFrom(w: World, steps: seq<WStep>, j: nat)
    requires WInv(w) && IsRunOf(w, steps) && j < |w.nodes|
    ensures Good(w.nodes[j].dp) && DoAll(w.nodes[j].dp, NodeCmds(w, steps, j)) == EndOf(w, steps).nodes[j].dp
    decreases |steps|
  {
    if steps != [] {
      var w' := Next(w, steps[0]);
      GoodFacts(w.nodes[j].dp);
      StepBy(w, steps[0], j, w'.nodes[j].dp);
      NextInv(w, steps[0]);
      NodeRunsFrom(w', steps[1..], j);
      MakesFirst(w.nodes[j].dp, CmdOf(w, steps[0], j), w'.nodes[j].dp, NodeCmds(w', steps[1..], j));
    }
  }

  /** In every run, each node is what the commands the run has for it make of a fresh
      data path: all that is so of a data path's every run is so of it. */
  lemma {:induction false} NodeRuns(w: World, steps: seq<WStep>, j: nat)
    requires Start(w) && IsRunOf(w, steps) && j < |w.nodes|
    ensures var dp := w.nodes[j].dp;
      Fresh(dp) && Good(dp) && DoAll(dp, NodeCmds(w, steps, j)) == EndOf(w, steps).nodes[j].dp
  {
    StartInv(w);
    NodeRunsFrom(w, steps, j);
  }

  // ---------------------------------------------------------------------
  // Requests are carried out once
  // ---------------------------------------------------------------------

  lemma {:induction false} RunsOnce(w: World, i: nat, r: nat)
    requires WInv(w) && i < |w.nodes|
    ensures Whereabouts(w, i, r) <= 1
  {
    assert TokenOk(w, i, r);
    GoodFacts(w.nodes[i].dp);
    AtMostOnce(w.nodes[i].dp.log, r);
  }

  lemma {:induction false} ExecWasSent(w: World, e: Exec)
    requires ExecsOk(w) && e in w.execs
    ensures e.origin < |w.nodes| && SentAs(w.nodes[e.origin].dp.log, e.at, e.msg)
    ensures e.status == Ok ==> |e.data| == AnswerSize(e.msg)
    ensures e.took ==> e.status == Ok && (IsSend(e.msg.op) || e.msg.op.WriteImm?)
    ensures IsSend(e.msg.op) && e.status == Ok ==> e.took
  {
    assert ExecOk(LogsOf(w), e);
  }

  /** In every run, no request is carried out twice, whatever is delayed, lost
      or timed out; and every request carried out is one its origin sent, as it
      sent it and where it sent it. */
  lemma {:induction false} ExecutedAtMostOnce(w: World, steps: seq<WStep>, i: nat, r: nat)
    requires Start(w) && IsRunOf(w, steps) && i < |w.nodes|
    ensures var w' := EndOf(w, steps);
      && XCnt(w'.execs, i, r) <= 1
      && (forall e :: e in w'.execs ==> e.origin < |w'.nodes| && SentAs(w'.nodes[e.origin].dp.log, e.at, e.msg))
  {
    var w' := Reached(w, steps);
    RunsOnce(w', i, r);
    forall e | e in w'.execs ensures e.origin < |w'.nodes| && SentAs(w'.nodes[e.origin].dp.log, e.at, e.msg) {
      ExecWasSent(w', e);
    }
  }

  /** A request a flush or a timeout took back from the mesh is nowhere: it has
      not been carried out, and, as this holds at every point of every run, it
      never will be. */
  lemma {:induction false} TakenBackNeverRuns(w: World, steps: seq<WStep>, i: nat, r: nat)
    requires Start(w) && IsRunOf(w, steps) && i < |w.nodes|
    ensures var w' := EndOf(w, steps);
      Taken(w'.nodes[i].dp.log, r) == 1 ==>
        && XCnt(w'.execs, i, r) == 0 && NCnt(w'.net, i, r) == 0 && RxSum(w'.nodes, i, r) == 0
        && Cnt(w'.nodes[i].dp.outq, r) == 0
  {
    var w' := Reached(w, steps);
    RunsOnce(w', i, r);
  }

  // ---------------------------------------------------------------------
  // What a flush takes back
  // ---------------------------------------------------------------------

  /** The registration a queued request carries is the one it was sent under. */
  lemma {:induction false} QueuedUnder(w: World, j: nat, i: nat, m: Queued)
    requires OutqsOk(w) && j < |w.nodes| && Good(w.nodes[j].dp) && m in w.nodes[j].dp.outq && !m.reply
    requires i < |w.nodes[j].dp.qps| && w.nodes[j].dp.qps[i].valid
    ensures var dp := w.nodes[j].dp; m.mesh == dp.qps[i].mesh <==> SentUnderLast(dp.log, i, m.req)
  {
    var dp := w.nodes[j].dp;
    GoodFacts(dp);
    assert OutOk(LogsOf(w), w.execs, j, m);
    var k :| 0 <= k < |dp.log| && dp.log[k].Sent? && dp.log[k].mesh == m.mesh && dp.log[k].req == m.req
             && dp.log[k].msg == m.msg && dp.log[k].dst == m.dst;
    SentOfAt(dp.log, k);
    TagTellsRegistration(dp.log, i, m.req);
    assert QpNow(dp.qps[i], i, dp.log, false);
  }

  /** In every run, a flush of a QP takes back a queued request if and only if the
      QP sent it and has not been registered anew since; it takes back no other
      message, and has what it took back in its journal. */
  lemma {:induction false} FlushTakesOwn(w: World, steps: seq<WStep>, j: nat, i: nat, m: Queued)
    requires Start(w) && IsRunOf(w, steps) && j < |w.nodes|
    requires var dp := EndOf(w, steps).nodes[j].dp; i < |dp.qps| && dp.qps[i].valid && m in dp.outq
    ensures var dp := EndOf(w, steps).nodes[j].dp;
      var dp' := Flush(dp, i);
      && (m !in dp'.outq <==> !m.reply && SentUnderLast(dp.log, i, m.req))
      && (m !in dp'.outq ==> Taken(dp'.log, m.req) == 1)
  {
    var w' := Reached(w, steps);
    FlushTakes(w'.nodes[j].dp, i, m);
    if !m.reply {
      QueuedUnder(w', j, i, m);
    }
  }

  /** So a flush leaves queued what QPs of the same number had queued before they
      were registered anew. */
  lemma {:induction false} NewRegistrationSpares(w: World, steps: seq<WStep>, j: nat, i: nat, m: Queued, k: nat, n: nat)
    requires Start(w) && IsRunOf(w, steps) && j < |w.nodes|
    requires var dp := EndOf(w, steps).nodes[j].dp;
      && i < |dp.qps| && dp.qps[i].valid && m in dp.outq && !m.reply && k < n < |dp.log|
      && dp.log[k].Sent? && dp.log[k].req == m.req && dp.log[n].Opened? && dp.log[n].qp == i
    ensures m in Flush(EndOf(w, steps).nodes[j].dp, i).outq
  {
    FlushTakesOwn(w, steps, j, i, m);
    var w' := Reached(w, steps);
    GoodFacts(w'.nodes[j].dp);
    OpenedSince(w'.nodes[j].dp.log, i, m.req, k, n);
  }

  // ---------------------------------------------------------------------
  // What success means
  // ---------------------------------------------------------------------

  function Oks(w: World, i: nat, r: nat): (n: nat)
    requires i < |w.nodes|
  {
    Tally(w.nodes[i].dp.log, KOk(r))
  }

  /** A completion with success means what it says: the request it answers was
      carried out, with success, and if it was a READ or an atomic all the data
      that was read, as much as was asked for, has landed. */
  lemma {:induction false} OkMeansDone(w: World, steps: seq<WStep>, i: nat, r: nat) returns (e: Exec)
    requires Start(w) && IsRunOf(w, steps) && i < |w.nodes| && Oks(EndOf(w, steps), i, r) > 0
    ensures var w' := EndOf(w, steps);
      && e in w'.execs && e.origin == i && e.msg.reqId == r && e.status == Ok && |e.data| == AnswerSize(e.msg)
      && (AnswerSize(e.msg) > 0 ==> HasLanded(w'.nodes[i].dp.log, r, e.data))
  {
    var w' := Reached(w, steps);
    assert Confirmed(w'.nodes[i].dp.log, w'.execs, i, r);
    var k :| 0 <= k < |w'.execs| && Proves(w'.nodes[i].dp.log, w'.execs[k], i, r);
    e := w'.execs[k];
    ExecWasSent(w', e);
  }

  /** Whether a step completes node i's request with success. */
  ghost predicate Confirms(w: World, s: WStep, i: nat, r: nat) {
    i < |w.nodes| && CanTake(w, s) && Fit(w, s) && Oks(w, i, r) == 0 && Oks(Next(w, s), i, r) > 0
  }

  /** The step of a run that does: the one after the first k. */
  lemma {:induction false} OkStep(w: World, steps: seq<WStep>, i: nat, r: nat) returns (k: nat)
    requires i < |w.nodes| && IsRunOf(w, steps) && Oks(w, i, r) == 0 && Oks(EndOf(w, steps), i, r) > 0
    ensures k < |steps| && IsRunOf(w, steps[..k])
    ensures Confirms(EndOf(w, steps[..k]), steps[k], i, r)
    decreases |steps|
  {
    if Confirms(w, steps[0], i, r) {
      assert steps[..0] == [];
      return 0;
    }
    var rest := steps[1..];
    k := OkStep(Next(w, steps[0]), rest, i, r);
    assert steps[..k + 1][1..] == rest[..k];
    k := k + 1;
  }

  lemma {:induction false} OtherOks(w: World, s: WStep, i: nat, r: nat)
    requires CanTake(w, s) && Fit(w, s) && i < |w.nodes| && !s.HandleOne?
    ensures Oks(Next(w, s), i, r) == Oks(w, i, r)
  {
    if s.Local? {
      DoEv(w.nodes[s.i].dp, s.cmd);
    }
  }

  /** Only an answer completes a request with success. */
  lemma {:induction false} OkByAnswer(w: World, s: WStep, i: nat, r: nat) returns (l: Letter, env: HandleEnv)
    requires i < |w.nodes| && RxInv(w.nodes[i].rx) && CanTake(w, s) && Fit(w, s) && Oks(Next(w, s), i, r) > Oks(w, i, r)
    ensures s == HandleOne(i, env) && HoldsLetter(w.nodes[i].rx, l) && IsResponse(l.msg.op)
    ensures Next(w, s).nodes[i].dp == Response(w.nodes[i].dp, l.msg, env.found.reach, env.found.fault)
  {
    if !s.HandleOne? {
      OtherOks(w, s, i, r);
    }
    env := s.env;
    assert s.i == i;
    l := HandleOks(w, i, env, r);
  }

  lemma {:induction false} HandleOks(w: World, i: nat, env: HandleEnv, r: nat) returns (l: Letter)
    requires CanTake(w, HandleOne(i, env)) && Fit(w, HandleOne(i, env)) && RxInv(w.nodes[i].rx)
    requires Oks(Handled(w, i, env), i, r) > Oks(w, i, r)
    ensures HoldsLetter(w.nodes[i].rx, l) && IsResponse(l.msg.op)
    ensures Handled(w, i, env).nodes[i].dp == Response(w.nodes[i].dp, l.msg, env.found.reach, env.found.fault)
  {
    var n := w.nodes[i];
    l := n.rx.pass.value.list[0].letter;
    PassReady(n.rx);
    HeldAfter(n.rx, false);
    if Defers(n.rx.pass.value, NoRecv(n.dp, l.msg, env)) {
      DeferredIs(w, i, env);
    } else if !IsResponse(l.msg.op) {
      TakesAsItSays(n.dp.host, RingOf(n.dp, l.msg), l.src, l.msg, env.found);
      CarriedLog(n.dp, Served(n.dp, l, env));
    }
  }

  /** What an answer that completes a request with success leaves. */
  lemma {:induction false} OkLands(w: World, s: WStep, i: nat, r: nat) returns (e: Exec)
    requires WInv(w) && i < |w.nodes| && CanTake(w, s) && Fit(w, s) && Oks(Next(w, s), i, r) > Oks(w, i, r)
    ensures e in w.execs && e.origin == i && e.msg.reqId == r && e.status == Ok && |e.data| == AnswerSize(e.msg)
    ensures e.msg.op.ReadReq? || e.msg.op.AtomicReq? ==> LandedFor(w.nodes[i].dp, Next(w, s).nodes[i].dp, e, r)
  {
    var l, env := OkByAnswer(w, s, i, r);
    GoodFacts(w.nodes[i].dp);
    e := ReplyConfirms(w, i, l, env, Next(w, s).nodes[i].dp, r);
  }

  /** Where it has landed: at the step of the run that completed a READ or an
      atomic with success, what its execution returned went, all of it, to the
      places of the list the request was sent with, each of which was there, and
      nothing else of its node's memory changed. */
  lemma {:induction false} OkLandsInPlace(w: World, steps: seq<WStep>, i: nat, r: nat) returns (k: nat, e: Exec)
    requires Start(w) && IsRunOf(w, steps) && i < |w.nodes| && Oks(EndOf(w, steps), i, r) > 0
    ensures k < |steps| && IsRunOf(w, steps[..k])
    ensures var w1 := EndOf(w, steps[..k]);
      && CanTake(w1, steps[k]) && Fit(w1, steps[k])
      && e in w1.execs && e.origin == i && e.msg.reqId == r && e.status == Ok && |e.data| == AnswerSize(e.msg)
      && (e.msg.op.ReadReq? || e.msg.op.AtomicReq? ==>
            LandedFor(w1.nodes[i].dp, Next(w1, steps[k]).nodes[i].dp, e, r))
  {
    k := OkStep(w, steps, i, r);
    var w1 := Reached(w, steps[..k]);
    e := OkLands(w1, steps[k], i, r);
  }

  // ---------------------------------------------------------------------
  // Receives
  // ---------------------------------------------------------------------

  /** Whether the message node i is to handle next is a SEND whose ring has no
      receive it could take, and is put back. */
  ghost predicate Waits(w: World, i: nat, env: HandleEnv) {
    && CanTake(w, HandleOne(i, env)) && Fit(w, HandleOne(i, env))
    && var p := w.nodes[i].rx.pass.value;
       NoRecv(w.nodes[i].dp, p.list[0].letter.msg, env) && Defers(p, true)
  }

  /** Two worlds that differ in where node i's inbound queue keeps its messages,
      at most. */
  ghost predicate OnlyMoved(w: World, w': World, i: nat) {
    && i < |w.nodes| && |w'.nodes| == |w.nodes| && w'.net == w.net && w'.execs == w.execs
    && w'.nodes[i].dp == w.nodes[i].dp && Letters(Held(w'.nodes[i].rx)) == Letters(Held(w.nodes[i].rx))
    && (forall j :: 0 <= j < |w.nodes| && j != i ==> w'.nodes[j] == w.nodes[j])
  }

  lemma {:induction false} RnrAt(w: World, i: nat, env: HandleEnv)
    requires Waits(w, i, env) && RxInv(w.nodes[i].rx)
    ensures OnlyMoved(w, Next(w, HandleOne(i, env)), i)
  {
    PassReady(w.nodes[i].rx);
    HeldAfter(w.nodes[i].rx, true);
    DeferredIs(w, i, env);
  }

  /** In every run, a SEND that finds no receive, and may still wait for one,
      consumes nothing: no receive ring, no memory, no journal, no message and no
      other node is changed, and the message is still held, in its place. */
  lemma {:induction false} RnrConsumesNothing(w: World, steps: seq<WStep>, i: nat, env: HandleEnv)
    requires Start(w) && IsRunOf(w, steps) && Waits(EndOf(w, steps), i, env)
    ensures OnlyMoved(EndOf(w, steps), Next(EndOf(w, steps), HandleOne(i, env)), i)
  {
    var w' := Reached(w, steps);
    RnrAt(w', i, env);
  }

  /** The receives node j has taken for node o's request r. */
  function TookFor(w: World, j: nat, o: nat, r: nat): (n: nat)
    requires j < |w.nodes|
  {
    Tally(w.nodes[j].dp.log, KTook(ForPeer(o, r)))
  }

  /** In every run the receives a node has taken for a peer's request are those
      of the times it carried it out and took one: one at most, and at one node at
      most. Every SEND carried out with success took one, and nothing but a SEND
      or a WRITE_IMM carried out with success did. */
  lemma {:induction false} ReceivesBalance(w: World, steps: seq<WStep>, j: nat, j': nat, o: nat, r: nat)
    requires Start(w) && IsRunOf(w, steps) && j < |w.nodes| && j' < |w.nodes| && o < |w.nodes|
    ensures var w' := EndOf(w, steps);
      && TookFor(w', j, o, r) == TCnt(w'.execs, j, o, r) <= 1
      && (j != j' ==> TookFor(w', j, o, r) + TookFor(w', j', o, r) <= 1)
      && (forall e :: e in w'.execs ==>
            && (e.took ==> e.status == Ok && (IsSend(e.msg.op) || e.msg.op.WriteImm?))
            && (IsSend(e.msg.op) && e.status == Ok ==> e.took))
  {
    var w' := Reached(w, steps);
    RunsOnce(w', o, r);
    assert TakeOk(w', j, o, r) && TakeOk(w', j', o, r);
    TakesAtMostRuns(w'.execs, j, o, r);
    if j != j' {
      TakesApart(w'.execs, j, j', o, r);
    }
    forall e | e in w'.execs
      ensures e.took ==> e.status == Ok && (IsSend(e.msg.op) || e.msg.op.WriteImm?)
      ensures IsSend(e.msg.op) && e.status == Ok ==> e.took
    {
      ExecWasSent(w', e);
    }
  }

  /** And each node's rings count the receives posted to them and taken from them
      since they were set up, none of which is taken that wasn't posted: its own
      SENDs' and its peers' together. */
  lemma {:induction false} RingsCount(w: World, steps: seq<WStep>, j: nat, ring: RingName)
    requires Start(w) && IsRunOf(w, steps) && j < |w.nodes|
    ensures var dp := EndOf(w, steps).nodes[j].dp;
      && TakenFrom(dp.log, ring) <= PostedTo(dp.log, ring)
      && (HasRing(dp.host, ring) ==>
            && RingAt(dp.host, ring).cons == TakenFrom(dp.log, ring) % U32
            && RingAt(dp.host, ring).prod == PostedTo(dp.log, ring) % U32)
  {
    var w' := Reached(w, steps);
    var dp := w'.nodes[j].dp;
    GoodFacts(dp);
    TakenWerePosted(dp.log, ring);
    if HasRing(dp.host, ring) {
      assert RingTrue(RingAt(dp.host, ring), dp.log, ring);
    }
  }
}
