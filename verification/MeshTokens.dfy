/** A request's number is a token: it is made when the request is sent, and is
    in one place at most from then on. */
module MeshTokens {
  import opened Arith
  import opened Wire
  import opened Journal
  import opened Inbound
  import opened Responder
  import opened SendQueue
  import opened Serving
  import opened Ledger
  import opened Evolve
  import opened Mesh

  // ---------------------------------------------------------------------
  // Counting
  // ---------------------------------------------------------------------

  predicate IsToken(l: Letter, i: nat, r: nat) {
    IsRequest(l.msg.op) && l.src == i && l.msg.reqId == r
  }

  function One(b: bool): (n: nat) { if b then 1 else 0 }

  function LCnt(s: seq<Letter>, i: nat, r: nat): (n: nat) {
    if s == [] then 0 else LCnt(s[..|s| - 1], i, r) + One(IsToken(s[|s| - 1], i, r))
  }

  function NCnt(s: seq<Packet>, i: nat, r: nat): (n: nat) {
    if s == [] then 0 else NCnt(s[..|s| - 1], i, r) + One(IsToken(s[|s| - 1].letter, i, r))
  }

  predicate IsRun(e: Exec, i: nat, r: nat) { e.origin == i && e.msg.reqId == r }

  /** How many times node i's request r has been carried out. */
  function XCnt(s: seq<Exec>, i: nat, r: nat): (n: nat) {
    if s == [] then 0 else XCnt(s[..|s| - 1], i, r) + One(IsRun(s[|s| - 1], i, r))
  }

  function RxCnt(rx: Rx, i: nat, r: nat): (n: nat) { LCnt(Letters(Held(rx)), i, r) }

  function Sum(c: seq<nat>): (n: nat) {
    if c == [] then 0 else Sum(c[..|c| - 1]) + c[|c| - 1]
  }

  function RxCnts(nodes: seq<Node>, i: nat, r: nat): (c: seq<nat>) {
    seq(|nodes|, d requires 0 <= d < |nodes| => RxCnt(nodes[d].rx, i, r))
  }

  /** How many times request r of node i is held, by all nodes together. */
  function RxSum(nodes: seq<Node>, i: nat, r: nat): (n: nat) { Sum(RxCnts(nodes, i, r)) }

  lemma {:induction false} LCntConcat(a: seq<Letter>, b: seq<Letter>, i: nat, r: nat)
    ensures LCnt(a + b, i, r) == LCnt(a, i, r) + LCnt(b, i, r)
  {
    if b == [] {
      assert a + b == a;
    } else {
      assert (a + b)[..|a + b| - 1] == a + b[..|b| - 1];
      LCntConcat(a, b[..|b| - 1], i, r);
    }
  }

  lemma {:induction false} LCntOne(l: Letter, i: nat, r: nat)
    ensures LCnt([l], i, r) == One(IsToken(l, i, r))
  {
  }

  /** Taking a held message out. */
  lemma {:induction false} LCntApply(a: seq<InMsg>, m: InMsg, b: seq<InMsg>, i: nat, r: nat)
    ensures LCnt(Letters(a + [m] + b), i, r) == LCnt(Letters(a + [] + b), i, r) + One(IsToken(m.letter, i, r))
  {
    LettersConcat(a + [m], b);
    LettersConcat(a, [m]);
    LettersConcat(a, b);
    assert a + [] + b == a + b;
    assert Letters([m]) == [m.letter];
    LCntConcat(Letters(a) + [m.letter], Letters(b), i, r);
    LCntConcat(Letters(a), [m.letter], i, r);
    LCntConcat(Letters(a), Letters(b), i, r);
    LCntOne(m.letter, i, r);
  }

  lemma {:induction false} NCntOne(s: seq<Packet>, p: Packet, i: nat, r: nat)
    ensures NCnt(s + [p], i, r) == NCnt(s, i, r) + One(IsToken(p.letter, i, r))
  {
  }

  lemma {:induction false} XCntOne(s: seq<Exec>, e: Exec, i: nat, r: nat)
    ensures XCnt(s + [e], i, r) == XCnt(s, i, r) + One(IsRun(e, i, r))
  {
  }

  lemma {:induction false} NCntDrop(s: seq<Packet>, k: nat, i: nat, r: nat)
    requires k < |s|
    ensures NCnt(s, i, r) == NCnt(Drop(s, k), i, r) + One(IsToken(s[k].letter, i, r))
  {
    var a := s[..|s| - 1];
    if k == |s| - 1 {
      assert Drop(s, k) == a;
    } else {
      NCntDrop(a, k, i, r);
      assert Drop(s, k) == Drop(a, k) + [s[|s| - 1]];
      NCntOne(Drop(a, k), s[|s| - 1], i, r);
    }
  }

  lemma {:induction false} CntDrop(s: seq<Queued>, k: nat, r: nat)
    requires k < |s|
    ensures Cnt(s, r) == Cnt(Drop(s, k), r) + One(!s[k].reply && s[k].req == r)
  {
    var a := s[..|s| - 1];
    if k == |s| - 1 {
      assert Drop(s, k) == a;
    } else {
      CntDrop(a, k, r);
      assert Drop(s, k) == Drop(a, k) + [s[|s| - 1]];
      CntOne(Drop(a, k), s[|s| - 1], r);
    }
  }

  lemma {:induction false} SumSet(c: seq<nat>, d: nat, v: nat)
    requires d < |c|
    ensures Sum(c[d := v]) == Sum(c) + v - c[d]
  {
    var a := c[..|c| - 1];
    var c' := c[d := v];
    if d == |c| - 1 {
      assert c'[..|c| - 1] == a;
    } else {
      SumSet(a, d, v);
      assert c'[..|c| - 1] == a[d := v];
    }
  }

  lemma {:induction false} RxSumSet(nodes: seq<Node>, d: nat, node: Node, i: nat, r: nat)
    requires d < |nodes|
    ensures RxSum(nodes[d := node], i, r) == RxSum(nodes, i, r) + RxCnt(node.rx, i, r) - RxCnt(nodes[d].rx, i, r)
  {
    SumSet(RxCnts(nodes, i, r), d, RxCnt(node.rx, i, r));
    assert RxCnts(nodes[d := node], i, r) == RxCnts(nodes, i, r)[d := RxCnt(node.rx, i, r)];
  }

  // ---------------------------------------------------------------------
  // The invariant
  // ---------------------------------------------------------------------

  /** Where request r of node i may be: queued, taken back, in flight, held, or
      carried out. */
  function Whereabouts(w: World, i: nat, r: nat): (n: nat)
    requires i < |w.nodes|
  {
    Cnt(w.nodes[i].dp.outq, r) + Taken(w.nodes[i].dp.log, r)
    + NCnt(w.net, i, r) + RxSum(w.nodes, i, r) + XCnt(w.execs, i, r)
  }

  predicate TokenOk(w: World, i: nat, r: nat)
    requires i < |w.nodes|
  {
    Whereabouts(w, i, r) <= Tally(w.nodes[i].dp.log, KSent(r))
  }

  ghost predicate TokensOk(w: World) {
    forall i, r: nat :: 0 <= i < |w.nodes| ==> TokenOk(w, i, r)
  }

  /** A node's own step. */
  lemma {:induction false} LocalTokens(w: World, j: nat, dp: Dp, i: nat, r: nat)
    requires j < |w.nodes| && i < |w.nodes| && TokenOk(w, i, r)
    requires Tokens(w.nodes[j].dp.outq, w.nodes[j].dp.log, dp.outq, dp.log)
    ensures TokenOk(SetDp(w, j, dp), i, r)
  {
    RxSumSet(w.nodes, j, w.nodes[j].(dp := dp), i, r);
  }

  lemma {:induction false} DepartTokens(w: World, j: nat, k: nat, i: nat, r: nat)
    requires j < |w.nodes| && i < |w.nodes| && TokenOk(w, i, r) && k < |w.nodes[j].dp.outq|
    requires var m := w.nodes[j].dp.outq[k]; IsRequest(m.msg.op) ==> !m.reply && m.req == m.msg.reqId
    ensures TokenOk(Departed(w, j, k), i, r)
  {
    var dp := w.nodes[j].dp;
    var p := Packet(dp.outq[k].dst, Letter(j, dp.outq[k].msg));
    CntDrop(dp.outq, k, r);
    NCntOne(w.net, p, i, r);
    RxSumSet(w.nodes, j, w.nodes[j].(dp := dp.(outq := Drop(dp.outq, k))), i, r);
  }

  lemma {:induction false} LoseQueuedTokens(w: World, j: nat, k: nat, i: nat, r: nat)
    requires j < |w.nodes| && i < |w.nodes| && TokenOk(w, i, r) && k < |w.nodes[j].dp.outq|
    ensures TokenOk(SetDp(w, j, w.nodes[j].dp.(outq := Drop(w.nodes[j].dp.outq, k))), i, r)
  {
    var dp := w.nodes[j].dp;
    CntDrop(dp.outq, k, r);
    RxSumSet(w.nodes, j, w.nodes[j].(dp := dp.(outq := Drop(dp.outq, k))), i, r);
  }

  lemma {:induction false} LoseTokens(w: World, k: nat, i: nat, r: nat)
    requires k < |w.net| && i < |w.nodes| && TokenOk(w, i, r)
    ensures TokenOk(w.(net := Drop(w.net, k)), i, r)
  {
    NCntDrop(w.net, k, i, r);
  }

  lemma {:induction false} TookCnt(rx: Rx, l: Letter, allocOk: bool, at: nat, i: nat, r: nat)
    ensures var (rx', res) := Recv(rx, l, allocOk, at);
      RxCnt(rx', i, r) == RxCnt(rx, i, r) + One(res.Took? && IsToken(l, i, r))
  {
    var (rx', res) := Recv(rx, l, allocOk, at);
    if res.Took? {
      assert Held(rx') == Held(rx) + [InMsg(l, 0)];
      LettersConcat(Held(rx), [InMsg(l, 0)]);
      assert Letters([InMsg(l, 0)]) == [l];
      LCntConcat(Letters(Held(rx)), [l], i, r);
      LCntOne(l, i, r);
    }
  }

  lemma {:induction false} DeliverTokens(w: World, k: nat, allocOk: bool, at: nat, i: nat, r: nat)
    requires k < |w.net| && w.net[k].dst < |w.nodes| && i < |w.nodes| && TokenOk(w, i, r)
    ensures TokenOk(Arrived(w, k, allocOk, at), i, r)
  {
    var t := w.net[k].dst;
    var rx := Recv(w.nodes[t].rx, w.net[k].letter, allocOk, at).0;
    TookCnt(w.nodes[t].rx, w.net[k].letter, allocOk, at, i, r);
    NCntDrop(w.net, k, i, r);
    RxSumSet(w.nodes, t, w.nodes[t].(rx := rx), i, r);
  }

  /** A step that moves messages within one node's inbound queue. */
  lemma {:induction false} MoveTokens(w: World, j: nat, rx: Rx, i: nat, r: nat)
    requires j < |w.nodes| && i < |w.nodes| && TokenOk(w, i, r)
    requires Letters(Held(rx)) == Letters(Held(w.nodes[j].rx))
    ensures TokenOk(SetRx(w, j, rx), i, r)
  {
    RxSumSet(w.nodes, j, w.nodes[j].(rx := rx), i, r);
  }

  /** A message leaves the inbound queue, and is carried out if it is a
      request. */
  lemma {:induction false} ApplyTokens(w: World, j: nat, node: Node, l: Letter, execs: seq<Exec>, i: nat, r: nat)
    requires j < |w.nodes| && i < |w.nodes| && TokenOk(w, i, r)
    requires Tokens(w.nodes[j].dp.outq, w.nodes[j].dp.log, node.dp.outq, node.dp.log)
    requires RxCnt(w.nodes[j].rx, i, r) == RxCnt(node.rx, i, r) + One(IsToken(l, i, r))
    requires XCnt(execs, i, r) == XCnt(w.execs, i, r) + One(IsToken(l, i, r))
    ensures TokenOk(w.(nodes := w.nodes[j := node], execs := execs), i, r)
  {
    RxSumSet(w.nodes, j, node, i, r);
  }

  lemma {:induction false} ExecutedCnt(execs: seq<Exec>, at: nat, dp: Dp, l: Letter, env: HandleEnv, i: nat, r: nat)
    ensures XCnt(execs + Executed(at, dp, l, env), i, r) == XCnt(execs, i, r) + One(IsToken(l, i, r))
  {
    if IsRequest(l.msg.op) {
      XCntOne(execs, Executed(at, dp, l, env)[0], i, r);
    } else {
      assert execs + [] == execs;
    }
  }

  lemma {:induction false} ReplyTokens(dp: Dp, dst: nat, msg: Msg)
    ensures Tokens(dp.outq, dp.log, Queue(dp, dst, msg).outq, dp.log)
  {
  }

  /** Taking a receive sends and takes back nothing. */
  lemma {:induction false} TakeTokens(q: seq<Queued>, l: Log, events: Log)
    requires events == [] || (|events| == 1 && events[0].Received?)
    ensures Tokens(q, l, q, l + events)
  {
    if events == [] {
      assert l + events == l;
    } else {
      assert events == [events[0]];
      TallyAfter(l, events[0]);
      forall r: nat ensures Taken(l + events, r) == Taken(l, r) {
        TakenOne(l, events[0], r);
      }
    }
  }

  lemma {:induction false} RepliedTokens(dp: Dp, l: Letter, env: HandleEnv)
    ensures Tokens(dp.outq, dp.log, Replied(dp, l, env).outq, Replied(dp, l, env).log)
  {
    var o := Served(dp, l, env);
    TakesAsItSays(dp.host, RingOf(dp, l.msg), l.src, l.msg, env.found);
    TakeTokens(dp.outq, dp.log, o.events);
    ReplyTokens(Carried(dp, o), l.src, ReplyTo(l.msg, o.status, o.data));
  }

  lemma {:induction false} AppliedTokens(dp: Dp, l: Letter, env: HandleEnv)
    ensures Tokens(dp.outq, dp.log, Applied(dp, l, env).outq, Applied(dp, l, env).log)
  {
    if IsResponse(l.msg.op) {
      ResponseEv(dp, l.msg, env.found.reach, env.found.fault);
    } else if IsRequest(l.msg.op) {
      RepliedTokens(dp, l, env);
    }
  }

  /** A message that is put back leaves its node as it was but for its place in
      the inbound queue. */
  lemma {:induction false} DeferredIs(w: World, j: nat, env: HandleEnv)
    requires j < |w.nodes| && w.nodes[j].rx.pass.Some? && w.nodes[j].rx.pass.value.list != []
    requires w.nodes[j].rx.pass.value.now < U64 && Tried(w.nodes[j].rx.pass.value).firstTry < U64
    requires var p := w.nodes[j].rx.pass.value; Defers(p, NoRecv(w.nodes[j].dp, p.list[0].letter.msg, env))
    ensures var p := w.nodes[j].rx.pass.value;
      Handled(w, j, env) == SetRx(w, j, Handle(w.nodes[j].rx, NoRecv(w.nodes[j].dp, p.list[0].letter.msg, env)))
  {
    var n, l := w.nodes[j], w.nodes[j].rx.pass.value.list[0].letter;
    if !Blocked(n.rx.pass.value, l) {
      AttemptConsumesNothing(n.dp, l, env);
    }
  }

  lemma {:induction false} HandleTokens(w: World, j: nat, env: HandleEnv, i: nat, r: nat)
    requires j < |w.nodes| && i < |w.nodes| && TokenOk(w, i, r)
    requires w.nodes[j].rx.pass.Some? && w.nodes[j].rx.pass.value.list != [] && PassOk(w.nodes[j].rx.pass.value)
    requires w.nodes[j].rx.pass.value.list[0].firstTry < U64
    ensures Tried(w.nodes[j].rx.pass.value).firstTry < U64
    ensures TokenOk(Handled(w, j, env), i, r)
  {
    var n := w.nodes[j];
    var p := n.rx.pass.value;
    var m := p.list[0];
    var noReceive := NoRecv(n.dp, m.letter.msg, env);
    var rest := p.list[1..] + n.rx.head;
    HandleHeld(n.rx, noReceive, rest);
    var rx := Handle(n.rx, noReceive);
    if Defers(p, noReceive) {
      DeferredIs(w, j, env);
      SameLetters(p.deferred, m, if Blocked(p, m.letter) then m else Tried(p), rest);
      MoveTokens(w, j, rx, i, r);
    } else {
      LCntApply(p.deferred, m, rest, i, r);
      AppliedTokens(n.dp, m.letter, env);
      ExecutedCnt(w.execs, j, n.dp, m.letter, env, i, r);
      ApplyTokens(w, j, Node(Applied(n.dp, m.letter, env), rx), m.letter,
                  w.execs + Executed(j, n.dp, m.letter, env), i, r);
    }
  }
}
