/** Several nodes and the network between them. Any node may act at any time,
    and the network may delay, reorder or lose what it carries, and a node what
    it has queued; it neither makes messages up nor repeats them. */
module Mesh {
  import opened Arith
  import opened Wire
  import opened Inbound
  import opened Host
  import opened Responder
  import opened SendQueue
  import opened Serving
  import opened SendQueueInv
  import opened Runs

  datatype Node = Node(dp: Dp, rx: Rx)

  /** A message on its way. */
  datatype Packet = Packet(dst: nat, letter: Letter)

  /** A request a node has carried out: what came of it and what it returned,
      whether it took a receive, and how much landed there. */
  datatype Exec = Exec(at: nat, origin: nat, msg: Msg, status: Status, data: seq<byte>, took: bool, landed: nat)

  datatype World = World(nodes: seq<Node>, net: seq<Packet>, execs: seq<Exec>)

  // ---------------------------------------------------------------------
  // Carrying out a message
  // ---------------------------------------------------------------------

  /** What a node's data path makes of a message that isn't put back. */
  function Applied(dp: Dp, l: Letter, env: HandleEnv): (r: Dp) {
    if IsResponse(l.msg.op) then Response(dp, l.msg, env.found.reach, env.found.fault)
    else if IsRequest(l.msg.op) then Replied(dp, l, env)
    else dp
  }

  /** And of one that is: a SEND that was tried and found no receive. */
  function Attempted(dp: Dp, l: Letter, env: HandleEnv): (r: Dp) { Carried(dp, Served(dp, l, env)) }

  /** Trying it consumed nothing. */
  lemma {:induction false} AttemptConsumesNothing(dp: Dp, l: Letter, env: HandleEnv)
    requires NoRecv(dp, l.msg, env)
    ensures Attempted(dp, l, env) == dp
  {
    var f := env.found;
    NoneTaken(dp.host, RingOf(dp, l.msg).value, f.recv, FromHost(Brought(l.msg)), f.reach, f.fault);
    assert dp.log + [] == dp.log;
  }

  function ExecOf(at: nat, l: Letter, o: Outcome): (e: Exec) {
    Exec(at, l.src, l.msg, o.status, o.data, o.took, o.landed)
  }

  function Executed(at: nat, dp: Dp, l: Letter, env: HandleEnv): (r: seq<Exec>) {
    if IsRequest(l.msg.op) then [ExecOf(at, l, Served(dp, l, env))] else []
  }

  // ---------------------------------------------------------------------
  // Steps
  // ---------------------------------------------------------------------

  datatype WStep =
    | Local(i: nat, cmd: Cmd)                           // a node's own guest, clock or administrator
    | Depart(i: nat, k: nat)                            // its mesh sends what it has queued
    | LoseQueued(i: nat, k: nat)                        // or drops it with a connection
    | Lose(k: nat)                                      // the network loses a message
    | Deliver(k: nat, allocOk: bool, at: nat)           // or hands it to a receive thread
    | BeginPass(i: nat, now: nat)
    | HandleOne(i: nat, env: HandleEnv)
    | EndPass(i: nat, later: nat)

  function SetDp(w: World, i: nat, dp: Dp): (r: World)
    requires i < |w.nodes|
  {
    w.(nodes := w.nodes[i := w.nodes[i].(dp := dp)])
  }

  function SetRx(w: World, i: nat, rx: Rx): (r: World)
    requires i < |w.nodes|
  {
    w.(nodes := w.nodes[i := w.nodes[i].(rx := rx)])
  }

  ghost predicate CanTake(w: World, s: WStep) {
    match s
    case Local(i, cmd) => i < |w.nodes| && IsOwn(cmd)
    case Depart(i, k) => i < |w.nodes| && k < |w.nodes[i].dp.outq|
    case LoseQueued(i, k) => i < |w.nodes| && k < |w.nodes[i].dp.outq|
    case Lose(k) => k < |w.net|
    case Deliver(k, _, _) => k < |w.net| && w.net[k].dst < |w.nodes|
    case BeginPass(i, now) => i < |w.nodes| && w.nodes[i].rx.pass.None? && now < U64
    case HandleOne(i, _) => i < |w.nodes| && w.nodes[i].rx.pass.Some? && w.nodes[i].rx.pass.value.list != []
    case EndPass(i, _) => i < |w.nodes| && w.nodes[i].rx.pass.Some? && w.nodes[i].rx.pass.value.list == []
  }

  ghost predicate NodesOk(w: World) {
    forall i :: 0 <= i < |w.nodes| ==> Good(w.nodes[i].dp) && RxInv(w.nodes[i].rx)
  }

  function Departed(w: World, i: nat, k: nat): (r: World)
    requires i < |w.nodes| && k < |w.nodes[i].dp.outq|
  {
    var dp := w.nodes[i].dp;
    SetDp(w, i, dp.(outq := Drop(dp.outq, k)))
      .(net := w.net + [Packet(dp.outq[k].dst, Letter(i, dp.outq[k].msg))])
  }

  function Arrived(w: World, k: nat, allocOk: bool, at: nat): (r: World)
    requires k < |w.net| && w.net[k].dst < |w.nodes|
  {
    var t := w.net[k].dst;
    var (rx, res) := Recv(w.nodes[t].rx, w.net[k].letter, allocOk, at);
    SetRx(w, t, rx).(net := if res.Refused? then w.net else Drop(w.net, k))
  }

  function Handled(w: World, i: nat, env: HandleEnv): (r: World)
    requires i < |w.nodes| && w.nodes[i].rx.pass.Some? && w.nodes[i].rx.pass.value.list != []
    requires w.nodes[i].rx.pass.value.now < U64 && Tried(w.nodes[i].rx.pass.value).firstTry < U64
  {
    var n := w.nodes[i];
    var l := n.rx.pass.value.list[0].letter;
    var noReceive := NoRecv(n.dp, l.msg, env);
    var rx := Handle(n.rx, noReceive);
    if Defers(n.rx.pass.value, noReceive) then
      w.(nodes := w.nodes[i := Node(if Blocked(n.rx.pass.value, l) then n.dp else Attempted(n.dp, l, env), rx)])
    else w.(nodes := w.nodes[i := Node(Applied(n.dp, l, env), rx)],
            execs := w.execs + Executed(i, n.dp, l, env))
  }

  /** What a step needs of the node that takes it, and the invariant gives. */
  ghost predicate Fit(w: World, s: WStep)
    requires CanTake(w, s)
  {
    match s
    case Local(i, _) => Shaped(w.nodes[i].dp)
    case BeginPass(i, _) => w.nodes[i].rx.crowdedMs < U64
    case HandleOne(i, _) =>
      w.nodes[i].rx.pass.value.now < U64 && Tried(w.nodes[i].rx.pass.value).firstTry < U64
    case EndPass(i, _) =>
      w.nodes[i].rx.pass.value.done <= w.nodes[i].rx.msgs && w.nodes[i].rx.pass.value.doneBytes <= w.nodes[i].rx.bytes
    case _ => true
  }

  lemma {:induction false} StaysFit(w: World, s: WStep)
    requires NodesOk(w) && CanTake(w, s)
    ensures Fit(w, s)
  {
    match s
    case HandleOne(i, _) => HandleInv(w.nodes[i].rx, false);
    case EndPass(i, _) => EndInv(w.nodes[i].rx, 0);
    case _ =>
  }

  ghost function Next(w: World, s: WStep): (r: World)
    requires CanTake(w, s) && Fit(w, s)
    ensures |r.nodes| == |w.nodes|
  {
    match s
    case Local(i, cmd) => SetDp(w, i, Do(w.nodes[i].dp, cmd))
    case Depart(i, k) => Departed(w, i, k)
    case LoseQueued(i, k) => SetDp(w, i, w.nodes[i].dp.(outq := Drop(w.nodes[i].dp.outq, k)))
    case Lose(k) => w.(net := Drop(w.net, k))
    case Deliver(k, allocOk, at) => Arrived(w, k, allocOk, at)
    case BeginPass(i, now) => SetRx(w, i, Begin(w.nodes[i].rx, now))
    case HandleOne(i, env) => Handled(w, i, env)
    case EndPass(i, later) => SetRx(w, i, End(w.nodes[i].rx, later))
  }
}
