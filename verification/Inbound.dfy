/** The queue of messages from other nodes: filled by the mesh's receive
    threads, emptied by the main thread's passes.

    A receive thread and a pass interleave, so the queue is modelled as a value
    with one function for each region that runs under rx_lock (Recv, Begin,
    End) and one for each message a pass applies between them (Handle). The
    class InboundQueue.Queue does the same in place. */
module Inbound {
  import opened Arith
  import opened Wire

  /** struct dp_inmsg: a letter and when it was first tried, 0 until then. */
  datatype InMsg = InMsg(letter: Letter, firstTry: nat)

  /** What a pass keeps in local variables while it runs, and, in the last
      field, what had arrived when it began. */
  datatype Pass = Pass(
    list: seq<InMsg>,
    deferred: seq<InMsg>,
    done: nat,
    doneBytes: nat,
    kept: nat,
    keptBytes: nat,
    giveUp: bool,
    now: nat,
    before: seq<Letter>)

  /** The inbound queue. The last two fields are its history: every letter it
      ever took, and every letter a pass ever applied, in order. */
  datatype Rx = Rx(
    head: seq<InMsg>,
    untried: nat,
    msgs: nat,
    bytes: nat,
    waiting: nat,
    inPass: bool,
    polledMs: nat,
    dropped: nat,
    crowded: bool,
    crowdedMs: nat,
    pass: Option<Pass>,
    arrived: seq<Letter>,
    applied: seq<Letter>)

  function Len(m: InMsg): (n: nat) { MsgLen(m.letter.msg) }

  function Letters(s: seq<InMsg>): (r: seq<Letter>)
    ensures |r| == |s|
    ensures forall i :: 0 <= i < |s| ==> r[i] == s[i].letter
  {
    if s == [] then [] else [s[0].letter] + Letters(s[1..])
  }

  function Bytes(s: seq<InMsg>): (n: nat) {
    if s == [] then 0 else Len(s[0]) + Bytes(s[1..])
  }

  predicate IsReply(l: Letter) { IsResponse(l.msg.op) }

  predicate HasRoom(msgs: nat, bytes: nat, len: nat) {
    msgs == 0 || (msgs < RX_MAX_MSGS && len <= RX_MAX_BYTES && bytes <= RX_MAX_BYTES - len)
  }

  predicate LetterOk(l: Letter) {
    HDR_LEN <= MsgLen(l.msg) <= HDR_LEN + MAX_PAYLOAD
  }

  // ---------------------------------------------------------------------
  // The queue's operations, on values
  // ---------------------------------------------------------------------

  datatype RecvResult = Took | Discarded | Refused

  /** dp_mesh_recv(): one letter from a receive thread. Refused leaves it with
      the mesh; Discarded frees it unqueued. */
  function Recv(rx: Rx, l: Letter, allocOk: bool, now: nat): (r: (Rx, RecvResult))
  {
    if !LetterOk(l) || !allocOk then
      (rx, Discarded)
    else if HasRoom(rx.msgs, rx.bytes, MsgLen(l.msg)) then
      (rx.(head := rx.head + [InMsg(l, 0)],
           untried := rx.untried + 1,
           msgs := rx.msgs + 1,
           bytes := rx.bytes + MsgLen(l.msg),
           arrived := rx.arrived + [l]),
       Took)
    else if !rx.inPass && now > rx.polledMs && now - rx.polledMs > RX_STUCK_MS then
      (rx.(dropped := rx.dropped + 1), Discarded)
    else
      (rx.(waiting := if MsgLen(l.msg) > rx.waiting then MsgLen(l.msg) else rx.waiting), Refused)
  }

  /** The first locked region of ionic_datapath_poll(). */
  function Begin(rx: Rx, now: nat): (r: Rx)
    requires now < U64 && rx.crowdedMs < U64
  {
    var giveUp := rx.crowded && Since(now, rx.crowdedMs) >= RX_CROWDED_MS;
    rx.(head := [], untried := 0, inPass := true,
        pass := Some(Pass(rx.head, [], 0, 0, 0, 0, giveUp, now, rx.arrived)))
  }

  /** Whether a request behind the deferred ones for its QP must wait too. */
  predicate Blocked(p: Pass, l: Letter) {
    !IsReply(l) && exists d :: d in p.deferred && d.letter.msg.dstQp == l.msg.dstQp
  }

  /** When the message at the front of the pass is first tried. */
  function Tried(p: Pass): (m: InMsg)
    requires p.list != []
  {
    if p.list[0].firstTry == 0 then p.list[0].(firstTry := p.now) else p.list[0]
  }

  /** Whether the message at the front may wait for a receive to be posted. */
  predicate MayRetry(p: Pass)
    requires p.list != [] && p.now < U64 && Tried(p).firstTry < U64
  {
    !p.giveUp && Since(p.now, Tried(p).firstTry) < RNR_RETRY_MS
  }

  /** Whether the message at the front is put back rather than applied: it is
      behind a deferred one, or it is a SEND with no receive that may wait. */
  predicate Defers(p: Pass, noReceive: bool)
    requires p.list != [] && p.now < U64 && Tried(p).firstTry < U64
  {
    Blocked(p, p.list[0].letter)
    || (IsSend(p.list[0].letter.msg.op) && noReceive && MayRetry(p))
  }

  /** One turn of the pass's loop. */
  function HandlePass(p: Pass, noReceive: bool): (r: Pass)
    requires p.list != [] && p.now < U64 && Tried(p).firstTry < U64
  {
    var m := if Blocked(p, p.list[0].letter) then p.list[0] else Tried(p);
    if Defers(p, noReceive) then
      p.(list := p.list[1..], deferred := p.deferred + [m],
         kept := p.kept + 1, keptBytes := p.keptBytes + Len(m))
    else
      p.(list := p.list[1..], done := p.done + 1, doneBytes := p.doneBytes + Len(m))
  }

  function Handle(rx: Rx, noReceive: bool): (r: Rx)
    requires rx.pass.Some? && rx.pass.value.list != []
    requires rx.pass.value.now < U64 && Tried(rx.pass.value).firstTry < U64
  {
    var p := rx.pass.value;
    rx.(pass := Some(HandlePass(p, noReceive)),
        applied := if Defers(p, noReceive) then rx.applied else rx.applied + [p.list[0].letter])
  }

  /** dp_rx_note_crowding() */
  function NoteCrowding(rx: Rx, kept: nat, keptBytes: nat, now: nat): (r: Rx)
  {
    var waiting := if rx.waiting != 0 && HasRoom(kept, keptBytes, rx.waiting) then 0 else rx.waiting;
    if waiting == 0 then
      rx.(waiting := 0, crowded := false)
    else if !rx.crowded then
      rx.(waiting := waiting, crowded := true, crowdedMs := now)
    else
      rx.(waiting := waiting)
  }

  /** The last locked region of a pass. */
  function End(rx: Rx, later: nat): (r: Rx)
    requires rx.pass.Some? && rx.pass.value.list == []
    requires rx.pass.value.done <= rx.msgs && rx.pass.value.doneBytes <= rx.bytes
  {
    var p := rx.pass.value;
    var rx' := rx.(head := p.deferred + rx.head,
                   msgs := rx.msgs - p.done,
                   bytes := rx.bytes - p.doneBytes,
                   inPass := false, polledMs := later, pass := None);
    NoteCrowding(rx', p.kept, p.keptBytes, p.now)
  }

  // ---------------------------------------------------------------------
  // What they come to
  // ---------------------------------------------------------------------

  /** Whether len more bytes fit beside what is held. */
  predicate Fits(msgs: nat, bytes: nat, len: nat) { msgs == 0 || (msgs < 4096 && bytes + len <= 0x400_0000) }

  /** A letter is taken if it is well formed, there is memory and there is room. If
      there is none it is left with the mesh, unless the main thread has not looked
      for two seconds, when it is lost, as one that is malformed always is. */
  lemma {:induction false} RecvVerdict(rx: Rx, l: Letter, allocOk: bool, now: nat)
    ensures var r, n := Recv(rx, l, allocOk, now), MsgLen(l.msg);
      var good := 60 <= n <= 0x100_0000 && allocOk;
      && (r.1 == Took <==> good && Fits(rx.msgs, rx.bytes, n))
      && (r.1 == Refused <==> good && !Fits(rx.msgs, rx.bytes, n) && (rx.inPass || now <= rx.polledMs + 2000))
      && (r.1 == Took ==> r.0.head == rx.head + [InMsg(l, 0)])
      && (r.1 == Refused ==> r.0.waiting >= n && (r.0.waiting == n || r.0.waiting == rx.waiting))
      && (r.1 != Took ==> r.0 == rx.(waiting := r.0.waiting, dropped := r.0.dropped))
      && (r.1 == Discarded ==> r.0.waiting == rx.waiting && r.0.dropped == rx.dropped + if good then 1 else 0)
  {
  }

  /** How long ago a message was first tried. */
  function Age(m: InMsg, now: nat): (t: nat)
    requires now < U64 && m.firstTry < U64
  {
    if m.firstTry == 0 then 0 else if now >= m.firstTry then now - m.firstTry else U64 + now - m.firstTry
  }

  /** The message at the front of a pass goes behind the ones already put back for its
      QP, as it is, if it isn't a reply. Otherwise a SEND that finds no receive is put
      back, with when it was first tried, until that is five seconds ago or the pass
      gives up; and everything else is applied. */
  lemma {:induction false} DeferVerdict(p: Pass, noReceive: bool)
    requires p.list != [] && p.now < U64 && p.list[0].firstTry < U64
    ensures var m, r := p.list[0], HandlePass(p, noReceive);
      var behind := && !IsResponse(m.letter.msg.op)
                    && exists d :: d in p.deferred && d.letter.msg.dstQp == m.letter.msg.dstQp;
      var waits := IsSend(m.letter.msg.op) && noReceive && !p.giveUp && Age(m, p.now) < 5000;
      && r.list == p.list[1..] && (Defers(p, noReceive) <==> behind || waits)
      && (behind ==> r.deferred == p.deferred + [m])
      && (!behind && waits ==>
            r.deferred == p.deferred + [InMsg(m.letter, if m.firstTry == 0 then p.now else m.firstTry)])
      && (!behind && !waits ==> r.deferred == p.deferred && r.done == p.done + 1)
  {
  }

  /** A pass gives up on SENDs without a receive once the queue has been crowded for
      half a second; after a pass it is crowded if and only if a message that was
      refused since it last had room doesn't fit beside what was put back, and from
      the first pass for which that was so. */
  lemma {:induction false} CrowdVerdict(rx: Rx, now: nat, later: nat)
    requires now < U64 && rx.crowdedMs < U64
    ensures Begin(rx, now).pass.value.giveUp <==> rx.crowded && Since(now, rx.crowdedMs) >= 500
    ensures Begin(rx, now).pass.value.list == rx.head && Begin(rx, now).pass.value.now == now
    ensures && rx.pass.Some? && rx.pass.value.list == []
            && rx.pass.value.done <= rx.msgs && rx.pass.value.doneBytes <= rx.bytes ==>
              var p, r := rx.pass.value, End(rx, later);
              && (r.crowded <==> rx.waiting != 0 && !Fits(p.kept, p.keptBytes, rx.waiting))
              && (r.crowded ==> r.crowdedMs == if rx.crowded then rx.crowdedMs else p.now)
              && r.waiting == (if r.crowded then rx.waiting else 0)
              && r.head == p.deferred + rx.head
  {
  }

  // ---------------------------------------------------------------------
  // What every reachable queue satisfies
  // ---------------------------------------------------------------------

  /** Everything the queue still holds, oldest first: what a pass has put
      aside, what it has yet to look at, and what arrived behind it. */
  function Held(rx: Rx): (r: seq<InMsg>) {
    match rx.pass
    case None => rx.head
    case Some(p) => p.deferred + p.list + rx.head
  }

  function TakenBytes(rx: Rx): (n: nat) {
    if rx.pass.Some? then rx.pass.value.doneBytes else 0
  }

  function TakenMsgs(rx: Rx): (n: nat) {
    if rx.pass.Some? then rx.pass.value.done else 0
  }

  /** rx_msgs and rx_bytes count what is queued and what the pass under way
      took, and stay within the queue's limits. */
  predicate Conserved(rx: Rx) {
    && rx.msgs == |Held(rx)| + TakenMsgs(rx)
    && rx.bytes == Bytes(Held(rx)) + TakenBytes(rx)
    && (TakenMsgs(rx) == 0 ==> TakenBytes(rx) == 0)
    && rx.msgs <= RX_MAX_MSGS
    && rx.bytes <= RX_MAX_BYTES
  }

  predicate PassOk(p: Pass) {
    && p.now < U64
    && p.kept == |p.deferred|
    && p.keptBytes == Bytes(p.deferred)
    && (p.giveUp ==> p.deferred == [])
    && (forall m :: m in p.deferred ==> !IsReply(m.letter))
  }

  /** Held letters are well-formed, and untried counts never-tried ones at the end
      of the queue. */
  predicate HeldOk(rx: Rx) {
    && (forall m :: m in Held(rx) ==> LetterOk(m.letter) && m.firstTry < U64)
    && rx.untried <= |rx.head|
    && (forall i :: |rx.head| - rx.untried <= i < |rx.head| ==> rx.head[i].firstTry == 0)
  }

  /** The letters of one flow: the requests for one QP, or every response. */
  datatype Flow = Requests(qp: nat) | Replies

  predicate InFlow(f: Flow, l: Letter) {
    match f
    case Requests(qp) => !IsReply(l) && l.msg.dstQp == qp
    case Replies => IsReply(l)
  }

  function Select(f: Flow, s: seq<Letter>): (r: seq<Letter>) {
    if s == [] then []
    else if InFlow(f, s[0]) then [s[0]] + Select(f, s[1..])
    else Select(f, s[1..])
  }

  /** Each flow is first in, first out: what arrived is what was applied,
      followed by what is still held. */
  ghost predicate InOrder(rx: Rx) {
    forall f: Flow :: FlowInOrder(f, rx.arrived, rx.applied, Held(rx))
  }

  predicate FlowInOrder(f: Flow, arrived: seq<Letter>, applied: seq<Letter>, held: seq<InMsg>) {
    Select(f, arrived) == Select(f, applied) + Select(f, Letters(held))
  }

  ghost predicate RxInv(rx: Rx) {
    && Conserved(rx)
    && HeldOk(rx)
    && rx.inPass == rx.pass.Some?
    && rx.crowdedMs < U64
    && rx.waiting <= MESH_MAX_MSG
    && (rx.pass.Some? ==> PassOk(rx.pass.value))
    && (rx.pass.Some? ==> rx.arrived == rx.pass.value.before + Letters(rx.head))
    && InOrder(rx)
  }

  // ---------------------------------------------------------------------
  // Lemmas about lists of messages
  // ---------------------------------------------------------------------

  lemma {:induction false} BytesConcat(a: seq<InMsg>, b: seq<InMsg>)
    ensures Bytes(a + b) == Bytes(a) + Bytes(b)
  {
    if a == [] {
      assert a + b == b;
    } else {
      assert (a + b)[1..] == a[1..] + b;
      BytesConcat(a[1..], b);
    }
  }

  lemma {:induction false} SelectConcat(f: Flow, a: seq<Letter>, b: seq<Letter>)
    ensures Select(f, a + b) == Select(f, a) + Select(f, b)
  {
    if a == [] {
      assert a + b == b;
    } else {
      assert (a + b)[1..] == a[1..] + b;
      SelectConcat(f, a[1..], b);
    }
  }

  lemma {:induction false} LettersConcat(a: seq<InMsg>, b: seq<InMsg>)
    ensures Letters(a + b) == Letters(a) + Letters(b)
  {
  }

  lemma {:induction false} SelectOne(f: Flow, l: Letter)
    ensures Select(f, [l]) == if InFlow(f, l) then [l] else []
  {
    assert [l][1..] == [];
  }

  lemma {:induction false} SelectNone(f: Flow, s: seq<Letter>)
    requires forall l :: l in s ==> !InFlow(f, l)
    ensures Select(f, s) == []
  {
    if s != [] {
      SelectNone(f, s[1..]);
    }
  }

  lemma {:induction false} SelectHeld(f: Flow, a: seq<InMsg>, b: seq<InMsg>, c: seq<InMsg>)
    ensures Select(f, Letters(a + b + c))
         == Select(f, Letters(a)) + Select(f, Letters(b)) + Select(f, Letters(c))
  {
    LettersConcat(a + b, c);
    LettersConcat(a, b);
    SelectConcat(f, Letters(a) + Letters(b), Letters(c));
    SelectConcat(f, Letters(a), Letters(b));
  }

  // ---------------------------------------------------------------------
  // Every step keeps the invariant
  // ---------------------------------------------------------------------

  function Empty(now: nat): (rx: Rx)
  {
    Rx([], 0, 0, 0, 0, false, now, 0, false, 0, None, [], [])
  }

  lemma {:induction false} EmptyInv(now: nat)
    ensures RxInv(Empty(now))
  {
  }

  lemma {:induction false} OrderAppend(f: Flow, arrived: seq<Letter>, applied: seq<Letter>, held: seq<InMsg>, m: InMsg)
    requires FlowInOrder(f, arrived, applied, held)
    ensures FlowInOrder(f, arrived + [m.letter], applied, held + [m])
  {
    SelectConcat(f, arrived, [m.letter]);
    LettersConcat(held, [m]);
    assert Letters([m]) == [m.letter];
    SelectConcat(f, Letters(held), [m.letter]);
  }

  lemma {:induction false} Assoc(p: seq<Letter>, a: seq<Letter>, m: seq<Letter>, c: seq<Letter>)
    requires m != [] ==> a == []
    ensures p + (a + m + c) == (p + m) + (a + [] + c)
  {
  }

  lemma {:induction false} OrderApply(f: Flow, arrived: seq<Letter>, applied: seq<Letter>,
                                      aside: seq<InMsg>, m: InMsg, rest: seq<InMsg>)
    requires FlowInOrder(f, arrived, applied, aside + [m] + rest)
    requires InFlow(f, m.letter) ==> Select(f, Letters(aside)) == []
    ensures FlowInOrder(f, arrived, applied + [m.letter], aside + [] + rest)
  {
    SelectOne(f, m.letter);
    var s := Select(f, [m.letter]);
    assert Letters([m]) == [m.letter];
    Assoc(Select(f, applied), Select(f, Letters(aside)), s, Select(f, Letters(rest)));
    SelectHeld(f, aside, [m], rest);
    SelectHeld(f, aside, [], rest);
    SelectConcat(f, applied, [m.letter]);
  }

  lemma {:induction false} RecvInOrder(rx: Rx, m: InMsg)
    requires InOrder(rx)
    ensures InOrder(rx.(head := rx.head + [m], arrived := rx.arrived + [m.letter]))
  {
    var rx' := rx.(head := rx.head + [m], arrived := rx.arrived + [m.letter]);
    assert Held(rx') == Held(rx) + [m];
    forall f: Flow
      ensures FlowInOrder(f, rx'.arrived, rx'.applied, Held(rx'))
    {
      OrderAppend(f, rx.arrived, rx.applied, Held(rx), m);
    }
  }

  lemma {:induction false} RecvConserved(rx: Rx, m: InMsg)
    requires Conserved(rx) && HasRoom(rx.msgs, rx.bytes, Len(m)) && LetterOk(m.letter)
    ensures Conserved(rx.(head := rx.head + [m], msgs := rx.msgs + 1, bytes := rx.bytes + Len(m)))
  {
    var rx' := rx.(head := rx.head + [m], msgs := rx.msgs + 1, bytes := rx.bytes + Len(m));
    assert Held(rx') == Held(rx) + [m];
    BytesConcat(Held(rx), [m]);
    assert Bytes([m]) == Len(m);
  }

  lemma {:induction false} RecvHeldOk(rx: Rx, l: Letter)
    requires HeldOk(rx) && LetterOk(l)
    ensures HeldOk(rx.(head := rx.head + [InMsg(l, 0)], untried := rx.untried + 1))
  {
    var rx' := rx.(head := rx.head + [InMsg(l, 0)], untried := rx.untried + 1);
    assert Held(rx') == Held(rx) + [InMsg(l, 0)];
  }

  lemma {:induction false} RecvBefore(before: seq<Letter>, head: seq<InMsg>, m: InMsg)
    ensures before + Letters(head) + [m.letter] == before + Letters(head + [m])
  {
    LettersConcat(head, [m]);
    assert Letters([m]) == [m.letter];
  }

  lemma {:induction false} TakeInv(rx: Rx, l: Letter, rx': Rx)
    requires RxInv(rx) && LetterOk(l) && HasRoom(rx.msgs, rx.bytes, MsgLen(l.msg))
    requires rx' == rx.(head := rx.head + [InMsg(l, 0)], untried := rx.untried + 1, msgs := rx.msgs + 1,
                        bytes := rx.bytes + MsgLen(l.msg), arrived := rx.arrived + [l])
    ensures RxInv(rx')
  {
    var m := InMsg(l, 0);
    RecvConserved(rx, m);
    RecvHeldOk(rx, l);
    RecvInOrder(rx, m);
    if rx.pass.Some? {
      RecvBefore(rx.pass.value.before, rx.head, m);
    }
    SameView(rx', rx.(head := rx.head + [m], msgs := rx.msgs + 1, bytes := rx.bytes + Len(m)));
    SameView(rx', rx.(head := rx.head + [m], untried := rx.untried + 1));
    SameView(rx', rx.(head := rx.head + [m], arrived := rx.arrived + [l]));
  }

  lemma {:induction false} SameView(a: Rx, b: Rx)
    requires a.head == b.head && a.pass == b.pass
    ensures Held(a) == Held(b)
    ensures a.msgs == b.msgs && a.bytes == b.bytes ==> (Conserved(a) <==> Conserved(b))
    ensures a.untried == b.untried ==> (HeldOk(a) <==> HeldOk(b))
    ensures a.arrived == b.arrived && a.applied == b.applied ==> (InOrder(a) <==> InOrder(b))
  {
  }

  lemma {:induction false} NoteInv(rx: Rx, waiting: nat, dropped: nat)
    requires RxInv(rx) && waiting <= MESH_MAX_MSG
    ensures RxInv(rx.(waiting := waiting, dropped := dropped))
  {
    var rx' := rx.(waiting := waiting, dropped := dropped);
    SameView(rx, rx');
  }

  lemma {:induction false} RecvInv(rx: Rx, l: Letter, allocOk: bool, now: nat)
    requires RxInv(rx)
    ensures RxInv(Recv(rx, l, allocOk, now).0)
  {
    var rx' := Recv(rx, l, allocOk, now).0;
    if !LetterOk(l) || !allocOk {
    } else if HasRoom(rx.msgs, rx.bytes, MsgLen(l.msg)) {
      TakeInv(rx, l, rx');
    } else {
      NoteInv(rx, rx'.waiting, rx'.dropped);
      assert rx' == rx.(waiting := rx'.waiting, dropped := rx'.dropped);
    }
  }

  lemma {:induction false} BeginInv(rx: Rx, now: nat)
    requires RxInv(rx) && rx.pass.None? && now < U64
    ensures RxInv(Begin(rx, now))
  {
    var rx' := Begin(rx, now);
    assert Held(rx') == Held(rx);
    MoveInOrder(rx, rx');
    assert Letters([]) == [];
  }

  lemma {:induction false} Regroup(a: seq<InMsg>, m: InMsg, b: seq<InMsg>, c: seq<InMsg>)
    ensures a + ([m] + b) + c == a + [m] + (b + c)
    ensures (a + [m]) + b + c == a + [m] + (b + c)
    ensures a + b + c == a + [] + (b + c)
  {
  }

  /** What a turn does to the held messages: an applied one goes, and a put
      back one only moves. */
  lemma {:induction false} HandleHeld(rx: Rx, noReceive: bool, rest: seq<InMsg>)
    requires rx.pass.Some? && PassOk(rx.pass.value) && rx.pass.value.list != []
    requires rx.pass.value.list[0].firstTry < U64
    requires rest == rx.pass.value.list[1..] + rx.head
    ensures Tried(rx.pass.value).firstTry < U64
    ensures var p := rx.pass.value; var m := p.list[0]; var m' := if Blocked(p, m.letter) then m else Tried(p);
      && Held(rx) == p.deferred + [m] + rest
      && m'.letter == m.letter && Len(m') == Len(m)
      && Held(Handle(rx, noReceive)) == p.deferred + (if Defers(p, noReceive) then [m'] else []) + rest
  {
    var p := rx.pass.value;
    var m := p.list[0];
    var m' := if Blocked(p, m.letter) then m else Tried(p);
    assert p.list == [m] + p.list[1..];
    Regroup(p.deferred, m, p.list[1..], rx.head);
    Regroup(p.deferred, m', p.list[1..], rx.head);
  }

  lemma {:induction false} BytesApply(aside: seq<InMsg>, m: InMsg, rest: seq<InMsg>)
    ensures Bytes(aside + [m] + rest) == Bytes(aside + rest) + Len(m)
  {
    BytesConcat(aside + [m], rest);
    BytesConcat(aside, [m]);
    BytesConcat(aside, rest);
    assert Bytes([m]) == Len(m);
  }

  /** A message put back, as it was or with the time it was first tried. */
  lemma {:induction false} BackConserved(rx: Rx, rx': Rx, aside: seq<InMsg>, m: InMsg, m': InMsg, rest: seq<InMsg>)
    requires Conserved(rx) && Held(rx) == aside + [m] + rest && Held(rx') == aside + [m'] + rest && Len(m') == Len(m)
    requires rx'.msgs == rx.msgs && rx'.bytes == rx.bytes
    requires TakenMsgs(rx') == TakenMsgs(rx) && TakenBytes(rx') == TakenBytes(rx)
    ensures Conserved(rx')
  {
    BytesApply(aside, m, rest);
    BytesApply(aside, m', rest);
  }

  /** A message applied. */
  lemma {:induction false} GoneConserved(rx: Rx, rx': Rx, aside: seq<InMsg>, m: InMsg, rest: seq<InMsg>)
    requires Conserved(rx) && Held(rx) == aside + [m] + rest && Held(rx') == aside + [] + rest
    requires rx'.msgs == rx.msgs && rx'.bytes == rx.bytes
    requires TakenMsgs(rx') == TakenMsgs(rx) + 1 && TakenBytes(rx') == TakenBytes(rx) + Len(m)
    ensures Conserved(rx')
  {
    BytesApply(aside, m, rest);
    assert aside + [] + rest == aside + rest;
  }

  lemma {:induction false} HandleConserved(rx: Rx, noReceive: bool)
    requires rx.pass.Some? && PassOk(rx.pass.value) && Conserved(rx) && rx.pass.value.list != []
    requires rx.pass.value.list[0].firstTry < U64
    ensures Tried(rx.pass.value).firstTry < U64
    ensures Conserved(Handle(rx, noReceive))
  {
    var p := rx.pass.value;
    var rest := p.list[1..] + rx.head;
    HandleHeld(rx, noReceive, rest);
    var m := p.list[0];
    if Defers(p, noReceive) {
      var m' := if Blocked(p, m.letter) then m else Tried(p);
      BackConserved(rx, Handle(rx, noReceive), p.deferred, m, m', rest);
    } else {
      GoneConserved(rx, Handle(rx, noReceive), p.deferred, m, rest);
    }
  }

  lemma {:induction false} HandlePassOk(p: Pass, noReceive: bool)
    requires PassOk(p) && p.list != [] && p.list[0].firstTry < U64
    ensures PassOk(HandlePass(p, noReceive))
  {
    var m := if Blocked(p, p.list[0].letter) then p.list[0] else Tried(p);
    BytesConcat(p.deferred, [m]);
    assert Bytes([m]) == Len(m);
  }

  /** A turn that applies the message m takes it out of what is held. */
  lemma {:induction false} ApplyInOrder(rx: Rx, p: Pass, m: InMsg, rest: seq<InMsg>, rx': Rx)
    requires InOrder(rx) && PassOk(p) && !Blocked(p, m.letter)
    requires Held(rx) == p.deferred + [m] + rest
    requires Held(rx') == p.deferred + [] + rest
    requires rx'.arrived == rx.arrived && rx'.applied == rx.applied + [m.letter]
    ensures InOrder(rx')
  {
    forall f: Flow
      ensures FlowInOrder(f, rx'.arrived, rx'.applied, Held(rx'))
    {
      if InFlow(f, m.letter) {
        DeferredApart(p, f, m.letter);
      }
      OrderApply(f, rx.arrived, rx.applied, p.deferred, m, rest);
    }
  }

  /** A turn that only moves messages leaves every flow in order. */
  lemma {:induction false} MoveInOrder(rx: Rx, rx': Rx)
    requires InOrder(rx)
    requires Letters(Held(rx')) == Letters(Held(rx))
    requires rx'.arrived == rx.arrived && rx'.applied == rx.applied
    ensures InOrder(rx')
  {
    forall f: Flow ensures FlowInOrder(f, rx'.arrived, rx'.applied, Held(rx')) {
      assert FlowInOrder(f, rx.arrived, rx.applied, Held(rx));
    }
  }

  lemma {:induction false} SameLetters(a: seq<InMsg>, m: InMsg, m': InMsg, b: seq<InMsg>)
    requires m.letter == m'.letter
    ensures Letters(a + [m] + b) == Letters(a + [m'] + b)
  {
  }

  lemma {:induction false} HandleInOrder(rx: Rx, noReceive: bool)
    requires rx.pass.Some? && PassOk(rx.pass.value) && InOrder(rx) && rx.pass.value.list != []
    requires rx.pass.value.list[0].firstTry < U64
    ensures Tried(rx.pass.value).firstTry < U64
    ensures InOrder(Handle(rx, noReceive))
  {
    var p := rx.pass.value;
    var rest := p.list[1..] + rx.head;
    HandleHeld(rx, noReceive, rest);
    var rx' := Handle(rx, noReceive);
    if Defers(p, noReceive) {
      SameLetters(p.deferred, p.list[0], if Blocked(p, p.list[0].letter) then p.list[0] else Tried(p), rest);
      MoveInOrder(rx, rx');
    } else {
      ApplyInOrder(rx, p, p.list[0], rest, rx');
    }
  }

  /** Nothing a pass has put aside is in the flow of a message it applies. */
  lemma {:induction false} DeferredApart(p: Pass, f: Flow, l: Letter)
    requires PassOk(p) && !Blocked(p, l) && InFlow(f, l)
    ensures Select(f, Letters(p.deferred)) == []
  {
    forall d | d in Letters(p.deferred) ensures !InFlow(f, d) {
      var i :| 0 <= i < |p.deferred| && Letters(p.deferred)[i] == d;
      assert p.deferred[i] in p.deferred;
    }
    SelectNone(f, Letters(p.deferred));
  }

  lemma {:induction false} HandleInv(rx: Rx, noReceive: bool)
    requires RxInv(rx) && rx.pass.Some? && rx.pass.value.list != []
    ensures Tried(rx.pass.value).firstTry < U64
    ensures RxInv(Handle(rx, noReceive))
  {
    var p := rx.pass.value;
    var m := p.list[0];
    assert m in Held(rx);
    HandleConserved(rx, noReceive);
    HandlePassOk(p, noReceive);
    HandleInOrder(rx, noReceive);
    HandleHeld(rx, noReceive, p.list[1..] + rx.head);
  }

  lemma {:induction false} EndHeld(rx: Rx, later: nat)
    requires rx.pass.Some? && rx.pass.value.list == [] && Conserved(rx)
    ensures rx.pass.value.done <= rx.msgs && rx.pass.value.doneBytes <= rx.bytes
    ensures Held(End(rx, later)) == Held(rx) == rx.pass.value.deferred + rx.head
    ensures HeldOk(rx) ==> HeldOk(End(rx, later))
  {
    var rx' := End(rx, later);
    assert Held(rx') == Held(rx);
    if HeldOk(rx) {
      forall i | |rx'.head| - rx'.untried <= i < |rx'.head| ensures rx'.head[i].firstTry == 0 {
        assert rx'.head[i] == rx.head[i - |rx.pass.value.deferred|];
      }
    }
  }

  lemma {:induction false} EndInv(rx: Rx, later: nat)
    requires RxInv(rx) && rx.pass.Some? && rx.pass.value.list == []
    ensures rx.pass.value.done <= rx.msgs && rx.pass.value.doneBytes <= rx.bytes
    ensures RxInv(End(rx, later))
  {
    EndHeld(rx, later);
    var rx' := End(rx, later);
    assert Conserved(rx');
    forall f: Flow ensures FlowInOrder(f, rx'.arrived, rx'.applied, Held(rx')) {
      assert FlowInOrder(f, rx.arrived, rx.applied, Held(rx));
    }
  }

  // ---------------------------------------------------------------------
  // Runs
  // ---------------------------------------------------------------------

  /** One step of the queue. */
  datatype RxStep =
    | Arrive(l: Letter, allocOk: bool, at: nat)
    | Start(now: nat)
    | Turn(noReceive: bool)
    | Finish(later: nat)

  ghost predicate Enabled(rx: Rx, s: RxStep) {
    match s
    case Arrive(_, _, _) => true
    case Start(now) => rx.pass.None? && now < U64
    case Turn(_) => rx.pass.Some? && rx.pass.value.list != []
    case Finish(_) => rx.pass.Some? && rx.pass.value.list == []
  }

  ghost function Step(rx: Rx, s: RxStep): (r: Rx)
    requires RxInv(rx) && Enabled(rx, s)
    ensures RxInv(r)
  {
    match s
    case Arrive(l, allocOk, at) => RecvInv(rx, l, allocOk, at); Recv(rx, l, allocOk, at).0
    case Start(now) => BeginInv(rx, now); Begin(rx, now)
    case Turn(noReceive) => HandleInv(rx, noReceive); Handle(rx, noReceive)
    case Finish(later) => EndInv(rx, later); End(rx, later)
  }

  /** A run from rx: every step enabled where it is taken. */
  ghost predicate Runs(rx: Rx, steps: seq<RxStep>)
    requires RxInv(rx)
    decreases |steps|
  {
    steps == [] || (Enabled(rx, steps[0]) && Runs(Step(rx, steps[0]), steps[1..]))
  }

  ghost function After(rx: Rx, steps: seq<RxStep>): (r: Rx)
    requires RxInv(rx) && Runs(rx, steps)
    ensures RxInv(r)
    decreases |steps|
  {
    if steps == [] then rx else After(Step(rx, steps[0]), steps[1..])
  }

  /** In every run, with receive threads and passes interleaved in any way: the
      counts are exact and within their limits, and each flow is applied in the
      order it arrived. */
  lemma {:induction false} RunConservesAndOrders(now: nat, steps: seq<RxStep>)
    requires RxInv(Empty(now)) && Runs(Empty(now), steps)
    ensures var rx := After(Empty(now), steps);
      && rx.msgs == |Held(rx)| + TakenMsgs(rx) <= RX_MAX_MSGS
      && rx.bytes == Bytes(Held(rx)) + TakenBytes(rx) <= RX_MAX_BYTES
      && forall f: Flow :: Select(f, rx.applied) <= Select(f, rx.arrived)
  {
    var rx := After(Empty(now), steps);
    forall f: Flow ensures Select(f, rx.applied) <= Select(f, rx.arrived) {
      assert FlowInOrder(f, rx.arrived, rx.applied, Held(rx));
    }
  }

  lemma {:induction false} NoRepliesAside(p: Pass)
    requires PassOk(p)
    ensures Select(Replies, Letters(p.deferred)) == []
  {
    forall l | l in Letters(p.deferred) ensures !InFlow(Replies, l) {
      var i :| 0 <= i < |p.deferred| && Letters(p.deferred)[i] == l;
      assert p.deferred[i] in p.deferred;
    }
    SelectNone(Replies, Letters(p.deferred));
  }

  /** A pass leaves no response waiting: when it has been through its list, the
      responses applied are exactly those that had arrived when it began, in
      order, whatever arrived meanwhile. */
  lemma {:induction false} ResponsesAppliedInPass(rx: Rx)
    requires RxInv(rx) && rx.pass.Some? && rx.pass.value.list == []
    ensures Select(Replies, rx.applied) == Select(Replies, rx.pass.value.before)
  {
    assert FlowInOrder(Replies, rx.arrived, rx.applied, Held(rx));
    NothingAside(rx.pass.value, rx.head, rx.applied);
  }

  lemma {:induction false} NothingAside(p: Pass, head: seq<InMsg>, applied: seq<Letter>)
    requires PassOk(p) && p.list == []
    requires FlowInOrder(Replies, p.before + Letters(head), applied, p.deferred + p.list + head)
    ensures Select(Replies, applied) == Select(Replies, p.before)
  {
    NoRepliesAside(p);
    SelectHeld(Replies, p.deferred, p.list, head);
    SelectConcat(Replies, p.before, Letters(head));
    SameSuffix(Select(Replies, applied), Select(Replies, p.before), Select(Replies, Letters(head)));
  }

  lemma {:induction false} SameSuffix(a: seq<Letter>, b: seq<Letter>, c: seq<Letter>)
    requires a + c == b + c
    ensures a == b
  {
    assert |a| == |b|;
    assert a == (a + c)[..|a|];
    assert b == (b + c)[..|b|];
  }

  /** A pass that gives up leaves nothing waiting and the queue no longer
      crowded: what is held at its end is what arrived while it ran. */
  lemma {:induction false} GiveUpEmpties(rx: Rx, later: nat)
    requires RxInv(rx) && rx.pass.Some? && rx.pass.value.list == [] && rx.pass.value.giveUp
    ensures rx.pass.value.done <= rx.msgs && rx.pass.value.doneBytes <= rx.bytes
    ensures var rx' := End(rx, later);
      rx'.head == rx.head && !rx'.crowded && rx'.waiting == 0
  {
    EndInv(rx, later);
  }
}
