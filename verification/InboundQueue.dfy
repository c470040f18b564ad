/** The inbound queue in place: what a receive thread's dp_mesh_recv() and the
    main thread's ionic_datapath_poll() do to it. */
module InboundQueue {
  import opened Arith
  import opened Wire
  import opened Inbound

  /** A letter a receive thread brings: whether there is memory for it, and the
      clock then. */
  datatype Arrival = Arrival(l: Letter, allocOk: bool, at: nat)

  ghost function Arrived(rx: Rx, a: Arrival): (r: Rx)
    requires RxInv(rx)
    ensures RxInv(r) && r.pass == rx.pass
  {
    RecvInv(rx, a.l, a.allocOk, a.at); Recv(rx, a.l, a.allocOk, a.at).0
  }

  ghost function Received(rx: Rx, letters: seq<Arrival>): (r: Rx)
    requires RxInv(rx)
    ensures RxInv(r) && r.pass == rx.pass
  {
    if letters == [] then rx else Arrived(Received(rx, letters[..|letters| - 1]), letters[|letters| - 1])
  }

  lemma {:induction false} ReceivedNext(rx: Rx, letters: seq<Arrival>, i: nat)
    requires RxInv(rx) && i < |letters|
    ensures Received(rx, letters[..i + 1]) == Arrived(Received(rx, letters[..i]), letters[i])
  {
    assert letters[..i + 1][..i] == letters[..i];
  }

  /** What goes on outside the pass: whether the k-th message looked at finds no
      receive posted, and what the receive threads bring before it, or after the
      last. */
  datatype Around = Around(noReceive: nat -> bool, letters: nat -> seq<Arrival>)

  /** A turn of the pass's loop, and what arrives before the next. */
  ghost function Turned(rx: Rx, around: Around, k: nat): (r: Rx)
    requires RxInv(rx) && rx.pass.Some? && rx.pass.value.list != []
    ensures RxInv(r) && r.pass.Some? && |r.pass.value.list| < |rx.pass.value.list|
  {
    HandleInv(rx, around.noReceive(k)); Received(Handle(rx, around.noReceive(k)), around.letters(k + 1))
  }

  /** The whole loop. */
  ghost function Turns(rx: Rx, around: Around, k: nat): (r: Rx)
    requires RxInv(rx) && rx.pass.Some?
    ensures RxInv(r) && r.pass.Some? && r.pass.value.list == []
    decreases |rx.pass.value.list|
  {
    if rx.pass.value.list == [] then rx else Turns(Turned(rx, around, k), around, k + 1)
  }

  class Queue {
    var head: seq<InMsg>
    var untried: nat
    var msgs: nat
    var bytes: nat
    var waiting: nat
    var inPass: bool
    var polledMs: nat
    var dropped: nat
    var crowded: bool
    var crowdedMs: nat
    ghost var arrived: seq<Letter>
    ghost var applied: seq<Letter>

    ghost function View(pass: Option<Pass>): (rx: Rx)
      reads this
    {
      Rx(head, untried, msgs, bytes, waiting, inPass, polledMs, dropped, crowded, crowdedMs,
         pass, arrived, applied)
    }

    /** The queue with a pass under way; what had arrived when it began is
        history, which the pass itself doesn't hold. */
    ghost function ViewIn(p: Pass, before: seq<Letter>): (rx: Rx)
      reads this
    {
      View(Some(p.(before := before)))
    }

    constructor (now: nat)
      ensures View(None) == Empty(now)
    {
      head, untried, msgs, bytes, waiting := [], 0, 0, 0, 0;
      inPass, polledMs, dropped, crowded, crowdedMs := false, now, 0, false, 0;
      arrived, applied := [], [];
    }

    /** dp_mesh_recv(): true when the queue took the letter, or freed it. */
    method MeshRecv(l: Letter, allocOk: bool, now: nat, ghost pass: Option<Pass>) returns (taken: bool)
      modifies this
      ensures View(pass) == Recv(old(View(pass)), l, allocOk, now).0
      ensures taken == !Recv(old(View(pass)), l, allocOk, now).1.Refused?
    {
      var len := MsgLen(l.msg);
      if len < HDR_LEN || len > HDR_LEN + MAX_PAYLOAD || !allocOk {
        return true;
      }
      if HasRoom(msgs, bytes, len) {
        head := head + [InMsg(l, 0)];
        untried := untried + 1;
        msgs := msgs + 1;
        bytes := bytes + len;
        arrived := arrived + [l];
        return true;
      }
      var stuck := !inPass && now > polledMs && now - polledMs > RX_STUCK_MS;
      if stuck {
        dropped := dropped + 1;
      } else if len > waiting {
        waiting := len;
      }
      taken := stuck;
    }

    /** dp_rx_note_crowding() */
    method NoteCrowding(kept: nat, keptBytes: nat, now: nat)
      modifies this`waiting, this`crowded, this`crowdedMs
      ensures View(None) == Inbound.NoteCrowding(old(View(None)), kept, keptBytes, now)
    {
      if waiting != 0 && HasRoom(kept, keptBytes, waiting) {
        waiting := 0;
      }
      if waiting == 0 {
        crowded := false;
      } else if !crowded {
        crowded := true;
        crowdedMs := now;
      }
    }

    /** Whether a deferred message is for the same QP as the request l. */
    static method IsBlocked(deferred: seq<InMsg>, l: Letter) returns (blocked: bool)
      ensures blocked == (!IsReply(l) && exists d :: d in deferred && d.letter.msg.dstQp == l.msg.dstQp)
    {
      blocked := false;
      if IsReply(l) {
        return;
      }
      var i := 0;
      while i < |deferred|
        invariant 0 <= i <= |deferred|
        invariant forall d :: d in deferred[..i] ==> d.letter.msg.dstQp != l.msg.dstQp
      {
        if deferred[i].letter.msg.dstQp == l.msg.dstQp {
          assert deferred[i] in deferred;
          return true;
        }
        assert deferred[..i + 1] == deferred[..i] + [deferred[i]];
        i := i + 1;
      }
      assert deferred[..i] == deferred;
    }

    /** One turn of the pass's loop, on the message at the front of its list. */
    static method Turn(p: Pass, noReceive: bool) returns (p': Pass, handled: bool)
      requires p.list != [] && p.now < U64 && Tried(p).firstTry < U64
      ensures p' == HandlePass(p, noReceive)
      ensures handled == !Defers(p, noReceive)
    {
      var m := p.list[0];
      var blocked := IsBlocked(p.deferred, m.letter);
      handled := false;
      if !blocked {
        if m.firstTry == 0 {
          m := m.(firstTry := p.now);
        }
        var allowRetry := !p.giveUp && Since(p.now, m.firstTry) < RNR_RETRY_MS;
        handled := !(IsSend(m.letter.msg.op) && noReceive && allowRetry);
      }
      p' := p.(list := p.list[1..]);
      if handled {
        p' := p'.(done := p.done + 1, doneBytes := p.doneBytes + Len(m));
      } else {
        p' := p'.(deferred := p.deferred + [m], kept := p.kept + 1, keptBytes := p.keptBytes + Len(m));
      }
    }

    /** The first locked region of a pass: it takes the queue's list. */
    method TakeList(now: nat) returns (p: Pass)
      requires now < U64 && crowdedMs < U64
      modifies this`head, this`untried, this`inPass
      ensures ViewIn(p, arrived) == old(Begin(View(None), now))
    {
      var giveUp := crowded && Since(now, crowdedMs) >= RX_CROWDED_MS;
      p := Pass(head, [], 0, 0, 0, 0, giveUp, now, []);
      head := [];
      untried := 0;
      inPass := true;
    }

    /** One turn, and the letter it applied, if it did, on the record. */
    method ApplyOne(p: Pass, noReceive: bool, ghost before: seq<Letter>) returns (p': Pass)
      requires p.list != [] && p.now < U64 && Tried(p).firstTry < U64
      modifies this`applied
      ensures ViewIn(p', before) == old(Handle(ViewIn(p, before), noReceive))
    {
      var handled;
      p', handled := Turn(p, noReceive);
      if handled {
        applied := applied + [p.list[0].letter];
      }
    }

    /** The receive threads' part, whether a pass is under way or not. */
    method Receive(letters: seq<Arrival>, ghost pass: Option<Pass>)
      requires RxInv(View(pass))
      modifies this
      ensures View(pass) == old(Received(View(pass), letters))
    {
      ghost var was := View(pass);
      var i := 0;
      while i < |letters|
        invariant 0 <= i <= |letters|
        invariant View(pass) == Received(was, letters[..i])
      {
        var a := letters[i];
        var _ := MeshRecv(a.l, a.allocOk, a.at, pass);
        ReceivedNext(was, letters, i);
        i := i + 1;
      }
      assert letters[..i] == letters;
    }

    /** One turn, and the receive threads' part before the next. */
    method ApplyNext(p: Pass, around: Around, k: nat, ghost before: seq<Letter>) returns (p': Pass)
      requires RxInv(ViewIn(p, before)) && p.list != []
      modifies this
      ensures ViewIn(p', before) == old(Turned(ViewIn(p, before), around, k))
    {
      HandleInv(ViewIn(p, before), around.noReceive(k));
      p' := ApplyOne(p, around.noReceive(k), before);
      Receive(around.letters(k + 1), Some(p'.(before := before)));
    }

    /** The pass's loop. */
    method Apply(p: Pass, around: Around, ghost before: seq<Letter>) returns (p': Pass)
      requires RxInv(ViewIn(p, before))
      modifies this
      ensures ViewIn(p', before) == old(Turns(ViewIn(p, before), around, 0))
    {
      ghost var all := Turns(ViewIn(p, before), around, 0);
      p' := p;
      var k := 0;
      while p'.list != []
        invariant RxInv(ViewIn(p', before))
        invariant Turns(ViewIn(p', before), around, k) == all
        decreases |p'.list|
      {
        p' := ApplyNext(p', around, k, before);
        k := k + 1;
      }
    }

    /** The last locked region of a pass: what it deferred goes back ahead of
        what arrived meanwhile. */
    method PutBack(p: Pass, later: nat, ghost before: seq<Letter>)
      requires p.list == [] && p.done <= msgs && p.doneBytes <= bytes
      modifies this
      ensures View(None) == old(End(ViewIn(p, before), later))
    {
      head := p.deferred + head;
      msgs := msgs - p.done;
      bytes := bytes - p.doneBytes;
      inPass := false;
      polledMs := later;
      NoteCrowding(p.kept, p.keptBytes, p.now);
    }

    /** The inbound half of ionic_datapath_poll(), with receive threads at work
        meanwhile. later is the clock at the end of the pass. */
    method Poll(now: nat, later: nat, around: Around)
      requires RxInv(View(None)) && now < U64
      modifies this
      ensures RxInv(old(Begin(View(None), now)))
      ensures View(None) == old(End(Turns(Received(Begin(View(None), now), around.letters(0)), around, 0), later))
      ensures RxInv(View(None))
    {
      BeginInv(View(None), now);
      ghost var before := arrived;
      var p := TakeList(now);
      Receive(around.letters(0), Some(p.(before := before)));
      p := Apply(p, around, before);
      EndInv(ViewIn(p, before), later);
      PutBack(p, later, before);
    }
  }
}
