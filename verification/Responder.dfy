/** What the device does with another node's requests: SENDs into its receives,
    and READs, WRITEs and atomics on its memory. */
module Responder {
  import opened Arith
  import opened Wire
  import opened Journal
  import opened RecvRings
  import opened Host
  import opened Dma
  import Translate
  import opened Regions
  import opened Copying

  /** What a request finds: the list in the next receive's slot, if it can be
      read, whether there is memory for an answer, how far the bytes get, an
      atomic's twice, and what a scatter notes. */
  datatype Found = Found(recv: Option<seq<Sge>>, alloc: bool, reach: Reach, again: Reach, fault: Status)

  /** What comes of it: the host after it, a receive's completion if it took one,
      the reply's status and data, and how much of a SEND landed. */
  datatype Outcome = Outcome(host: Host, events: Log, status: Status, data: seq<byte>, took: bool, landed: nat)

  function Fails(h: Host): (o: Outcome) { Outcome(h, [], RemoteAccErr, [], false, 0) }

  // ---------------------------------------------------------------------
  // Atomics
  // ---------------------------------------------------------------------

  function Le(b: seq<byte>): (n: nat) {
    if b == [] then 0 else b[0] as nat + 256 * Le(b[1..])
  }

  function ToLe(n: nat, k: nat): (b: seq<byte>)
    ensures |b| == k
    decreases k
  {
    if k == 0 then [] else [(n % 256) as byte] + ToLe(n / 256, k - 1)
  }

  /** What memory holds is the number it was given, if that has no more bytes. */
  lemma {:induction false} LeRoundTrip(n: nat, k: nat)
    ensures n < Pow2(8 * k) ==> Le(ToLe(n, k)) == n
    decreases k
  {
    if k > 0 {
      Pow2Add(8 * (k - 1), 8);
      assert Pow2(8) == 256 by { Pow2Add(4, 4); }
      LeRoundTrip(n / 256, k - 1);
    }
  }

  /** Byte i of a number is its i-th digit, the least first. */
  lemma {:induction false} LeDigit(b: seq<byte>, i: nat)
    requires i < |b|
    ensures Pow2(8 * i) > 0 && Le(b) / Pow2(8 * i) % 256 == b[i] as nat
    decreases |b|
  {
    if i > 0 {
      LeDigit(b[1..], i - 1);
      Pow2Add(8 * (i - 1), 8);
      assert Pow2(8) == 256 by { Pow2Add(4, 4); }
      ShiftDown(Le(b), Le(b[1..]), b[0] as nat, Pow2(8 * (i - 1)));
    }
  }

  lemma {:induction false} ShiftDown(n: nat, rest: nat, low: nat, p: nat)
    requires n == low + 256 * rest && low < 256 && p > 0
    ensures n / (p * 256) == rest / p
  {
    QuotRem(rest, p);
    var q, r := rest / p, rest % p;
    assert n == q * (p * 256) + (low + 256 * r);
    DivUnique(n, p * 256, q, low + 256 * r);
  }

  /** And memory that holds a number is the bytes of it. */
  lemma {:induction false} BytesRoundTrip(b: seq<byte>)
    ensures ToLe(Le(b), |b|) == b
  {
    if b != [] {
      BytesRoundTrip(b[1..]);
      assert b == [b[0]] + b[1..];
    }
  }

  /** Whether some bytes are what an atomic makes of others, as numbers of 64
      bits: a compare-and-swap puts its operand in their place if they are what it
      compares with, and leaves them as they are if not; a fetch-and-add adds. */
  predicate Performed(a: Atomic, was: seq<byte>, now: seq<byte>) {
    match a
    case CompareSwap(swap, compare) => if Le(was) == compare then Le(now) == swap % U64 else now == was
    case FetchAdd(add) => Le(now) == (Le(was) + add) % U64
  }

  /** What an atomic leaves, given what it finds. */
  function NewValue(a: Atomic, was: nat): (n: nat)
    requires was < U64
    ensures n < U64
  {
    match a
    case CompareSwap(swap, compare) => if was == compare then swap % U64 else was
    case FetchAdd(add) => (was + add) % U64
  }

  lemma {:induction false} LeBound(b: seq<byte>)
    ensures Le(b) < Pow2(8 * |b|)
  {
    if b != [] {
      LeBound(b[1..]);
      Pow2Add(8 * |b[1..]|, 8);
      assert Pow2(8) == 256 by { Pow2Add(4, 4); }
    }
  }

  lemma {:induction false} Eight()
    ensures Pow2(8 * 8) == U64
  {
    Pow2Word();
    Pow2Add(32, 32);
  }

  /** dp_atomic_apply()'s new bytes. */
  function NewBytes(a: Atomic, was: seq<byte>): (b: seq<byte>)
    requires |was| == 8
    ensures |b| == 8
  {
    LeBound(was);
    Eight();
    ToLe(NewValue(a, Le(was)), 8)
  }

  // ---------------------------------------------------------------------
  // Requests
  // ---------------------------------------------------------------------

  /** The bytes a SEND brings. */
  function Brought(msg: Msg): (b: seq<byte>) {
    if msg.length > |msg.payload| then msg.payload else msg.payload[..msg.length]
  }

  /** The completion of the receive a request takes. */
  function TakenFor(msg: Msg, ring: RingName, src: nat, total: nat, d: Delivery): (e: Event) {
    Received(msg.dstQp, ring, ForPeer(src, msg.reqId), total, d.landed, d.status)
  }

  /** dp_wire_send(), when the message isn't put back; ring is missing if there is
      no such QP here. */
  function DoSend(h: Host, ring: Option<RingName>, src: nat, msg: Msg, f: Found): (o: Outcome) {
    if ring.None? then Fails(h)
    else
      var d := Deliver(h, ring.value, f.recv, FromHost(Brought(msg)), f.reach, f.fault);
      if !d.taken then Outcome(d.host, [], RnrRetryExceeded, [], false, 0)
      else Outcome(d.host, [TakenFor(msg, ring.value, src, |Brought(msg)|, d)], Ok, [], true, d.landed)
  }

  /** The memory a request names. */
  function NamedBy(h: Host, msg: Msg, n: nat): (s: Places)
    ensures |s| == n
  {
    Span(h.mrs, Va(msg.rkey, msg.va), n)
  }

  /** The host once a WRITE's payload has landed. */
  function Landing(h: Host, msg: Msg, f: Found): (h1: Host)
    ensures h1 == h.(mem := h1.mem)
  {
    var s := NamedBy(h, msg, msg.length);
    h.(mem := Put(h.mem, s, msg.payload, Went(h.mem, s, msg.length, f.reach)))
  }

  /** dp_wire_write() */
  function DoWrite(h: Host, ring: Option<RingName>, src: nat, msg: Msg, f: Found): (o: Outcome) {
    if msg.length != |msg.payload| || (msg.length != 0 && !Covers(h.mrs, msg.rkey, msg.va, msg.length)) then Fails(h)
    else
      var s, h1 := NamedBy(h, msg, msg.length), Landing(h, msg, f);
      if Counted(h.mem, s, msg.length, f.reach) != msg.length then Fails(h1)
      else if msg.op.WriteImm? && ring.Some? then DoImmediate(h1, ring.value, src, msg, f)
      else Outcome(h1, [], Ok, [], false, 0)
  }

  /** The receive a WRITE_IMM that has landed is to take. */
  function DoImmediate(h: Host, ring: RingName, src: nat, msg: Msg, f: Found): (o: Outcome) {
    var d := Deliver(h, ring, f.recv, Immediate(msg.length), f.reach, f.fault);
    Outcome(d.host, if d.taken then [TakenFor(msg, ring, src, msg.length, d)] else [], Ok, [], d.taken, d.landed)
  }

  /** dp_wire_read() */
  function DoRead(h: Host, msg: Msg, f: Found): (o: Outcome) {
    var s := NamedBy(h, msg, msg.length);
    if msg.length > MAX_PAYLOAD || (msg.length > 0 && !f.alloc) || Counted(h.mem, s, msg.length, f.reach) != msg.length
    then Fails(h)
    else Outcome(h, [], Ok, DataOf(h.mem, s), false, 0)
  }

  /** What an atomic on eight bytes leaves, whether it could read and write them,
      and what it found. */
  datatype Swapped = Swapped(host: Host, ok: bool, was: seq<byte>)

  /** dp_atomic_apply(), on the bytes of one run. */
  function SwapEight(h: Host, v: Va, a: Atomic, reach: Reach, again: Reach): (r: Swapped)
    ensures r.host == h.(mem := r.host.mem) && (r.ok ==> |r.was| == 8)
  {
    var s, run := Span(h.mrs, v, 8), SgeRun(h.mrs, v);
    if run.len < 8 || run.gpa + 8 >= U64 || Counted(h.mem, s, 8, reach) != 8 then Swapped(h, false, [])
    else
      var was := DataOf(h.mem, s);
      var h1 := h.(mem := Put(h.mem, s, NewBytes(a, was), Went(h.mem, s, 8, again)));
      if Counted(h.mem, s, 8, again) != 8 then Swapped(h1, false, []) else Swapped(h1, true, was)
  }

  /** dp_wire_atomic() */
  function DoAtomic(h: Host, msg: Msg, f: Found): (o: Outcome) {
    var a := SwapEight(h, Va(msg.rkey, msg.va), msg.atomic, f.reach, f.again);
    if a.ok then Outcome(a.host, [], Ok, a.was, false, 0) else Fails(a.host)
  }

  /** dp_handle_wire(), for a request that isn't put back. */
  function Execute(h: Host, ring: Option<RingName>, src: nat, msg: Msg, f: Found): (o: Outcome) {
    if IsSend(msg.op) then DoSend(h, ring, src, msg, f)
    else if msg.rkey == 0 && msg.length > 0 then Fails(h)
    else if IsWrite(msg.op) then DoWrite(h, ring, src, msg, f)
    else if msg.op.ReadReq? then DoRead(h, msg, f)
    else if msg.op.AtomicReq? then DoAtomic(h, msg, f)
    else Fails(h)
  }

  // ---------------------------------------------------------------------
  // What an outcome means
  // ---------------------------------------------------------------------

  /** A request carried out with success returns as many bytes as it asked for,
      another none. */
  lemma {:induction false} AnswerSized(h: Host, ring: Option<RingName>, src: nat, msg: Msg, f: Found)
    requires IsRequest(msg.op)
    ensures var o := Execute(h, ring, src, msg, f); |o.data| == if o.status == Ok then AnswerSize(msg) else 0
  {
  }

  /** A SEND succeeds if and only if its QP exists and has a receive it can take. What a
      request that fails is answered with: an exhausted wait if it is a SEND whose QP
      exists, and an access error otherwise. */
  lemma {:induction false} RefusalStatus(h: Host, ring: Option<RingName>, src: nat, msg: Msg, f: Found)
    ensures var o := Execute(h, ring, src, msg, f);
      && (IsSend(msg.op) ==> (o.status == Ok <==> ring.Some? && Takes(RingAt(h, ring.value), f.recv)))
      && (o.status != Ok ==> o.status == if IsSend(msg.op) && ring.Some? then RnrRetryExceeded else RemoteAccErr)
  {
  }

  /** Which requests take a receive, and what they leave of it. */
  predicate TookOk(o: Outcome, ring: Option<RingName>, src: nat, msg: Msg) {
    if o.took then
      && ring.Some? && o.status == Ok && (IsSend(msg.op) || msg.op.WriteImm?)
      && |o.events| == 1 && o.events[0].Received? && o.events[0].ring == ring.value
      && o.events[0].taker == ForPeer(src, msg.reqId) && o.events[0].landed == o.landed <= o.events[0].total
    else o.events == [] && o.landed == 0 && (IsSend(msg.op) ==> o.status != Ok)
  }

  lemma {:induction false} SendTakes(h: Host, ring: Option<RingName>, src: nat, msg: Msg, f: Found)
    requires IsSend(msg.op)
    ensures TookOk(DoSend(h, ring, src, msg, f), ring, src, msg)
  {
    if ring.Some? {
      DeliverKeeps(h, ring.value, f.recv, FromHost(Brought(msg)), f.reach, f.fault);
    }
  }

  lemma {:induction false} ImmediateTakes(h: Host, ring: RingName, src: nat, msg: Msg, f: Found)
    requires msg.op.WriteImm?
    ensures TookOk(DoImmediate(h, ring, src, msg, f), Some(ring), src, msg)
  {
  }

  lemma {:induction false} WriteTakes(h: Host, ring: Option<RingName>, src: nat, msg: Msg, f: Found)
    requires IsWrite(msg.op)
    ensures TookOk(DoWrite(h, ring, src, msg, f), ring, src, msg)
  {
    if msg.op.WriteImm? && ring.Some? {
      ImmediateTakes(Landing(h, msg, f), ring.value, src, msg, f);
    }
  }

  lemma {:induction false} TakesAsItSays(h: Host, ring: Option<RingName>, src: nat, msg: Msg, f: Found)
    ensures TookOk(Execute(h, ring, src, msg, f), ring, src, msg)
  {
    if IsSend(msg.op) {
      SendTakes(h, ring, src, msg, f);
    } else if IsWrite(msg.op) {
      WriteTakes(h, ring, src, msg, f);
    }
  }

  /** What a request leaves of the rings: a receive fewer in its own if it took
      one. */
  predicate RingsTaken(h: Host, ring: Option<RingName>, f: Found, o: Outcome) {
    if o.took then ring.Some? && Takes(RingAt(h, ring.value), f.recv) && RingsAfter(h, o.host, ring.value, f.recv)
    else o.host.rq == h.rq && o.host.srq == h.srq
  }

  lemma {:induction false} SendRings(h: Host, ring: Option<RingName>, src: nat, msg: Msg, f: Found)
    ensures RingsTaken(h, ring, f, DoSend(h, ring, src, msg, f))
  {
    if ring.Some? {
      OneTaken(h, ring.value, f.recv, FromHost(Brought(msg)), f.reach, f.fault);
      SetSame(h, ring.value);
    }
  }

  lemma {:induction false} ImmediateRings(h: Host, ring: RingName, src: nat, msg: Msg, f: Found)
    ensures RingsTaken(h, Some(ring), f, DoImmediate(h, ring, src, msg, f))
  {
    OneTaken(h, ring, f.recv, Immediate(msg.length), f.reach, f.fault);
    SetSame(h, ring);
  }

  /** Memory has no part in that. */
  lemma {:induction false} RingsOnly(h: Host, h1: Host, ring: Option<RingName>, f: Found, o: Outcome)
    requires RingsTaken(h1, ring, f, o) && h1 == h.(mem := h1.mem)
    ensures RingsTaken(h, ring, f, o)
  {
  }

  lemma {:induction false} WriteRings(h: Host, ring: Option<RingName>, src: nat, msg: Msg, f: Found)
    ensures RingsTaken(h, ring, f, DoWrite(h, ring, src, msg, f))
  {
    if ring.Some? {
      ImmediateRings(Landing(h, msg, f), ring.value, src, msg, f);
      RingsOnly(h, Landing(h, msg, f), ring, f, DoImmediate(Landing(h, msg, f), ring.value, src, msg, f));
    }
  }

  lemma {:induction false} ExecuteRings(h: Host, ring: Option<RingName>, src: nat, msg: Msg, f: Found)
    ensures RingsTaken(h, ring, f, Execute(h, ring, src, msg, f))
  {
    if IsSend(msg.op) {
      SendRings(h, ring, src, msg, f);
    } else if IsWrite(msg.op) {
      WriteRings(h, ring, src, msg, f);
    }
  }

  /** Whether a WRITE is refused before any of it is moved. */
  predicate Stopped(h: Host, msg: Msg) {
    || msg.length != |msg.payload|
    || (msg.length > 0 && (msg.rkey == 0 || !Covers(h.mrs, msg.rkey, msg.va, msg.length)))
  }

  /** A WRITE is carried out with success if and only if it isn't stopped, each
      byte of its range can be reached and the mapping layer lets it. It has then
      put its payload, and nothing else, where it said. */
  lemma {:induction false} WriteMeans(h: Host, ring: Option<RingName>, src: nat, msg: Msg, f: Found)
    requires IsWrite(msg.op)
    ensures var o, s := Execute(h, ring, src, msg, f), NamedBy(h, msg, msg.length);
      && (o.status == Ok <==> !Stopped(h, msg) && Reachable(h.mem, s) && Lets(f.reach, msg.length))
      && (o.status == Ok ==>
            && o.host.mem == Put(h.mem, s, msg.payload, msg.length)
            && SameBut(h.mem, o.host.mem, s) && o.host.mrs == h.mrs)
      && (Stopped(h, msg) ==> o.host == h)
  {
    var s := NamedBy(h, msg, msg.length);
    AllCounted(h.mem, s, msg.length, f.reach);
    assert s[..msg.length] == s;
    PutElsewhere(h.mem, s, msg.payload, msg.length);
  }

  /** What a WRITE that is refused leaves: all as it was if it was stopped, and
      otherwise what went before its transfer failed. */
  lemma {:induction false} RefusedWriteLeaves(h: Host, ring: Option<RingName>, src: nat, msg: Msg, f: Found)
    requires IsWrite(msg.op) && Execute(h, ring, src, msg, f).status != Ok
    ensures var o, s := Execute(h, ring, src, msg, f), NamedBy(h, msg, msg.length);
      var n := Went(h.mem, s, msg.length, f.reach);
      if Stopped(h, msg) then o.host == h
      else o.host == h.(mem := Put(h.mem, s, msg.payload, n)) && SameBut(h.mem, o.host.mem, s[..n])
  {
    var s := NamedBy(h, msg, msg.length);
    PutWithin(h.mem, s, msg.payload, Went(h.mem, s, msg.length, f.reach));
  }

  function Bearing(msg: Msg, payload: seq<byte>): (m: Msg) { msg.(payload := payload) }

  /** Whether a WRITE changes nothing, whatever its payload, of that length, is. */
  ghost predicate Spares(h: Host, ring: Option<RingName>, src: nat, msg: Msg, f: Found) {
    forall d :: |d| == |msg.payload| ==> Execute(h, ring, src, Bearing(msg, d), f).host == h
  }

  lemma {:induction false} PayloadRefused(h: Host, ring: Option<RingName>, src: nat, msg: Msg, f: Found, d: seq<byte>)
    requires IsWrite(msg.op) && |d| == |msg.payload| && Execute(h, ring, src, msg, f).status != Ok
    ensures Execute(h, ring, src, Bearing(msg, d), f).status != Ok && (Stopped(h, Bearing(msg, d)) <==> Stopped(h, msg))
    ensures NamedBy(h, Bearing(msg, d), msg.length) == NamedBy(h, msg, msg.length)
  {
    WriteMeans(h, ring, src, msg, f);
    WriteMeans(h, ring, src, Bearing(msg, d), f);
  }

  /** A WRITE that is refused changes nothing, whatever it brings, if and only if
      it was stopped before any of it was moved, or none of it could be. */
  lemma {:induction false} RefusedWriteSpares(h: Host, ring: Option<RingName>, src: nat, msg: Msg, f: Found)
    requires IsWrite(msg.op) && Execute(h, ring, src, msg, f).status != Ok
    ensures Spares(h, ring, src, msg, f) <==>
              Stopped(h, msg) || Went(h.mem, NamedBy(h, msg, msg.length), msg.length, f.reach) == 0
  {
    var s := NamedBy(h, msg, msg.length);
    var n := Went(h.mem, s, msg.length, f.reach);
    if Stopped(h, msg) || n == 0 {
      forall d | |d| == |msg.payload| ensures Execute(h, ring, src, Bearing(msg, d), f).host == h {
        PayloadRefused(h, ring, src, msg, f, d);
        RefusedWriteLeaves(h, ring, src, Bearing(msg, d), f);
      }
    } else {
      var d := PutChanges(h.mem, s, n, msg.length);
      PayloadRefused(h, ring, src, msg, f, d);
      RefusedWriteLeaves(h, ring, src, Bearing(msg, d), f);
    }
  }

  /** A READ changes nothing, and is carried out with success if and only if it is
      no longer than a message, there is memory for it, each byte it names can be
      reached and the mapping layer lets it. It then returns what they hold. */
  lemma {:induction false} ReadMeans(h: Host, ring: Option<RingName>, src: nat, msg: Msg, f: Found)
    requires msg.op.ReadReq?
    ensures var o, s := Execute(h, ring, src, msg, f), NamedBy(h, msg, msg.length);
      && o.host == h
      && (o.status == Ok <==>
            && msg.length <= MAX_PAYLOAD && Reachable(h.mem, s) && Lets(f.reach, msg.length)
            && (msg.length > 0 ==> msg.rkey != 0 && f.alloc))
      && (o.status == Ok ==> o.data == DataOf(h.mem, s))
  {
    var s := NamedBy(h, msg, msg.length);
    AllCounted(h.mem, s, msg.length, f.reach);
    assert s[..msg.length] == s;
  }

  /** The new bytes are what the operation makes of the old. */
  lemma {:induction false} NewBytesAre(a: Atomic, was: seq<byte>)
    requires |was| == 8
    ensures Le(was) < U64 && Performed(a, was, NewBytes(a, was))
  {
    LeBound(was);
    Eight();
    LeRoundTrip(NewValue(a, Le(was)), 8);
    BytesRoundTrip(was);
  }

  /** Eight bytes of one run that can be reached hold what is put there. */
  lemma {:induction false} RunHolds(h: Host, v: Va, s: Places, b: seq<byte>, n: nat)
    requires RegionsOk(h.mrs) && v.va < U64 && s == Span(h.mrs, v, 8) && |b| == 8 && Reachable(h.mem, s) && n <= 8
    requires SgeRun(h.mrs, v).len >= 8 && SgeRun(h.mrs, v).gpa + 8 <= U64
    ensures DataOf(Put(h.mem, s, b, n), s[..n]) == b[..n]
    ensures n == 8 ==> DataOf(Put(h.mem, s, b, n), s) == b
  {
    AheadNone(v);
    RunStraight(h.mrs, v, 8, 0, SgeRun(h.mrs, v), 8);
    assert forall i :: 0 <= i < n ==> s[..n][i] == s[i];
    PutHolds(h.mem, s, b, n);
    assert n == 8 ==> s[..n] == s && b[..n] == b;
  }

  /** Whether an atomic finds its eight bytes in one run, and can read them. */
  ghost predicate AtomicReads(h: Host, msg: Msg, f: Found) {
    var run := SgeRun(h.mrs, Va(msg.rkey, msg.va));
    && (msg.length > 0 ==> msg.rkey != 0)
    && run.len >= 8 && run.gpa + 8 < U64 && Reachable(h.mem, NamedBy(h, msg, 8)) && Lets(f.reach, 8)
  }

  /** The memory an atomic that can read leaves: its new bytes, as far as they get. */
  function AtomicLeaves(h: Host, msg: Msg, f: Found): (mem: Memory) {
    var s := NamedBy(h, msg, 8);
    Put(h.mem, s, NewBytes(msg.atomic, DataOf(h.mem, s)), Went(h.mem, s, 8, f.again))
  }

  lemma {:induction false} AtomicIs(h: Host, ring: Option<RingName>, src: nat, msg: Msg, f: Found)
    requires msg.op.AtomicReq?
    ensures var o, s := Execute(h, ring, src, msg, f), NamedBy(h, msg, 8);
      && (o.status == Ok <==> AtomicReads(h, msg, f) && Lets(f.again, 8))
      && (o.status == Ok ==> o.data == DataOf(h.mem, s) && Went(h.mem, s, 8, f.again) == 8)
      && o.host == if AtomicReads(h, msg, f) then h.(mem := AtomicLeaves(h, msg, f)) else h
  {
    var s := NamedBy(h, msg, 8);
    AllCounted(h.mem, s, 8, f.reach);
    AllCounted(h.mem, s, 8, f.again);
    assert s[..8] == s;
  }

  /** An atomic is carried out with success if and only if it can read and the
      mapping layer lets it write. It then returns the eight bytes it found, leaves
      in their place what its operation makes of them, and changes no other. */
  lemma {:induction false} AtomicMeans(h: Host, ring: Option<RingName>, src: nat, msg: Msg, f: Found)
    requires msg.op.AtomicReq? && RegionsOk(h.mrs) && msg.va < U64
    ensures var o, s := Execute(h, ring, src, msg, f), NamedBy(h, msg, 8);
      && (o.status == Ok <==> AtomicReads(h, msg, f) && Lets(f.again, 8))
      && (o.status == Ok ==>
            && o.data == DataOf(h.mem, s) && |o.data| == 8 && Le(o.data) < U64
            && Performed(msg.atomic, o.data, DataOf(o.host.mem, s))
            && SameBut(h.mem, o.host.mem, s) && o.host == h.(mem := o.host.mem))
  {
    AtomicIs(h, ring, src, msg, f);
    if AtomicReads(h, msg, f) && Lets(f.again, 8) {
      var s := NamedBy(h, msg, 8);
      var was := DataOf(h.mem, s);
      NewBytesAre(msg.atomic, was);
      RunHolds(h, Va(msg.rkey, msg.va), s, NewBytes(msg.atomic, was), 8);
      PutElsewhere(h.mem, s, NewBytes(msg.atomic, was), 8);
    }
  }

  /** The same of eight bytes wherever they are. */
  lemma {:induction false} SwapMeans(h: Host, v: Va, a: Atomic, reach: Reach, again: Reach)
    requires RegionsOk(h.mrs) && v.va < U64 && SwapEight(h, v, a, reach, again).ok
    ensures var r, s := SwapEight(h, v, a, reach, again), Span(h.mrs, v, 8);
      && r.was == DataOf(h.mem, s) && Le(r.was) < U64
      && Performed(a, r.was, DataOf(r.host.mem, s)) && SameBut(h.mem, r.host.mem, s)
  {
    var msg := Msg(AtomicReq, 0, 0, 0, v.lkey, v.va, 0, a, Ok, []);
    AtomicMeans(h, None, 0, msg, Found(None, true, reach, again, Ok));
  }

  function Doing(msg: Msg, a: Atomic): (m: Msg) { msg.(atomic := a) }

  /** Whether an atomic changes nothing, whatever its operation is. */
  ghost predicate AtomicSpares(h: Host, ring: Option<RingName>, src: nat, msg: Msg, f: Found) {
    forall a :: Execute(h, ring, src, Doing(msg, a), f).host == h
  }

  /** Adding one changes the first byte of a number. */
  lemma {:induction false} AddsOne(was: seq<byte>)
    requires |was| == 8
    ensures NewBytes(FetchAdd(1), was)[0] != was[0]
  {
    LeBound(was);
    Eight();
  }

  lemma {:induction false} AddChanges(h: Host, msg: Msg, f: Found)
    requires RegionsOk(h.mrs) && msg.va < U64 && AtomicReads(h, msg, f) && msg.atomic == FetchAdd(1)
    requires Went(h.mem, NamedBy(h, msg, 8), 8, f.again) > 0
    ensures AtomicLeaves(h, msg, f) != h.mem
  {
    var s := NamedBy(h, msg, 8);
    var was, n := DataOf(h.mem, s), Went(h.mem, s, 8, f.again);
    var b := NewBytes(FetchAdd(1), was);
    AddsOne(was);
    RunHolds(h, Va(msg.rkey, msg.va), s, b, n);
    assert DataOf(Put(h.mem, s, b, n), s[..n])[0] == b[0];
    assert s[..n][0] == s[0];
  }

  /** An atomic that fails changes nothing, whatever its operation, if and only if
      it couldn't read or none of its new bytes could be written; otherwise the
      first of them have been, as many as went. */
  lemma {:induction false} FailedAtomicSpares(h: Host, ring: Option<RingName>, src: nat, msg: Msg, f: Found)
    requires msg.op.AtomicReq? && RegionsOk(h.mrs) && msg.va < U64 && Execute(h, ring, src, msg, f).status != Ok
    ensures var o, s := Execute(h, ring, src, msg, f), NamedBy(h, msg, 8);
      var n := Went(h.mem, s, 8, f.again);
      && (AtomicSpares(h, ring, src, msg, f) <==> !AtomicReads(h, msg, f) || n == 0)
      && (AtomicReads(h, msg, f) ==> o.host == h.(mem := AtomicLeaves(h, msg, f)) && SameBut(h.mem, o.host.mem, s[..n]))
  {
    var s := NamedBy(h, msg, 8);
    AtomicIs(h, ring, src, msg, f);
    PutWithin(h.mem, s, NewBytes(msg.atomic, DataOf(h.mem, s)), Went(h.mem, s, 8, f.again));
    if !AtomicReads(h, msg, f) || Went(h.mem, s, 8, f.again) == 0 {
      forall a ensures Execute(h, ring, src, Doing(msg, a), f).host == h {
        AtomicIs(h, ring, src, Doing(msg, a), f);
      }
    } else {
      AtomicIs(h, ring, src, Doing(msg, FetchAdd(1)), f);
      AddChanges(h, Doing(msg, FetchAdd(1)), f);
    }
  }

  /** A SEND carried out with success lands whole if and only if the receive's
      list holds it, each byte of that can be reached and the mapping layer lets
      it. */
  lemma {:induction false} SendLandsWhole(h: Host, ring: RingName, src: nat, msg: Msg, f: Found)
    requires IsSend(msg.op) && Execute(h, Some(ring), src, msg, f).status == Ok
    ensures f.recv.Some?
    ensures var o, n, s := Execute(h, Some(ring), src, msg, f), |Brought(msg)|, Flat(h.mrs, f.recv.value);
      && (o.landed == n <==> n <= |s| && Reachable(h.mem, s[..n]) && Lets(f.reach, n))
      && (o.landed == n <==> o.events == [Received(msg.dstQp, ring, ForPeer(src, msg.reqId), n, n, Ok)])
      && (o.landed == n ==> o.host.mem == Put(h.mem, s, Brought(msg), n))
  {
    LandsWhole(h, ring, f.recv.value, Brought(msg), f.reach, f.fault);
  }

  /** A WRITE_IMM carried out with success delivers its immediate if and only if
      its QP exists and a receive can be taken there. */
  lemma {:induction false} ImmediateDelivered(h: Host, ring: Option<RingName>, src: nat, msg: Msg, f: Found)
    requires msg.op.WriteImm? && Execute(h, ring, src, msg, f).status == Ok
    ensures Execute(h, ring, src, msg, f).took <==> ring.Some? && Takes(RingAt(h, ring.value), f.recv)
  {
  }

  // ---------------------------------------------------------------------
  // Where success doesn't mean delivery
  // ---------------------------------------------------------------------

  function Request(op: WireOp, payload: seq<byte>): (m: Msg) {
    Msg(op, 0, 0, 1, 0, 0, |payload|, FetchAdd(0), Ok, payload)
  }

  /** A QP's ring, of one receive, with n posted and no memory behind it. */
  function OneRing(n: nat): (h: Host) { Host([RecvRing(true, 1, 0, n)], [], map[], map[]) }

  /** A WRITE_IMM that finds its QP with no receive posted is acknowledged with
      success, and its immediate lost. */
  lemma {:induction false} ImmediateLost()
    ensures var f := Found(None, true, Reach(0, 0), Reach(0, 0), Ok);
      var o := Execute(OneRing(0), Some(Own(0)), 1, Request(WriteImm, []), f);
      o.status == Ok && !o.took && o.events == []
  {
  }

  /** Two bytes, of which only the first is mapped. */
  function HalfMapped(): (h: Host) { Host([], [], map[0 := 1], map[0 := Region(256, 0, 2, Translate.Direct(0))]) }

  function TwoBytes(): (m: Msg) { Request(Write, [7, 7]).(rkey := 256) }

  lemma {:induction false} HalfMappedPlaces()
    ensures !Stopped(HalfMapped(), TwoBytes()) && NamedBy(HalfMapped(), TwoBytes(), 2) == [Some(0), Some(1)]
  {
    var m := HalfMapped().mrs;
    assert Lookup(m, 256) == Some(Region(256, 0, 2, Translate.Direct(0)));
    assert ByteOf(m, Ahead(Va(256, 0), 0)) == Some(0) && ByteOf(m, Ahead(Va(256, 0), 1)) == Some(1);
    assert Span(m, Va(256, 0), 1) == [] + [Some(0)];
  }

  lemma {:induction false} HalfMappedPut(s: Places)
    requires s == [Some(0), Some(1)]
    ensures Within(map[0 := 1], s) == 1 && Put(map[0 := 1], s, [7, 7], 1) == map[0 := 7]
  {
    assert s[..1] == [Some(0)] && [Some(0)][..0] == [];
  }

  lemma {:induction false} HalfWritten(h: Host, msg: Msg, f: Found)
    requires IsWrite(msg.op) && msg.length == 2 && msg.payload == [7, 7] && !Stopped(h, msg) && f.reach == Reach(2, 2)
    requires h.mem == map[0 := 1] && NamedBy(h, msg, 2) == [Some(0), Some(1)]
    ensures var o := Execute(h, None, 1, msg, f); o.status != Ok && o.host.mem == map[0 := 7]
  {
    var s := NamedBy(h, msg, 2);
    assert s[1] == Some(1) && 1 !in h.mem;
    WriteMeans(h, None, 1, msg, f);
    RefusedWriteLeaves(h, None, 1, msg, f);
    HalfMappedPut(s);
  }

  /** A WRITE whose transfer fails part of the way is refused, and has changed
      memory. */
  lemma {:induction false} RefusedWriteLands()
    ensures HalfMapped().mem == map[0 := 1]
    ensures var o := Execute(HalfMapped(), None, 1, TwoBytes(), Found(None, true, Reach(2, 2), Reach(0, 0), Ok));
      o.status != Ok && o.host.mem == map[0 := 7]
  {
    HalfMappedPlaces();
    HalfWritten(HalfMapped(), TwoBytes(), Found(None, true, Reach(2, 2), Reach(0, 0), Ok));
  }

  /** A SEND its receive has no room for is acknowledged with success, and lost. */
  lemma {:induction false} SendTruncated()
    ensures var f := Found(Some([]), true, Reach(1, 1), Reach(0, 0), Ok);
      var o := Execute(OneRing(1), Some(Own(0)), 1, Request(Send, [7]), f);
      o.status == Ok && o.took && o.landed == 0 < |Brought(Request(Send, [7]))| && o.events[0].status == LocalLenErr
  {
    assert Flat(map[], []) == [];
  }
}
