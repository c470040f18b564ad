/** What a send queue's WQE holds and finds, and what it does to guest memory when
    both of its ends are this device's. */
module WorkRequests {
  import opened Arith
  import opened Wire
  import opened Dma
  import opened Regions
  import opened Copying
  import opened Bouncing
  import opened CopyLoops
  import opened Host
  import opened Responder

  datatype WqeOp =
    | OpSend | OpSendInv | OpSendImm
    | OpRead | OpWrite | OpWriteImm
    | OpAtomicCs | OpAtomicFa
    | OpRegMr | OpLocalInv
    | OpOther

  predicate IsSendOp(op: WqeOp) { op.OpSend? || op.OpSendInv? || op.OpSendImm? }

  predicate IsRdmaOp(op: WqeOp) { op.OpRead? || op.OpWrite? || op.OpWriteImm? }

  function WireOf(op: WqeOp): (r: Option<WireOp>) {
    match op
    case OpSend => Some(Send)
    case OpSendInv => Some(SendInv)
    case OpSendImm => Some(SendImm)
    case OpWrite => Some(Write)
    case OpWriteImm => Some(WriteImm)
    case OpRead => Some(ReadReq)
    case OpAtomicCs => Some(AtomicReq)
    case OpAtomicFa => Some(AtomicReq)
    case _ => None
  }

  /** Where a SEND goes: to nothing, or a target in this process, that takes it
      without a receive; to a QP of this device, a datagram's own choice being
      dst; or, a datagram, to another node. keyOk is whether a datagram's Q_Key is
      the destination's, and grh the header put in front of one. */
  datatype SendEnv =
    | Absorbed
    | ToQp(dst: nat, keyOk: bool, grh: seq<byte>)
    | ToNode(node: nat, dstQp: nat, grh: seq<byte>)

  datatype TxResult = TxQueued | TxAgain | TxFailed

  /** What remote_post() finds outside the device's own state: whether the mesh
      has room, whether there is memory for the payload, and what the mesh says
      when handed the message. */
  datatype MeshEnv = MeshEnv(hasRoom: bool, alloc: bool, tx: TxResult)

  /** How far a WQE's movements of bytes get: a gather, a copy or an atomic's read,
      its write, and the write of its result. */
  datatype Reaches = Reaches(gather: Reach, move: Reach, again: Reach, back: Reach)

  const NOWHERE := Reaches(Reach(0, 0), Reach(0, 0), Reach(0, 0), Reach(0, 0))

  /** What can be wrong with a WQE's own fields. */
  datatype Malformed = Truncated | InlineTooLong | BadList | ListTooLong

  function MalformedStatus(m: Malformed): (s: Status) {
    match m
    case Truncated => LocalQpOperErr
    case InlineTooLong => LocalLenErr
    case BadList => LocalQpOperErr
    case ListTooLong => LocalLenErr
  }

  /** What a REG_MR binds its key to, if the WQE isn't too short to say. */
  datatype RegWqe = TooShort | Binds(va: nat, length: nat, desc: BufDesc, table: TableRead)

  /** What the WQE at the front of a send queue holds and finds. early is what is
      wrong with its fields, if anything; key is what a REG_MR or LOCAL_INV
      names; local is its list, of which an atomic's one entry is for its result;
      recv is the list in the next receive's slot, if that can be read; and fault
      is what a movement of bytes notes. */
  datatype Wqe =
    | Unreadable
    | Wqe(op: WqeOp, id: nat, signalled: bool, early: Option<Malformed>, key: nat, reg: RegWqe,
          length: nat, rkey: nat, va: nat, swapAdd: nat, compare: nat, local: seq<Sge>,
          mesh: MeshEnv, send: SendEnv, recv: Option<seq<Sge>>, fault: Status, got: Reaches)

  function AtomicOf(w: Wqe): (a: Atomic)
    requires w.Wqe?
  {
    if w.op.OpAtomicCs? then CompareSwap(w.swapAdd, w.compare) else FetchAdd(w.swapAdd)
  }

  /** What a REG_MR or LOCAL_INV does to the regions. */
  function RegOpOf(w: Wqe): (op: MrOp)
    requires w.Wqe?
  {
    if w.op.OpLocalInv? then LocalInv(w.key)
    else match w.reg
      case TooShort => Unregister(w.key)
      case Binds(va, length, desc, table) => Register(w.key, va, length, desc, table)
  }

  function RegStatus(w: Wqe): (s: Status)
    requires w.Wqe?
  {
    if w.op.OpLocalInv? then Ok
    else if w.reg.Binds? && Slot(w.key).Some? && Succeeds(RegOpOf(w)) then Ok
    else MemMgmtOperErr
  }

  /** A REG_MR is completed with success if and only if the registration it makes is
      accepted, and its key then reaches the region it names; after one that isn't,
      and after a LOCAL_INV, it reaches none. */
  lemma {:induction false} RegMeans(m: Bindings, w: Wqe)
    requires w.Wqe? && (w.op.OpRegMr? || w.op.OpLocalInv?)
    ensures var r := Lookup(Apply(m, RegOpOf(w)), w.key);
      && (w.op.OpLocalInv? ==> r.None? && RegStatus(w) == Ok)
      && (w.op.OpRegMr? ==>
            && (RegStatus(w) == Ok <==> r.Some?)
            && (RegStatus(w) == Ok <==> w.reg.Binds? && Accepts(RegOpOf(w)))
            && (r.Some? ==> w.reg.Binds? && r.value.va == w.reg.va && r.value.length == w.reg.length)
            && (r.None? ==> RegStatus(w) == MemMgmtOperErr))
  {
    if w.op.OpRegMr? && w.reg.Binds? {
      AcceptsExactly(RegOpOf(w));
    }
  }

  /** A WQE that has been run, with how far it got. */
  function Got(w: Wqe, got: Reaches): (r: Wqe) { if w.Wqe? then w.(got := got) else w }

  /** A guest's numbers are of the width the device reads them at, and a list that
      adds up to more has been refused. */
  predicate SgesFit(list: seq<Sge>) { forall i :: 0 <= i < |list| ==> list[i].va < U64 && list[i].len < U32 }

  predicate ListFits(list: seq<Sge>) { SgesFit(list) && ListLen(list) < U32 }

  predicate WqeFits(w: Wqe) {
    w.Wqe? ==>
      && ListFits(w.local) && w.va < U64 && w.length < U32
      && (w.recv.Some? ==> SgesFit(w.recv.value))
      && OpOk(RegOpOf(w))
      && (!w.send.Absorbed? ==> |w.send.grh| + UD_MAX < U32)
  }

  /** dp_local_sges_ok() */
  predicate SgesOk(m: Bindings, list: seq<Sge>) {
    forall i :: 0 <= i < |list| ==> list[i].len == 0 || Covers(m, list[i].lkey, list[i].va, list[i].len)
  }

  // ---------------------------------------------------------------------
  // What a message is made of
  // ---------------------------------------------------------------------

  /** The bytes a message takes with it: those of a list, or ones at hand. */
  datatype Source = FromList(list: seq<Sge>, reach: Reach) | FromBytes(data: seq<byte>)

  function SourceLen(src: Source): (n: nat) {
    match src
    case FromList(list, _) => ListLen(list)
    case FromBytes(data) => |data|
  }

  /** ionic_dp_gather(): whether n bytes of a list can be gathered. */
  predicate CanGather(h: Host, list: seq<Sge>, n: nat, reach: Reach) {
    Counted(h.mem, Flat(h.mrs, list), n, reach) == n
  }

  /** What they are. */
  function Gathered(h: Host, list: seq<Sge>, n: nat): (b: seq<byte>) {
    var s := Flat(h.mrs, list);
    if n <= |s| then DataOf(h.mem, s[..n]) else []
  }

  predicate CanFetch(h: Host, src: Source, n: nat) { src.FromList? ==> CanGather(h, src.list, n, src.reach) }

  function Fetched(h: Host, src: Source, n: nat): (b: seq<byte>) {
    match src
    case FromList(list, _) => Gathered(h, list, n)
    case FromBytes(data) => if n <= |data| then data[..n] else data
  }

  const UD_MAX := 8192

  /** How much of its list a datagram takes with it. */
  function DatagramLen(list: seq<Sge>): (n: nat) { Min(ListLen(list), UD_MAX) }

  // ---------------------------------------------------------------------
  // RDMA within the device
  // ---------------------------------------------------------------------

  /** The far end of an RDMA, as a list of its own. */
  function FarEnd(w: Wqe): (l: seq<Sge>)
    requires w.Wqe?
  {
    [Sge(w.va, w.length, w.rkey)]
  }

  function SourceList(w: Wqe): (l: seq<Sge>)
    requires w.Wqe?
  {
    if w.op.OpRead? then FarEnd(w) else w.local
  }

  function DestList(w: Wqe): (l: seq<Sge>)
    requires w.Wqe?
  {
    if w.op.OpRead? then w.local else FarEnd(w)
  }

  /** What a WQE leaves of the host, and its completion's status. */
  datatype Effect = Effect(host: Host, status: Status)

  /** The status of an RDMA whose bytes didn't all get there. */
  function RdmaFault(h: Host, w: Wqe): (s: Status)
    requires w.Wqe?
    ensures s != Ok
  {
    if Covers(h.mrs, w.rkey, w.va, w.length) then FaultStatus(w.fault, LocalProtErr) else RemoteAccErr
  }

  /** sq_rdma(), but for the receive a WRITE_IMM takes. */
  function LocalRdma(h: Host, w: Wqe): (r: Effect)
    requires w.Wqe?
  {
    if w.length != 0 && !Covers(h.mrs, w.rkey, w.va, w.length) then Effect(h, RemoteAccErr)
    else
      var n := WentAlong(h, SourceList(w), DestList(w), w.got.move);
      var h1 := h.(mem := Walked(h.mem, h.mrs, SourceList(w), DestList(w), n));
      if Min(w.got.move.done, n) == w.length then Effect(h1, Ok)
      else Effect(h1, RdmaFault(h, w))
  }

  /** All that was wanted went along, and was counted, if and only if all the places
      at both ends are there and the mapping layer lets it. */
  lemma {:induction false} AllAlong(h: Host, sl: seq<Sge>, dl: seq<Sge>, len: nat, reach: Reach)
    requires |Flat(h.mrs, sl)| == len || |Flat(h.mrs, dl)| == len
    ensures var s, d, n := Flat(h.mrs, sl), Flat(h.mrs, dl), WentAlong(h, sl, dl, reach);
      && (Min(reach.done, n) == len <==> Lets(reach, len) && Both(h.mem, s, d, len))
      && (Min(reach.done, n) == len ==> n == len)
  {
    var s, d := Flat(h.mrs, sl), Flat(h.mrs, dl);
    if Both(h.mem, s, d, len) {
      WithinAtLeast(h.mem, s, len);
      WithinAtLeast(h.mem, d, len);
    } else if len <= ReachBoth(h.mem, s, d) {
      WithinPrefix(h.mem, s, len);
      WithinPrefix(h.mem, d, len);
    }
  }

  /** Whether an RDMA within the device can be done: its key covers its range, its
      list has as many bytes, each of them at both ends can be reached and the
      mapping layer lets it. */
  predicate RdmaCan(h: Host, w: Wqe)
    requires w.Wqe?
  {
    var s, d := Flat(h.mrs, SourceList(w)), Flat(h.mrs, DestList(w));
    && (w.length > 0 ==> Covers(h.mrs, w.rkey, w.va, w.length))
    && Both(h.mem, s, d, w.length) && Lets(w.got.move, w.length)
  }

  /** An RDMA within the device succeeds if and only if it can be done. If its ends
      don't overlap, the one then holds what the other did, and nothing else has
      changed. One whose range isn't covered has moved nothing, and one that fails
      says at which end. */
  lemma {:induction false} RdmaMeans(h: Host, w: Wqe)
    requires w.Wqe? && IsRdmaOp(w.op)
    ensures var r, s, d := LocalRdma(h, w), Flat(h.mrs, SourceList(w)), Flat(h.mrs, DestList(w));
      && (r.status == Ok <==> RdmaCan(h, w))
      && (r.status != Ok ==> w.length > 0)
      && (r.status != Ok && !Covers(h.mrs, w.rkey, w.va, w.length) ==> r.status == RemoteAccErr)
      && (r.status != Ok && Covers(h.mrs, w.rkey, w.va, w.length) ==>
            r.status == if w.fault != Ok then w.fault else LocalProtErr)
      && (r.status == Ok && Apart(s, d) ==> r.host.mem == Linear(h.mem, s[..w.length], d[..w.length]))
      && (w.length > 0 && !Covers(h.mrs, w.rkey, w.va, w.length) ==> r.host == h)
  {
    var sl, dl := SourceList(w), DestList(w);
    FarFlat(h.mrs, FarEnd(w));
    AllAlong(h, sl, dl, w.length, w.got.move);
    if LocalRdma(h, w).status == Ok && Apart(Flat(h.mrs, sl), Flat(h.mrs, dl)) {
      WalkedApart(h.mrs, sl, dl, h.mem, w.length);
    }
  }

  // ---------------------------------------------------------------------
  // Atomics within the device
  // ---------------------------------------------------------------------

  /** Where an atomic's result goes. */
  function ResultAt(w: Wqe): (v: Va)
    requires w.Wqe?
  {
    if w.local == [] then Va(0, 0) else Va(w.local[0].lkey, w.local[0].va)
  }

  /** The result's eight bytes, written where it goes. */
  function Returned(h: Host, w: Wqe, was: seq<byte>): (r: Effect)
    requires w.Wqe?
  {
    var v := ResultAt(w);
    var s := Span(h.mrs, v, 8);
    if SgeRun(h.mrs, v).gpa + 8 >= U64 then Effect(h, FaultStatus(w.fault, LocalAccErr))
    else
      Effect(h.(mem := Put(h.mem, s, was, Went(h.mem, s, 8, w.got.back))),
            if Counted(h.mem, s, 8, w.got.back) == 8 then Ok else FaultStatus(w.fault, LocalAccErr))
  }

  /** do_atomic() */
  function LocalAtomic(h: Host, w: Wqe): (r: Effect)
    requires w.Wqe?
  {
    var v := Va(w.rkey, w.va);
    if !Covers(h.mrs, w.rkey, w.va, 8) || SgeRun(h.mrs, v).len < 8 then Effect(h, FaultStatus(w.fault, RemoteAccErr))
    else if SgeRun(h.mrs, ResultAt(w)).len < 8 then Effect(h, FaultStatus(w.fault, LocalProtErr))
    else
      var a := SwapEight(h, v, AtomicOf(w), w.got.move, w.got.again);
      if a.ok then Returned(a.host, w, a.was) else Effect(a.host, FaultStatus(w.fault, RemoteAccErr))
  }

  /** Bytes hold what they did where nothing was put. */
  lemma {:induction false} DataStays(a: Memory, b: Memory, s: Places, r: Places)
    requires SameBut(a, b, r) && Apart(s, r)
    ensures DataOf(a, s) == DataOf(b, s)
  {
    forall i | 0 <= i < |s| ensures ByteAt(a, s[i]) == ByteAt(b, s[i]) {
      if s[i].Some? {
        assert SameAt(a, b, s[i].value);
      }
    }
  }

  /** What a result that is returned leaves. */
  lemma {:induction false} ReturnedMeans(h: Host, w: Wqe, was: seq<byte>)
    requires w.Wqe? && RegionsOk(h.mrs) && ResultAt(w).va < U64 && SgeRun(h.mrs, ResultAt(w)).len >= 8 && |was| == 8
    ensures var m, r := Returned(h, w, was), Span(h.mrs, ResultAt(w), 8);
      && (m.status == Ok <==> SgeRun(h.mrs, ResultAt(w)).gpa + 8 < U64 && Reachable(h.mem, r) && Lets(w.got.back, 8))
      && (m.status == Ok ==> DataOf(m.host.mem, r) == was && SameBut(h.mem, m.host.mem, r))
  {
    var r := Span(h.mrs, ResultAt(w), 8);
    AllCounted(h.mem, r, 8, w.got.back);
    assert r[..8] == r;
    if Returned(h, w, was).status == Ok {
      RunHolds(h, ResultAt(w), r, was, 8);
      PutElsewhere(h.mem, r, was, 8);
    }
  }

  /** An atomic within the device that succeeds, and whose result goes elsewhere than
      it works on, leaves there the eight bytes it found, and in their place what
      its operation makes of them. */
  lemma {:induction false} LocalAtomicMeans(h: Host, w: Wqe)
    requires w.Wqe? && RegionsOk(h.mrs) && w.va < U64 && ResultAt(w).va < U64
    requires var s, r := Span(h.mrs, Va(w.rkey, w.va), 8), Span(h.mrs, ResultAt(w), 8);
      LocalAtomic(h, w).status == Ok && Apart(s, r)
    ensures var s, r, m := Span(h.mrs, Va(w.rkey, w.va), 8), Span(h.mrs, ResultAt(w), 8), LocalAtomic(h, w).host.mem;
      && DataOf(m, r) == DataOf(h.mem, s) && Le(DataOf(h.mem, s)) < U64
      && (if w.op.OpAtomicCs? then Performed(CompareSwap(w.swapAdd, w.compare), DataOf(h.mem, s), DataOf(m, s))
          else Performed(FetchAdd(w.swapAdd), DataOf(h.mem, s), DataOf(m, s)))
  {
    var v := Va(w.rkey, w.va);
    var s, r := Span(h.mrs, v, 8), Span(h.mrs, ResultAt(w), 8);
    var a := SwapEight(h, v, AtomicOf(w), w.got.move, w.got.again);
    SwapMeans(h, v, AtomicOf(w), w.got.move, w.got.again);
    ReturnedMeans(a.host, w, a.was);
    DataStays(a.host.mem, LocalAtomic(h, w).host.mem, s, r);
  }

  /** Whether eight bytes are there, in one run. */
  predicate EightAt(h: Host, v: Va) {
    var run := SgeRun(h.mrs, v);
    run.len >= 8 && run.gpa + 8 < U64 && Reachable(h.mem, Span(h.mrs, v, 8))
  }

  /** Whether an atomic within the device can be done: its key covers its eight
      bytes, they and those of its result can be reached, and the mapping layer lets
      each of its movements. */
  predicate AtomicCan(h: Host, w: Wqe)
    requires w.Wqe?
  {
    && Covers(h.mrs, w.rkey, w.va, 8) && EightAt(h, Va(w.rkey, w.va)) && Lets(w.got.move, 8) && Lets(w.got.again, 8)
    && EightAt(h, ResultAt(w)) && Lets(w.got.back, 8)
  }

  /** What one that can't be done fails with, if the movement noted nothing. */
  function AtomicFault(h: Host, w: Wqe): (s: Status)
    requires w.Wqe?
  {
    var v := Va(w.rkey, w.va);
    if !Covers(h.mrs, w.rkey, w.va, 8) || SgeRun(h.mrs, v).len < 8 then RemoteAccErr
    else if SgeRun(h.mrs, ResultAt(w)).len < 8 then LocalProtErr
    else if !EightAt(h, v) || !Lets(w.got.move, 8) || !Lets(w.got.again, 8) then RemoteAccErr
    else LocalAccErr
  }

  lemma {:induction false} SwapsExactly(h: Host, v: Va, a: Atomic, reach: Reach, again: Reach)
    ensures var r := SwapEight(h, v, a, reach, again);
      (r.ok <==> EightAt(h, v) && Lets(reach, 8) && Lets(again, 8)) && r.host.mem.Keys == h.mem.Keys
  {
    var s := Span(h.mrs, v, 8);
    AllCounted(h.mem, s, 8, reach);
    AllCounted(h.mem, s, 8, again);
    assert s[..8] == s;
    PutKeys(h.mem, s, NewBytes(a, DataOf(h.mem, s)), Went(h.mem, s, 8, again));
  }

  /** An atomic within the device succeeds if and only if it can be done, and one that
      fails says at which end. */
  lemma {:induction false} AtomicExactly(h: Host, w: Wqe)
    requires w.Wqe?
    ensures LocalAtomic(h, w).status
         == if AtomicCan(h, w) then Ok else if w.fault != Ok then w.fault else AtomicFault(h, w)
  {
    var v, r := Va(w.rkey, w.va), Span(h.mrs, ResultAt(w), 8);
    SwapsExactly(h, v, AtomicOf(w), w.got.move, w.got.again);
    var a := SwapEight(h, v, AtomicOf(w), w.got.move, w.got.again);
    AllCounted(a.host.mem, r, 8, w.got.back);
    assert r[..8] == r;
  }

  /** An RDMA or an atomic that stays within the device. */
  function LocalOp(h: Host, w: Wqe): (r: Effect)
    requires w.Wqe?
    ensures r.host == h.(mem := r.host.mem)
  {
    if IsRdmaOp(w.op) then LocalRdma(h, w) else LocalAtomic(h, w)
  }
}
