/** What a guest has given the device to work on: its memory, the regions of it
    that are registered, and the receives it has posted. */
module Host {
  import opened Arith
  import opened Wire
  import opened Journal
  import opened RecvRings
  import opened Dma
  import opened Regions
  import opened Copying
  import opened Bouncing

  datatype Host = Host(rq: seq<RecvRing>, srq: seq<RecvRing>, mem: Memory, mrs: Bindings)

  // ---------------------------------------------------------------------
  // Receive rings
  // ---------------------------------------------------------------------

  predicate HasRing(h: Host, ring: RingName) {
    match ring
    case Own(i) => i < |h.rq|
    case Shared(s) => s < |h.srq|
  }

  /** A ring that there is no room for in the table has nothing in it. */
  function RingAt(h: Host, ring: RingName): (r: RecvRing) {
    if !HasRing(h, ring) then RecvRing(false, 0, 0, 0)
    else match ring
      case Own(i) => h.rq[i]
      case Shared(s) => h.srq[s]
  }

  function SetRing(h: Host, ring: RingName, r: RecvRing): (h': Host)
    ensures forall x :: HasRing(h', x) <==> HasRing(h, x)
    ensures forall x :: HasRing(h, x) ==> RingAt(h', x) == if x == ring then r else RingAt(h, x)
    ensures h'.mem == h.mem && h'.mrs == h.mrs
  {
    if !HasRing(h, ring) then h
    else match ring
      case Own(i) => h.(rq := h.rq[i := r])
      case Shared(s) => h.(srq := h.srq[s := r])
  }

  /** Putting a ring back as it was changes nothing. */
  lemma {:induction false} SetSame(h: Host, ring: RingName)
    ensures SetRing(h, ring, RingAt(h, ring)) == h
  {
  }

  // ---------------------------------------------------------------------
  // Memory
  // ---------------------------------------------------------------------

  /** How far the mapping layer lets a movement of bytes get: how many it counts,
      and how many it has moved when it stops. */
  datatype Reach = Reach(done: nat, moved: nat)

  /** Whether it lets that many by. */
  predicate Lets(reach: Reach, n: nat) { n <= reach.done && n <= reach.moved }

  function Min(a: nat, b: nat): (n: nat) { if a < b then a else b }

  /** How many of the bytes wanted are moved to or from some places: none past
      the first that isn't there. */
  function Went(mem: Memory, s: Places, want: nat, reach: Reach): (n: nat)
    ensures n <= want && n <= |s| && n <= reach.moved && Reachable(mem, s[..n])
  {
    Min(Min(want, reach.moved), Within(mem, s))
  }

  /** And how many of those are counted. */
  function Counted(mem: Memory, s: Places, want: nat, reach: Reach): (n: nat)
    ensures n <= Went(mem, s, want, reach)
  {
    Min(reach.done, Went(mem, s, want, reach))
  }

  /** Memory with data in the first n of some places. */
  function Put(mem: Memory, s: Places, data: seq<byte>, n: nat): (r: Memory)
    requires n <= |s|
  {
    CopyBytes(true, Side(mem, data), s[..n], 0).mem
  }

  /** Memory after something else has written to what is mapped of it. */
  function Overwritten(mem: Memory, writes: Memory): (r: Memory)
    ensures r.Keys == mem.Keys
  {
    map x | x in mem :: if x in writes then writes[x] else mem[x]
  }

  lemma {:induction false} PutKeys(mem: Memory, s: Places, data: seq<byte>, n: nat)
    requires n <= |s|
    ensures Put(mem, s, data, n).Keys == mem.Keys
  {
    CopyShape(true, Side(mem, data), s[..n], 0);
  }

  /** Everything that was wanted went, and was counted, if and only if all the
      places are there and the mapping layer lets it. */
  lemma {:induction false} AllCounted(mem: Memory, s: Places, want: nat, reach: Reach)
    ensures Counted(mem, s, want, reach) == want <==>
              want <= |s| && Reachable(mem, s[..want]) && Lets(reach, want)
    ensures Counted(mem, s, want, reach) == want ==> Went(mem, s, want, reach) == want
  {
    if want <= |s| && Reachable(mem, s[..want]) {
      WithinAtLeast(mem, s, want);
    }
  }

  predicate SameAt(a: Memory, b: Memory, x: nat) { if x in a then x in b && a[x] == b[x] else x !in b }

  ghost predicate SameBut(a: Memory, b: Memory, s: Places) { forall x: nat :: Some(x) !in s ==> SameAt(a, b, x) }

  /** Nothing changes but in those places. */
  lemma {:induction false} PutElsewhere(mem: Memory, s: Places, data: seq<byte>, n: nat)
    requires n <= |s|
    ensures SameBut(mem, Put(mem, s, data, n), s)
  {
    if n > 0 {
      assert s[..n][..n - 1] == s[..n - 1];
      PutElsewhere(mem, s, data, n - 1);
    }
  }

  lemma {:induction false} PutWithin(mem: Memory, s: Places, data: seq<byte>, n: nat)
    requires n <= |s|
    ensures SameBut(mem, Put(mem, s, data, n), s[..n])
  {
    assert s[..n][..n] == s[..n];
    PutElsewhere(mem, s[..n], data, n);
  }

  /** A place that is there holds what was put in every one of them. */
  lemma {:induction false} PutAll(mem: Memory, s: Places, data: seq<byte>, n: nat, b: byte, k: nat)
    requires k < n <= |s| && n <= |data| && Reachable(mem, s[..n]) && forall i :: 0 <= i < n ==> data[i] == b
    ensures var m := Put(mem, s, data, n); s[k].Some? && s[k].value in m && m[s[k].value] == b
  {
    var was := s[..n - 1];
    assert s[..n][..n - 1] == was;
    assert s[..n][k] == s[k] && s[..n][n - 1] == s[n - 1];
    PutKeys(mem, s, data, n - 1);
    CopyShape(true, Side(mem, data), was, 0);
    if k < n - 1 {
      assert forall i :: 0 <= i < n - 1 ==> was[i] == s[..n][i];
      PutAll(mem, s, data, n - 1, b, k);
    }
  }

  /** So what is put there can change it. */
  lemma {:induction false} PutChanges(mem: Memory, s: Places, n: nat, len: nat) returns (data: seq<byte>)
    requires 0 < n <= |s| && n <= len && Reachable(mem, s[..n])
    ensures |data| == len && Put(mem, s, data, n) != mem
  {
    assert s[..n][0] == s[0];
    var b: byte := if mem[s[0].value] == 0 then 1 else 0;
    data := seq(len, _ => b);
    PutAll(mem, s, data, n, b, 0);
  }

  /** Places that are all different hold what was put there. */
  lemma {:induction false} PutHolds(mem: Memory, s: Places, data: seq<byte>, n: nat)
    requires n <= |s| && n <= |data| && Reachable(mem, s[..n])
    requires forall i, j :: 0 <= i < j < n ==> s[i] != s[j]
    ensures DataOf(Put(mem, s, data, n), s[..n]) == data[..n]
  {
    if n > 0 {
      PutHolds(mem, s, data, n - 1);
      PutKeys(mem, s, data, n - 1);
      var a, b := Put(mem, s, data, n - 1), Put(mem, s, data, n);
      assert s[..n][..n - 1] == s[..n - 1];
      CopyShape(true, Side(mem, data), s[..n - 1], 0);
      assert b == a[s[n - 1].value := data[n - 1]];
      forall i | 0 <= i < n ensures ByteAt(b, s[i]) == data[i] {
        if i < n - 1 {
          assert s[..n][i] == s[i];
          assert DataOf(a, s[..n - 1])[i] == data[..n - 1][i];
        }
      }
    }
  }

  // ---------------------------------------------------------------------
  // Receives
  // ---------------------------------------------------------------------

  /** What a receive is to be given: bytes that have arrived, a list of this
      guest's own bytes, or the news of a WRITE that has landed already. */
  datatype Load =
    | FromHost(data: seq<byte>)
    | FromGuest(list: seq<Sge>)
    | Immediate(total: nat)

  function ListLen(list: seq<Sge>): (n: nat) {
    if list == [] then 0 else ListLen(list[..|list| - 1]) + list[|list| - 1].len
  }

  lemma {:induction false} ListLenIs(m: Bindings, list: seq<Sge>)
    ensures |Flat(m, list)| == ListLen(list)
  {
    if list != [] {
      ListLenIs(m, list[..|list| - 1]);
    }
  }

  /** How many bytes of one list a walk takes to another: none past the first of
      either that isn't there. */
  function WentAlong(h: Host, sl: seq<Sge>, dl: seq<Sge>, reach: Reach): (n: nat) {
    Min(reach.moved, ReachBoth(h.mem, Flat(h.mrs, sl), Flat(h.mrs, dl)))
  }

  function LoadSize(load: Load): (n: nat) {
    match load
    case FromHost(data) => |data|
    case FromGuest(list) => ListLen(list)
    case Immediate(total) => total
  }

  predicate LoadFits(load: Load) {
    match load
    case FromHost(data) => |data| < U32
    case FromGuest(list) => forall i :: 0 <= i < |list| ==> list[i].len < U32
    case Immediate(_) => true
  }

  /** How much of a load lands in a receive's list, and memory then. */
  datatype Filled = Filled(landed: nat, mem: Memory)

  function Fills(h: Host, list: seq<Sge>, load: Load, reach: Reach): (f: Filled) {
    var s := Flat(h.mrs, list);
    match load
    case Immediate(total) => Filled(total, h.mem)
    case FromHost(data) =>
      Filled(Counted(h.mem, s, |data|, reach), Put(h.mem, s, data, Went(h.mem, s, |data|, reach)))
    case FromGuest(sl) =>
      var n := WentAlong(h, sl, list, reach);
      Filled(Min(reach.done, n), Walked(h.mem, h.mrs, sl, list, n))
  }

  /** What comes of ionic_dp_deliver_recv(): landed is what it returns if it took
      a receive, and status what that receive completes with. */
  datatype Delivery = Delivery(host: Host, taken: bool, landed: nat, status: Status)

  function Delivered(h: Host, landed: nat, total: nat, fault: Status): (d: Delivery) {
    Delivery(h, true, landed, if landed < total then FaultStatus(fault, LocalLenErr) else Ok)
  }

  /** ionic_dp_deliver_recv(): wqe is the list in the ring's next slot, if that
      can be read. */
  function Deliver(h: Host, ring: RingName, wqe: Option<seq<Sge>>, load: Load, reach: Reach,
                   fault: Status): (d: Delivery)
  {
    var r := RingAt(h, ring);
    var h1 := SetRing(h, ring, Take(r, wqe));
    if !Takes(r, wqe) then Delivery(h1, false, 0, Ok)
    else
      var f := Fills(h, wqe.value, load, reach);
      Delivered(h1.(mem := f.mem), f.landed, LoadSize(load), fault)
  }

  /** Finding no receive consumes nothing. */
  lemma {:induction false} NoneTaken(h: Host, ring: RingName, wqe: Option<seq<Sge>>, load: Load, reach: Reach,
                                     fault: Status)
    requires !Deliver(h, ring, wqe, load, reach, fault).taken
    ensures Deliver(h, ring, wqe, load, reach, fault).host == h
  {
    SetSame(h, ring);
  }

  /** A delivery leaves the regions alone, and lands no more than there is. */
  lemma {:induction false} DeliverKeeps(h: Host, ring: RingName, wqe: Option<seq<Sge>>, load: Load, reach: Reach,
                                        fault: Status)
    ensures var d := Deliver(h, ring, wqe, load, reach, fault);
      d.host.mrs == h.mrs && d.landed <= LoadSize(load)
  {
    if load.FromGuest? {
      ListLenIs(h.mrs, load.list);
    }
  }

  /** Whether the rings are as they were but for a receive that was taken. */
  predicate RingsAfter(h: Host, h': Host, ring: RingName, wqe: Option<seq<Sge>>) {
    var h1 := SetRing(h, ring, Take(RingAt(h, ring), wqe));
    h'.rq == h1.rq && h'.srq == h1.srq
  }

  /** What a delivery leaves of the rings: a receive fewer in its own if it took
      one, and the others as they were. */
  lemma {:induction false} OneTaken(h: Host, ring: RingName, wqe: Option<seq<Sge>>, load: Load, reach: Reach,
                                    fault: Status)
    ensures var d := Deliver(h, ring, wqe, load, reach, fault);
      (d.taken <==> Takes(RingAt(h, ring), wqe)) && RingsAfter(h, d.host, ring, wqe)
  {
  }

  /** A message that has arrived lands whole, and its receive completes with
      success, if and only if the receive's list holds it, each of its bytes can
      be reached and the mapping layer lets it. */
  lemma {:induction false} LandsWhole(h: Host, ring: RingName, list: seq<Sge>, data: seq<byte>, reach: Reach,
                                      fault: Status)
    requires Takes(RingAt(h, ring), Some(list))
    ensures var d, s := Deliver(h, ring, Some(list), FromHost(data), reach, fault), Flat(h.mrs, list);
      && (d.landed == |data| <==> |data| <= |s| && Reachable(h.mem, s[..|data|]) && Lets(reach, |data|))
      && (d.status == Ok <==> d.landed == |data|)
      && (d.landed == |data| ==> d.host.mem == Put(h.mem, s, data, |data|))
  {
    AllCounted(h.mem, Flat(h.mrs, list), |data|, reach);
  }
}
