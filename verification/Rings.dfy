/** The rings the device shares with a guest that reads them: completion queues,
    told apart from what was there a lap ago by a colour; and the order in which
    a send queue's WQEs are taken. */
module Rings {
  import opened Arith
  import opened Wire

  // ---------------------------------------------------------------------
  // A completion queue, its guest, and the log they stand for
  // ---------------------------------------------------------------------

  type Body = seq<byte>

  /** A completion as the guest's memory holds it. */
  datatype Cqe = Cqe(color: bool, body: Body)

  /** The device's end: what it has written, as log, is all it stands for. */
  datatype Ring = Ring(slots: seq<Cqe>, prod: nat, color: bool, log: seq<Body>)

  /** The guest's end: the slot it looks at next, the colour it looks for, and
      what it has read. */
  datatype Reader = Reader(idx: nat, color: bool, seen: seq<Body>)

  /** Whether the k-th completion carries the colour the rings start with. */
  predicate ColorOf(k: nat, depth: nat)
    requires depth > 0
  {
    Quot(k, depth) % 2 == 0
  }

  /** What becomes of writing a completion to guest memory. The colour is in
      its last byte, so a write that fails leaves the colour that was there. */
  datatype Outcome = Written | Spoiled(body: Body)

  /** cq_post(), from the write on. */
  function Post(r: Ring, body: Body, out: Outcome): (r': Ring)
    requires r.slots != []
  {
    var depth := |r.slots|;
    var s := Rem(r.prod, depth);
    match out
    case Spoiled(junk) => r.(slots := r.slots[s := r.slots[s].(body := junk)])
    case Written =>
      var prod := (r.prod + 1) % U32;
      Ring(r.slots[s := Cqe(r.color, body)], prod, if Rem(prod, depth) == 0 then !r.color else r.color, r.log + [body])
  }

  /** Whether the guest finds a completion waiting. */
  predicate Sees(r: Ring, g: Reader)
    requires g.idx < |r.slots|
  {
    r.slots[g.idx].color == g.color
  }

  /** The guest's poll of one slot. */
  function Poll(r: Ring, g: Reader): (g': Reader)
    requires g.idx < |r.slots|
  {
    if !Sees(r, g) then g
    else if g.idx + 1 == |r.slots| then Reader(0, !g.color, g.seen + [r.slots[g.idx].body])
    else Reader(g.idx + 1, g.color, g.seen + [r.slots[g.idx].body])
  }

  /** The device's end agrees with its log: the counter and the colour are the
      number of completions written, and each slot holds the last of them that
      went to it, or has yet to be written. */
  ghost predicate RingOk(r: Ring) {
    var depth, k := |r.slots|, |r.log|;
    && DepthOk(depth) && depth > 0
    && r.prod == k % U32
    && r.color == ColorOf(k, depth)
    && Colors(r.slots, k)
  }

  /** Each slot has the colour of the last of the first k completions that went
      to it, or the colour of none. */
  predicate Colors(slots: seq<Cqe>, k: nat)
    requires slots != []
  {
    && (forall i :: 0 <= i < k && k <= i + |slots| ==> slots[Rem(i, |slots|)].color == ColorOf(i, |slots|))
    && (forall s :: k <= s < |slots| ==> !slots[s].color)
  }

  lemma {:induction false} ColorsNext(slots: seq<Cqe>, k: nat, c: Cqe)
    requires slots != [] && Colors(slots, k) && c.color == ColorOf(k, |slots|)
    ensures Colors(slots[Rem(k, |slots|) := c], k + 1)
  {
    var d := |slots|;
    var slots' := slots[Rem(k, d) := c];
    forall i | 0 <= i < k + 1 && k + 1 <= i + d ensures slots'[Rem(i, d)].color == ColorOf(i, d) {
      if i < k {
        RemApart(i, k, d);
      }
    }
  }

  /** The guest has read a prefix of the log, in order; and what it has not
      read is still there, as long as it isn't lapped. */
  ghost predicate ReaderOk(r: Ring, g: Reader) {
    var depth, n := |r.slots|, |g.seen|;
    && depth > 0
    && n <= |r.log| <= n + depth
    && g.seen == r.log[..n]
    && g.idx == Rem(n, depth) && g.color == ColorOf(n, depth)
    && Bodies(r.slots, r.log, n)
  }

  predicate Bodies(slots: seq<Cqe>, log: seq<Body>, n: nat)
    requires slots != []
  {
    forall i :: n <= i < |log| ==> slots[Rem(i, |slots|)].body == log[i]
  }

  /** Writing the slot of the next completion touches none that is less than a
      lap behind it. */
  lemma {:induction false} BodiesStay(slots: seq<Cqe>, log: seq<Body>, n: nat, c: Cqe)
    requires slots != [] && Bodies(slots, log, n) && n <= |log| < n + |slots|
    ensures Bodies(slots[Rem(|log|, |slots|) := c], log, n)
    ensures Bodies(slots[Rem(|log|, |slots|) := c], log + [c.body], n)
  {
    var d := |slots|;
    var slots' := slots[Rem(|log|, d) := c];
    forall i | n <= i < |log| ensures slots'[Rem(i, d)].body == log[i] {
      RemApart(i, |log|, d);
    }
  }

  lemma {:induction false} Lap(i: nat, d: nat)
    requires d > 0
    ensures Rem(i + d, d) == Rem(i, d) && ColorOf(i + d, d) == !ColorOf(i, d)
  {
  }

  lemma {:induction false} ColorNext(k: nat, d: nat)
    requires d > 0
    ensures ColorOf(k + 1, d) == if Rem(k + 1, d) == 0 then !ColorOf(k, d) else ColorOf(k, d)
  {
    Succ(k, d);
  }

  /** The counter and the colour after one more completion. */
  lemma {:induction false} CountNext(k: nat, depth: nat)
    requires DepthOk(depth)
    ensures depth > 0 && (k % U32 + 1) % U32 == (k + 1) % U32
    ensures Rem(k % U32, depth) == Rem(k, depth)
    ensures ColorOf(k + 1, depth) == if Rem((k + 1) % U32, depth) == 0 then !ColorOf(k, depth) else ColorOf(k, depth)
  {
    SameSlot(k, depth);
    SameSlot(k + 1, depth);
    WrapAdd(k, 1);
    ColorNext(k, depth);
  }

  lemma {:induction false} ColorsSpoiled(slots: seq<Cqe>, k: nat, s: nat, junk: Body)
    requires s < |slots| && Colors(slots, k)
    ensures Colors(slots[s := slots[s].(body := junk)], k)
  {
  }

  /** The k-th completion goes to slot k modulo the depth with colour k / depth,
      also past the 32-bit counter's wrap. */
  lemma {:induction false} PostOk(r: Ring, body: Body, out: Outcome)
    requires RingOk(r)
    ensures RingOk(Post(r, body, out))
  {
    var depth, k := |r.slots|, |r.log|;
    CountNext(k, depth);
    if out.Written? {
      ColorsNext(r.slots, k, Cqe(r.color, body));
    } else {
      ColorsSpoiled(r.slots, k, Rem(k, depth), out.body);
    }
  }

  /** A guest that is not a whole lap behind loses nothing to a completion, or
      to an attempt at one. */
  lemma {:induction false} PostReader(r: Ring, g: Reader, body: Body, out: Outcome)
    requires RingOk(r) && ReaderOk(r, g) && |r.log| < |g.seen| + |r.slots|
    ensures ReaderOk(Post(r, body, out), g)
  {
    var depth, k, n := |r.slots|, |r.log|, |g.seen|;
    SameSlot(k, depth);
    var r' := Post(r, body, out);
    BodiesStay(r.slots, r.log, n, r'.slots[Rem(k, depth)]);
    assert r'.log[..n] == r.log[..n];
  }

  /** The guest sees a completion exactly when there is one it hasn't read. */
  lemma {:induction false} SeesExactly(r: Ring, g: Reader)
    requires RingOk(r) && ReaderOk(r, g)
    ensures g.idx < |r.slots|
    ensures Sees(r, g) <==> |g.seen| < |r.log|
  {
    var depth, n := |r.slots|, |g.seen|;
    if n < |r.log| {
      assert r.slots[Rem(n, depth)].color == ColorOf(n, depth);
    } else if n >= depth {
      Lap(n - depth, depth);
      assert n - depth + depth == n;
      assert r.slots[Rem(n - depth, depth)].color == ColorOf(n - depth, depth);
    }
  }

  /** What it reads is the next completion of the log. */
  lemma {:induction false} PollOk(r: Ring, g: Reader)
    requires RingOk(r) && ReaderOk(r, g)
    ensures g.idx < |r.slots| && ReaderOk(r, Poll(r, g))
  {
    SeesExactly(r, g);
    if Sees(r, g) {
      var depth, n := |r.slots|, |g.seen|;
      Succ(n, depth);
      ColorNext(n, depth);
      assert r.slots[Rem(n, depth)].body == r.log[n];
      assert r.log[..n + 1] == r.log[..n] + [r.log[n]];
    }
  }

  // ---------------------------------------------------------------------
  // Runs
  // ---------------------------------------------------------------------

  datatype CqStep = DoPost(body: Body, out: Outcome) | DoPoll

  /** A run in which the device never laps the guest. */
  ghost predicate Unlapped(r: Ring, g: Reader, steps: seq<CqStep>)
    requires RingOk(r) && ReaderOk(r, g)
    decreases |steps|
  {
    steps == [] ||
    match steps[0]
    case DoPost(body, out) =>
      && |r.log| < |g.seen| + |r.slots|
      && (PostOk(r, body, out); PostReader(r, g, body, out); Unlapped(Post(r, body, out), g, steps[1..]))
    case DoPoll => PollOk(r, g); Unlapped(r, Poll(r, g), steps[1..])
  }

  ghost function RunEnd(r: Ring, g: Reader, steps: seq<CqStep>): (e: (Ring, Reader))
    requires RingOk(r) && ReaderOk(r, g) && Unlapped(r, g, steps)
    ensures RingOk(e.0) && ReaderOk(e.0, e.1)
    decreases |steps|
  {
    if steps == [] then (r, g)
    else match steps[0]
      case DoPost(body, out) =>
        PostOk(r, body, out); PostReader(r, g, body, out); RunEnd(Post(r, body, out), g, steps[1..])
      case DoPoll => PollOk(r, g); RunEnd(r, Poll(r, g), steps[1..])
  }

  predicate NewRing(r: Ring) {
    && r.slots != [] && r.prod == 0 && r.color && r.log == []
    && forall s :: 0 <= s < |r.slots| ==> !r.slots[s].color
  }

  /** A guest that toggles its own colour reads every completion once and in
      order, if it is never lapped, whatever completions fail to be written. */
  lemma {:induction false} ReadsTheLog(r: Ring, steps: seq<CqStep>)
    requires NewRing(r) && DepthOk(|r.slots|)
    ensures RingOk(r) && ReaderOk(r, Reader(0, true, []))
    ensures Unlapped(r, Reader(0, true, []), steps) ==>
              var (r', g') := RunEnd(r, Reader(0, true, []), steps);
              && g'.seen <= r'.log
              && r'.prod == |r'.log| % U32
              && g'.idx < |r'.slots|
              && (Sees(r', g') <==> g'.seen != r'.log)
  {
    var g := Reader(0, true, []);
    if Unlapped(r, g, steps) {
      var (r', g') := RunEnd(r, g, steps);
      SeesExactly(r', g');
      assert |g'.seen| == |r'.log| ==> r'.log[..|r'.log|] == r'.log;
    }
  }

  /** A completion queue as the device keeps it. */
  class Cq {
    const slots: array<Cqe>
    var prod: nat
    var color: bool
    ghost var log: seq<Body>

    constructor (ring: array<Cqe>)
      requires ring.Length > 0 && forall s :: 0 <= s < ring.Length ==> !ring[s].color
      ensures slots == ring && NewRing(View())
    {
      slots := ring;
      prod, color, log := 0, true, [];
    }

    ghost function View(): (r: Ring)
      reads this, slots
    {
      Ring(slots[..], prod, color, log)
    }

    /** cq_post() and ionic_adminq_post_cqe(), from the write on. */
    method PostCqe(body: Body, out: Outcome)
      requires slots.Length > 0
      modifies this, slots
      ensures View() == Post(old(View()), body, out)
    {
      var s := prod % slots.Length;
      QuotRem(prod, slots.Length);
      if out.Spoiled? {
        slots[s] := slots[s].(body := out.body);
        return;
      }
      slots[s] := Cqe(color, body);
      prod := (prod + 1) % U32;
      QuotRem(prod, slots.Length);
      if prod % slots.Length == 0 {
        color := !color;
      }
      log := log + [body];
    }
  }

  // ---------------------------------------------------------------------
  // A send ring's consumer
  // ---------------------------------------------------------------------

  /** A send queue's WQEs are taken in ring order, also past the 32-bit
      counter's wrap. */
  lemma {:induction false} SlotsInOrder(cons: nat, depth: nat)
    requires DepthOk(depth)
    ensures depth > 0
    ensures Rem((cons + 1) % U32, depth) == if Rem(cons, depth) + 1 == depth then 0 else Rem(cons, depth) + 1
  {
    SameSlot(cons + 1, depth);
    Succ(cons, depth);
  }
}
