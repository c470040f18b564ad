/** A receive ring: a QP's own, or one that QPs share. The guest posts receives
    and gives its producer index, modulo the ring's depth and in 16 bits; the
    device takes them in order. */
module RecvRings {
  import opened Arith
  import opened Wire

  const U16: nat := 0x1_0000

  /** The two counters and the depth of struct ionic_qp_ring's receive queue,
      and of struct ionic_srq_ring; live is the latter's valid flag. */
  datatype RecvRing = RecvRing(live: bool, depth: nat, cons: nat, prod: nat)

  /** The 32-bit difference masked to the ring. */
  function Behind(pIndex: nat, slot: nat, depth: nat): (n: nat)
    requires pIndex < depth && slot < depth
    ensures n < depth
  {
    if pIndex >= slot then pIndex - slot else depth + pIndex - slot
  }

  /** How many receives a doorbell adds, 0 if it names no slot. */
  function Added(prod: nat, depth: nat, pIndex: nat): (n: nat) {
    if depth == 0 || pIndex >= depth then 0 else Behind(pIndex, Rem(prod, depth), depth)
  }

  /** rq_prod_advance() */
  function RqAdvance(prod: nat, depth: nat, pIndex: nat): (r: nat) {
    if depth == 0 || pIndex >= depth then prod else (prod + Added(prod, depth, pIndex)) % U32
  }

  /** A doorbell. */
  function Belled(r: RecvRing, pIndex: nat): (r': RecvRing) { r.(prod := RqAdvance(r.prod, r.depth, pIndex)) }

  /** Whether dp_ring_take() takes a receive: wqe is the list in the slot, if
      that can be read. */
  predicate Takes(r: RecvRing, wqe: Option<seq<Sge>>) { r.live && r.cons != r.prod && wqe.Some? }

  /** dp_ring_take() */
  function Take(r: RecvRing, wqe: Option<seq<Sge>>): (r': RecvRing) {
    if Takes(r, wqe) then r.(cons := (r.cons + 1) % U32) else r
  }

  // ---------------------------------------------------------------------
  // The producer
  // ---------------------------------------------------------------------

  /** How far a true count has risen is what the slot says, modulo the depth. */
  lemma {:induction false} BehindIs(p: nat, p': nat, depth: nat)
    requires depth > 0 && p <= p'
    ensures Behind(Rem(p', depth), Rem(p, depth), depth) == Rem(p' - p, depth)
  {
    QuotAdd(p, depth, p' - p);
    QuotAdd(p' - p, depth, Rem(p, depth));
    assert Rem(p, depth) + (p' - p) == p' - p + Rem(p, depth);
  }

  lemma {:induction false} RemAtMost(n: nat, d: nat)
    requires d > 0
    ensures Rem(n, d) <= n && (n >= d ==> Rem(n, d) < n)
  {
  }

  /** Counts less than 2^32 apart are the same 32-bit count only if equal. */
  lemma {:induction false} WrapApart(a: nat, b: nat)
    requires a <= b < a + U32 && a % U32 == b % U32
    ensures a == b
  {
  }

  /** The index a doorbell carries when the guest has posted n in all. */
  function Index(n: nat, depth: nat): (i: nat)
    requires depth > 0
    ensures i < depth
  {
    Rem(n, depth) % U16
  }

  /** Whether a doorbell after the n-th receive tells the device so, if the one
      before came after the p-th: there have not been as many since as the ring
      is deep, and the slot's number fits the doorbell. */
  predicate Tells(p: nat, n: nat, depth: nat)
    requires depth > 0
  {
    n - p < depth && Rem(n, depth) < U16
  }

  /** The count a doorbell brings the device to. */
  lemma {:induction false} Advanced(p: nat, index: nat, depth: nat)
    requires DepthOk(depth) && depth > 0 && index < depth
    ensures RqAdvance(p % U32, depth, index) == (p + Behind(index, Rem(p, depth), depth)) % U32
  {
    SameSlot(p, depth);
    WrapAdd(p, Behind(index, Rem(p, depth), depth));
  }

  /** An index is that far ahead exactly if it is the slot's own number and the
      count has risen by less than a depth. */
  lemma {:induction false} AheadExactly(p: nat, p': nat, depth: nat, index: nat)
    requires depth > 0 && p <= p' && index < depth
    ensures Behind(index, Rem(p, depth), depth) == p' - p <==> p' - p < depth && index == Rem(p', depth)
  {
    BehindIs(p, p', depth);
    RemAtMost(p' - p, depth);
  }

  /** Two counts from p on are the same 32-bit count only if equal. */
  lemma {:induction false} SameWrap(p: nat, a: nat, b: nat)
    requires a < U32 && b < U32
    ensures (p + a) % U32 == (p + b) % U32 <==> a == b
  {
    if (p + a) % U32 == (p + b) % U32 {
      if a <= b {
        WrapApart(p + a, p + b);
      } else {
        WrapApart(p + b, p + a);
      }
    }
  }

  lemma {:induction false} IndexCatchesUp(p: nat, k: nat, depth: nat, index: nat)
    requires DepthOk(depth) && depth > 0 && index < depth && k < U32
    ensures RqAdvance(p % U32, depth, index) == (p + k) % U32 <==> k < depth && index == Rem(p + k, depth)
  {
    Advanced(p, index, depth);
    AheadExactly(p, p + k, depth, index);
    var c := DepthDivides(depth);
    SameWrap(p, Behind(index, Rem(p, depth), depth), k);
  }

  lemma {:induction false} FitsIndex(x: nat)
    ensures x % U16 == x <==> x < U16
  {
  }

  /** A doorbell brings the device's count to the guest's if and only if it
      tells it. */
  lemma {:induction false} DoorbellCatchesUp(p: nat, p': nat, depth: nat)
    requires DepthOk(depth) && depth > 0 && p <= p' < p + U32
    ensures RqAdvance(p % U32, depth, Index(p', depth)) == p' % U32 <==> Tells(p, p', depth)
  {
    IndexCatchesUp(p, p' - p, depth, Index(p', depth));
    FitsIndex(Rem(p', depth));
  }

  /** A ring of more than 2^16 entries is miscounted: its index doesn't fit. */
  lemma {:induction false} DeepRingMiscounts()
    ensures DepthOk(0x2_0000) && 70000 < 0x2_0000
    ensures RqAdvance(0, 0x2_0000, Index(70000, 0x2_0000)) == 4464
  {
    Pow2Add(16, 1);
    Pow2Add(8, 8);
    assert Pow2(8) == 256;
    assert Pow2(1) == 2;
    assert 0x2_0000 == Pow2(17);
  }

  /** A doorbell after the posted-th receive, or one that names no slot. */
  datatype Bell = Rung(posted: nat) | Stray(index: nat)

  function AfterBells(prod: nat, depth: nat, bells: seq<Bell>): (r: nat)
    requires depth > 0
  {
    if bells == [] then prod
    else
      var b := bells[|bells| - 1];
      RqAdvance(AfterBells(prod, depth, bells[..|bells| - 1]), depth,
                if b.Rung? then Index(b.posted, depth) else b.index)
  }

  function Posted(p: nat, bells: seq<Bell>): (r: nat) {
    if bells == [] then p
    else if bells[|bells| - 1].Rung? then bells[|bells| - 1].posted
    else Posted(p, bells[..|bells| - 1])
  }

  /** What any guest's doorbells are: its count never goes back. */
  predicate Rising(p: nat, depth: nat, bells: seq<Bell>) {
    bells == [] ||
    (Rising(p, depth, bells[..|bells| - 1]) &&
     match bells[|bells| - 1]
     case Rung(n) => Posted(p, bells[..|bells| - 1]) <= n < Posted(p, bells[..|bells| - 1]) + U32
     case Stray(i) => i >= depth)
  }

  /** Each of them tells the device the count. */
  predicate AllTell(p: nat, depth: nat, bells: seq<Bell>)
    requires depth > 0
  {
    bells == [] ||
    (AllTell(p, depth, bells[..|bells| - 1]) &&
     var b := bells[|bells| - 1];
     b.Rung? ==> Tells(Posted(p, bells[..|bells| - 1]), b.posted, depth))
  }

  /** The device's count is the guest's, modulo 2^32, after every doorbell. */
  predicate AlwaysTrue(p: nat, depth: nat, bells: seq<Bell>)
    requires depth > 0
  {
    && (bells == [] || AlwaysTrue(p, depth, bells[..|bells| - 1]))
    && AfterBells(p % U32, depth, bells) == Posted(p, bells) % U32
  }

  /** In every run of doorbells, stray ones among them, the count stays true if
      and only if each doorbell tells it. */
  lemma {:induction false} CountsTrue(p: nat, depth: nat, bells: seq<Bell>)
    requires DepthOk(depth) && depth > 0 && Rising(p, depth, bells)
    ensures AlwaysTrue(p, depth, bells) <==> AllTell(p, depth, bells)
  {
    if bells != [] {
      var before := bells[..|bells| - 1];
      CountsTrue(p, depth, before);
      if bells[|bells| - 1].Rung? {
        DoorbellCatchesUp(Posted(p, before), bells[|bells| - 1].posted, depth);
      }
    }
  }
}
