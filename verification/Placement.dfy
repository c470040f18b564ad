/** Where the bytes of a registered region are, told in terms of what the guest
    said when it registered it. */
module Placement {
  import opened Arith
  import opened Wire
  import opened Translate
  import opened Regions
  import opened Copying

  /** Where the byte at x of what op registers is: in one piece from its address, or
      in the page its distance from the first page's start falls in. */
  function Placed(op: MrOp, x: nat): (g: Option<nat>)
    requires Accepts(op)
  {
    if x < op.va || x >= op.va + op.length then None
    else if op.desc.mapCount <= 1 then
      var g := op.desc.dmaAddr + (x - op.va);
      if g < U64 then Some(g) else None
    else
      var psz := PageBytes(op.desc);
      var a := Rem(op.va, psz) + (x - op.va);
      if Quot(a, psz) < op.desc.mapCount then Some((op.table.pages[Quot(a, psz)] + Rem(a, psz)) % U64) else None
  }

  lemma {:induction false} PagePlaced(op: MrOp, x: nat)
    requires Accepts(op) && op.desc.mapCount > 1 && op.va <= x < op.va + op.length
    ensures var b := BufInit(op.desc, op.va, op.length, op.table);
      b.Some? && b.value.Paged? && ByteGpa(b.value, x - op.va) == Placed(op, x)
  {
    AcceptsExactly(op);
    PageBytesIs(op.desc);
    QuotRem(op.va, PageBytes(op.desc));
  }

  /** After a registration that is accepted, the key reaches each byte of its range
      where the descriptor puts it, and no other; after one that isn't, none of its
      index's keys reaches anything. */
  lemma {:induction false} RegisterPlaces(m: Bindings, op: MrOp, x: nat)
    requires op.Register? && 1 <= op.key / 256 <= 2048
    ensures Accepts(op) ==> ByteOf(Apply(m, op), Va(op.key, x)) == Placed(op, x)
    ensures !Accepts(op) ==> forall k :: k / 256 == op.key / 256 ==> ByteOf(Apply(m, op), Va(k, x)).None?
  {
    AcceptsExactly(op);
    if Accepts(op) && op.desc.mapCount > 1 && op.va <= x < op.va + op.length {
      PagePlaced(op, x);
    }
  }

  /** The registration that key k is bound by: the last under it that was accepted,
      unless its index has since been registered or unregistered under any key, or
      k itself invalidated. */
  function Binder(ops: seq<MrOp>, k: nat): (r: Option<MrOp>)
    ensures r.Some? ==> Accepts(r.value)
  {
    if ops == [] then None
    else
      var op := ops[|ops| - 1];
      if op.key == k && Accepts(op) then Some(op)
      else if op.key == k || (!op.LocalInv? && op.key / 256 == k / 256) then None
      else Binder(ops[..|ops| - 1], k)
  }

  lemma {:induction false} StepPlaces(m: Bindings, op: MrOp, k: nat, x: nat)
    requires k != 0 && RegionsOk(m)
    ensures ByteOf(Apply(m, op), Va(k, x))
         == if op.key == k && Accepts(op) then Placed(op, x)
            else if op.key == k || (!op.LocalInv? && op.key / 256 == k / 256) then None
            else ByteOf(m, Va(k, x))
  {
    StepFollowsHistory(m, op, k);
    if op.Register? {
      AcceptsExactly(op);
      if op.key == k && Accepts(op) {
        RegisterPlaces(m, op, x);
      }
    }
  }

  /** After any operations, every key reaches just the bytes its registration put
      where it put them. */
  lemma {:induction false} BytesFollowHistory(ops: seq<MrOp>, k: nat, x: nat)
    requires k != 0 && forall i :: 0 <= i < |ops| ==> OpOk(ops[i])
    ensures var r := Binder(ops, k);
      ByteOf(ApplyAll(map[], ops), Va(k, x)) == if r.Some? then Placed(r.value, x) else None
  {
    if ops != [] {
      var before := ops[..|ops| - 1];
      BytesFollowHistory(before, k, x);
      RunOk(before);
      StepPlaces(ApplyAll(map[], before), ops[|ops| - 1], k, x);
    }
  }
}
