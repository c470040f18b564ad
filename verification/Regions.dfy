/** The memory regions a guest has registered. An index has 256 keys, and one
    slot in the table: whichever key was bound last. */
module Regions {
  import opened Arith
  import opened Wire
  import opened Translate

  const MAX_MR := 2048

  /** struct dp_mr */
  datatype Mr = Mr(valid: bool, lkey: nat, va: nat, length: nat, buf: Buf)

  /** ionic_mr_slot(): the table's slot for a key, whose low byte doesn't
      count. */
  function Slot(key: nat): (s: Option<nat>) {
    if 1 <= key / 256 <= MAX_MR then Some(key / 256 - 1) else None
  }

  /** How a guest describes where a region is. */
  datatype BufDesc = BufDesc(dmaAddr: nat, mapCount: nat, log2: nat)

  /** What comes of reading a page table out of guest memory. */
  datatype TableRead = NoMemory | ReadFailed | Entries(pages: seq<nat>)

  function MaxPages(span: nat, log2: nat): (n: nat) {
    var n := span / Pow2(log2) + (if span % Pow2(log2) != 0 then 1 else 0) + 1;
    if n > MAX_TABLE then MAX_TABLE else n
  }

  function PageLog2(desc: BufDesc): (n: nat) { if desc.log2 == 0 then PAGE_LOG2_DEFAULT else desc.log2 }

  /** ionic_dp_buf_init() */
  function BufInit(desc: BufDesc, va: nat, span: nat, table: TableRead): (b: Option<Buf>) {
    if desc.log2 > PAGE_LOG2_MAX then None
    else if span == 0 || desc.mapCount > MaxPages(span, PageLog2(desc)) then None
    else if desc.mapCount <= 1 then Some(Direct(desc.dmaAddr))
    else if table.Entries? && |table.pages| == desc.mapCount
    then Some(Paged(table.pages, PageLog2(desc), va % Pow2(PageLog2(desc))))
    else None
  }

  /** A guest's own numbers are 64 bits wide. */
  predicate Words(desc: BufDesc, table: TableRead) {
    desc.dmaAddr < U64 && (table.Entries? ==> forall i :: 0 <= i < |table.pages| ==> table.pages[i] < U64)
  }

  lemma {:induction false} BufInitOk(desc: BufDesc, va: nat, span: nat, table: TableRead)
    requires Words(desc, table) && BufInit(desc, va, span, table).Some?
    ensures span > 0 && BufOk(BufInit(desc, va, span, table).value)
  {
  }

  /** A byte of a paged buffer is as far into its page as its virtual address
      is. */
  lemma {:induction false} OffsetKept(desc: BufDesc, va: nat, span: nat, table: TableRead, off: nat)
    requires var b := BufInit(desc, va, span, table); b.Some? && b.value.Paged?
    ensures var b := BufInit(desc, va, span, table).value;
      Rem(off + b.firstOff, Pow2(b.log2)) == Rem(va + off, Pow2(b.log2))
  {
    var psz := Pow2(PageLog2(desc));
    QuotRem(va, psz);
    QuotAdd(va, psz, off);
    assert off + va % psz == Rem(va, psz) + off;
  }

  // ---------------------------------------------------------------------
  // The table, as a map
  // ---------------------------------------------------------------------

  /** What a live key reaches. */
  datatype Region = Region(key: nat, va: nat, length: nat, buf: Buf)

  /** The live region of each slot that has one. */
  type Bindings = map<nat, Region>

  function Unbound(m: Bindings, s: nat): (r: Bindings) { m - {s} }

  function Registered(m: Bindings, key: nat, va: nat, length: nat, desc: BufDesc, table: TableRead): (r: Bindings) {
    match Slot(key)
    case None => m
    case Some(s) =>
      if length > U64 - 1 - va || BufInit(desc, va, length, table).None? then Unbound(m, s)
      else m[s := Region(key, va, length, BufInit(desc, va, length, table).value)]
  }

  function Unregistered(m: Bindings, key: nat): (r: Bindings) {
    if Slot(key).Some? then Unbound(m, Slot(key).value) else m
  }

  /** The region a key reaches. */
  function Lookup(m: Bindings, key: nat): (r: Option<Region>) {
    match Slot(key)
    case None => None
    case Some(s) => if s in m && m[s].key == key then Some(m[s]) else None
  }

  function Invalidated(m: Bindings, key: nat): (r: Bindings) {
    if Lookup(m, key).Some? then Unregistered(m, key) else m
  }

  /** ionic_dp_mr_covers() */
  predicate Covers(m: Bindings, key: nat, va: nat, len: nat) {
    if key == 0 then va + len < U64
    else
      var r := Lookup(m, key);
      r.Some? && va >= r.value.va && len <= r.value.length && va - r.value.va <= r.value.length - len
  }

  /** A region within the address space, with a well-formed page table. */
  predicate RegionFits(r: Region) {
    r.length > 0 && r.va + r.length < U64 && BufOk(r.buf)
  }

  predicate RegionOk(s: nat, r: Region) { Slot(r.key) == Some(s) && RegionFits(r) }

  predicate RegionsOk(m: Bindings) {
    forall s :: s in m ==> RegionOk(s, m[s])
  }

  datatype MrOp =
    | Register(key: nat, va: nat, length: nat, desc: BufDesc, table: TableRead)   // CREATE_MR or REG_MR
    | LocalInv(key: nat)
    | Unregister(key: nat)

  /** A guest's numbers are of the width the device reads them at. */
  predicate OpOk(op: MrOp) {
    op.Register? ==> op.va < U64 && op.length < U64 && Words(op.desc, op.table)
  }

  function Apply(m: Bindings, op: MrOp): (r: Bindings) {
    match op
    case Register(key, va, length, desc, table) => Registered(m, key, va, length, desc, table)
    case LocalInv(key) => Invalidated(m, key)
    case Unregister(key) => Unregistered(m, key)
  }

  function ApplyAll(m: Bindings, ops: seq<MrOp>): (r: Bindings) {
    if ops == [] then m else Apply(ApplyAll(m, ops[..|ops| - 1]), ops[|ops| - 1])
  }

  // ---------------------------------------------------------------------
  // What any sequence of operations keeps
  // ---------------------------------------------------------------------

  lemma {:induction false} ApplyOk(m: Bindings, op: MrOp)
    requires RegionsOk(m) && OpOk(op)
    ensures RegionsOk(Apply(m, op))
  {
  }

  /** Whatever is registered, rebound, invalidated or refused: every live region
      is in its own index's slot, lies within the address space and has a
      well-formed page table. */
  lemma {:induction false} RunOk(ops: seq<MrOp>)
    requires forall i :: 0 <= i < |ops| ==> OpOk(ops[i])
    ensures RegionsOk(ApplyAll(map[], ops))
  {
    if ops != [] {
      RunOk(ops[..|ops| - 1]);
      ApplyOk(ApplyAll(map[], ops[..|ops| - 1]), ops[|ops| - 1]);
    }
  }

  /** At most one of an index's keys is live. */
  lemma {:induction false} OneKeyLive(ops: seq<MrOp>, k1: nat, k2: nat)
    requires k1 / 256 == k2 / 256
    ensures var m := ApplyAll(map[], ops);
      Lookup(m, k1).Some? && Lookup(m, k2).Some? ==> k1 == k2
  {
  }

  /** A registration that succeeds kills every earlier key of its index, one
      that fails leaves none of them live, and neither touches another index. */
  lemma {:induction false} RegisterRebinds(m: Bindings, op: MrOp, k: nat)
    requires op.Register? && Slot(op.key).Some?
    ensures k / 256 != op.key / 256 ==> Lookup(Apply(m, op), k) == Lookup(m, k)
    ensures k / 256 == op.key / 256 ==>
              var b := BufInit(op.desc, op.va, op.length, op.table);
              Lookup(Apply(m, op), k)
                == if k == op.key && op.length <= U64 - 1 - op.va && b.Some?
                   then Some(Region(op.key, op.va, op.length, b.value)) else None
  {
  }

  /** LOCAL_INV takes away the binding of the key it names and no other: a key
      an earlier rotation left behind changes nothing. */
  lemma {:induction false} InvalidateOnlyOwn(m: Bindings, key: nat, k: nat)
    requires RegionsOk(m)
    ensures Lookup(Apply(m, LocalInv(key)), k) == if k == key then None else Lookup(m, k)
    ensures Lookup(m, key).None? ==> Apply(m, LocalInv(key)) == m
  {
  }

  /** Unregistering an index's key, whichever of them it is, leaves none live. */
  lemma {:induction false} UnregisterClears(m: Bindings, key: nat, k: nat)
    requires Slot(key).Some?
    ensures Lookup(Apply(m, Unregister(key)), k) == if k / 256 == key / 256 then None else Lookup(m, k)
  {
  }

  predicate SameIndex(k1: nat, k2: nat) { Slot(k1).Some? && Slot(k1) == Slot(k2) }

  predicate Succeeds(op: MrOp)
    requires op.Register?
  {
    op.length <= U64 - 1 - op.va && BufInit(op.desc, op.va, op.length, op.table).Some?
  }

  /** How large the pages a descriptor names are. */
  function PageBytes(desc: BufDesc): (n: nat)
    ensures n > 0
  {
    if desc.log2 == 0 then 4096 else Pow2(desc.log2)
  }

  lemma {:induction false} PageBytesIs(desc: BufDesc)
    ensures PageBytes(desc) == Pow2(PageLog2(desc))
  {
    assert Pow2(12) == 64 * Pow2(6) && Pow2(6) == 64;
  }

  /** Whether a registration is one the device accepts: its key has a slot, its
      range has a byte and ends within the address space, and its pages are of a
      size there is, few enough for the range, and can be read. */
  predicate Accepts(op: MrOp) {
    && op.Register? && 1 <= op.key / 256 <= 2048
    && 0 < op.length && op.va + op.length < U64 && op.desc.log2 <= 30
    && (op.desc.mapCount >= 2 ==>
          && op.desc.mapCount <= 0x8000_0000 && (op.desc.mapCount - 2) * PageBytes(op.desc) < op.length
          && op.table.Entries? && |op.table.pages| == op.desc.mapCount)
  }

  /** How many pages a range may have: so many that the last but one starts before
      the range's end. */
  lemma {:induction false} PagesEnough(span: nat, psz: nat, q: nat, r: nat, n: nat)
    requires psz > 0 && span > 0 && span == q * psz + r && r < psz
    ensures n <= q + (if r != 0 then 1 else 0) + 1 <==> n < 2 || (n - 2) * psz < span
  {
    if n >= 2 {
      if n - 2 < q {
        MulGap(n - 2, q, psz);
      } else {
        MulMonotone(q, n - 2, psz);
        if n - 2 > q {
          MulGap(q, n - 2, psz);
        }
      }
    }
  }

  lemma {:induction false} MaxPagesMeans(span: nat, log2: nat, n: nat)
    requires span > 0
    ensures n <= MaxPages(span, log2) <==> n < 2 || (n <= MAX_TABLE && (n - 2) * Pow2(log2) < span)
  {
    var psz := Pow2(log2);
    QuotRem(span, psz);
    PagesEnough(span, psz, span / psz, span % psz, n);
    PagesEnough(span, psz, span / psz, span % psz, 1);
  }

  /** Those are just the ones after which the key is live. */
  lemma {:induction false} AcceptsExactly(op: MrOp)
    requires op.Register?
    ensures Accepts(op) <==> Slot(op.key).Some? && Succeeds(op)
  {
    PageBytesIs(op.desc);
    if op.length > 0 {
      MaxPagesMeans(op.length, PageLog2(op.desc), op.desc.mapCount);
    }
  }

  /** One key's own history: bound by the last registration under it, unless
      its index has since been registered or unregistered under any key, or it
      has itself been invalidated. */
  function History(ops: seq<MrOp>, k: nat): (r: Option<Region>) {
    if ops == [] then None
    else
      var op := ops[|ops| - 1];
      if op.Register? && op.key == k && Slot(k).Some? && Succeeds(op)
      then Some(Region(k, op.va, op.length, BufInit(op.desc, op.va, op.length, op.table).value))
      else if !op.LocalInv? && SameIndex(op.key, k) then None
      else if op.LocalInv? && op.key == k then None
      else History(ops[..|ops| - 1], k)
  }

  /** Every key reaches, after any sequence of operations, just what its own
      history says. */
  lemma {:induction false} KeyFollowsHistory(ops: seq<MrOp>, k: nat)
    requires forall i :: 0 <= i < |ops| ==> OpOk(ops[i])
    ensures Lookup(ApplyAll(map[], ops), k) == History(ops, k)
  {
    if ops != [] {
      var before := ops[..|ops| - 1];
      KeyFollowsHistory(before, k);
      RunOk(before);
      StepFollowsHistory(ApplyAll(map[], before), ops[|ops| - 1], k);
    }
  }

  lemma {:induction false} StepFollowsHistory(m: Bindings, op: MrOp, k: nat)
    requires RegionsOk(m)
    ensures Lookup(Apply(m, op), k)
         == if op.Register? && op.key == k && Slot(k).Some? && Succeeds(op)
            then Some(Region(k, op.va, op.length, BufInit(op.desc, op.va, op.length, op.table).value))
            else if !op.LocalInv? && SameIndex(op.key, k) then None
            else if op.LocalInv? && op.key == k then None
            else Lookup(m, k)
  {
  }

  // ---------------------------------------------------------------------
  // The table itself
  // ---------------------------------------------------------------------

  function LiveRegion(m: Mr): (r: Region) { Region(m.lkey, m.va, m.length, m.buf) }

  function BindingsOf(t: seq<Mr>): (m: Bindings) {
    map s: nat | s < |t| && t[s].valid :: LiveRegion(t[s])
  }

  lemma {:induction false} SetLive(t: seq<Mr>, s: nat, r: Mr)
    requires s < |t| && r.valid
    ensures BindingsOf(t[s := r]) == BindingsOf(t)[s := LiveRegion(r)]
  {
  }

  lemma {:induction false} SetDead(t: seq<Mr>, s: nat, r: Mr)
    requires s < |t| && !r.valid
    ensures BindingsOf(t[s := r]) == BindingsOf(t) - {s}
  {
  }

  class Table {
    const mr: array<Mr>

    constructor ()
      ensures mr.Length == MAX_MR && fresh(mr) && View() == map[]
    {
      mr := new Mr[MAX_MR](i => Mr(false, 0, 0, 0, Direct(0)));
      new;
      assert BindingsOf(mr[..]) == map[];
    }

    ghost function View(): (m: Bindings)
      reads mr
    {
      BindingsOf(mr[..])
    }

    /** mr_find() */
    method MrFind(key: nat) returns (r: Option<Region>)
      requires mr.Length == MAX_MR
      ensures r == Lookup(View(), key)
    {
      var slot := Slot(key);
      if slot.None? {
        return None;
      }
      var m := mr[slot.value];
      r := if m.valid && m.lkey == key then Some(LiveRegion(m)) else None;
    }

    /** dp_mr_unbind(): the region's buffer is released with it. */
    method Unbind(s: nat)
      requires s < mr.Length
      modifies mr
      ensures View() == Unbound(old(View()), s)
    {
      ghost var t := mr[..];
      mr[s] := mr[s].(valid := false, buf := Direct(0));
      assert mr[..] == t[s := mr[s]];
      SetDead(t, s, mr[s]);
    }

    /** ionic_datapath_register_mr() */
    method RegisterMr(key: nat, va: nat, length: nat, desc: BufDesc, table: TableRead) returns (ok: bool)
      requires mr.Length == MAX_MR
      modifies mr
      ensures View() == Registered(old(View()), key, va, length, desc, table)
      ensures ok == Accepts(Register(key, va, length, desc, table)) == Lookup(View(), key).Some?
    {
      AcceptsExactly(Register(key, va, length, desc, table));
      var slot := Slot(key);
      if slot.None? {
        return false;
      }
      if length > U64 - 1 - va {
        UnregisterMr(key);
        return false;
      }
      var s := slot.value;
      var buf := BufInit(desc, va, length, table);
      if buf.None? {
        Unbind(s);
        return false;
      }
      ghost var t := mr[..];
      mr[s] := Mr(true, key, va, length, buf.value);
      assert mr[..] == t[s := mr[s]];
      SetLive(t, s, mr[s]);
      return true;
    }

    /** ionic_datapath_unregister_mr() */
    method UnregisterMr(key: nat)
      requires mr.Length == MAX_MR
      modifies mr
      ensures View() == Unregistered(old(View()), key)
    {
      var slot := Slot(key);
      if slot.Some? {
        Unbind(slot.value);
      }
    }

    /** dp_local_inv() */
    method LocalInvalidate(key: nat)
      requires mr.Length == MAX_MR
      modifies mr
      ensures View() == Invalidated(old(View()), key)
    {
      var r := MrFind(key);
      if r.Some? {
        Unbind(Slot(key).value);
      }
    }
  }
}
