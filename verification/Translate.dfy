/** From an offset in a buffer to guest physical addresses: one byte at a time,
    which is what the page table means, and a run at a time, which is what the
    device does. */
module Translate {
  import opened Arith
  import opened Wire

  /** struct dp_buf: memory in one piece, or in pages of 2^log2 bytes of which
      the first is entered at firstOff. */
  datatype Buf =
    | Direct(base: nat)
    | Paged(pages: seq<nat>, log2: nat, firstOff: nat)

  const PAGE_LOG2_MAX := 30
  const PAGE_LOG2_DEFAULT := 12
  const MAX_TABLE := 0x8000_0000

  predicate BufOk(b: Buf) {
    match b
    case Direct(base) => base < U64
    case Paged(pages, log2, firstOff) =>
      && log2 <= PAGE_LOG2_MAX && 1 < |pages| <= MAX_TABLE && firstOff < Pow2(log2)
      && forall i :: 0 <= i < |pages| ==> pages[i] < U64
  }

  /** Where the byte at an offset into a page table is. */
  function PageByte(pages: seq<nat>, psz: nat, abs: nat): (r: Option<nat>)
    requires psz > 0
  {
    if Quot(abs, psz) >= |pages| then None
    else Some((pages[Quot(abs, psz)] + Rem(abs, psz)) % U64)
  }

  /** Where byte off of a buffer is. */
  function ByteGpa(b: Buf, off: nat): (r: Option<nat>) {
    match b
    case Direct(base) => if off + base >= U64 then None else Some(base + off)
    case Paged(pages, log2, firstOff) =>
      if off + firstOff >= U64 then None else PageByte(pages, Pow2(log2), off + firstOff)
  }

  /** How many pages follow page idx at the very next address. */
  function Following(pages: seq<nat>, idx: nat, psz: nat): (n: nat)
    requires idx < |pages|
    ensures idx + n < |pages|
    decreases |pages| - idx
  {
    if idx + 1 < |pages| && pages[idx + 1] == (pages[idx] + psz) % U64
    then 1 + Following(pages, idx + 1, psz) else 0
  }

  /** A run: its first byte's address and its length, 0 if there is none. */
  datatype Run = Run(gpa: nat, len: nat)

  /** buf_gpa() */
  function BufRun(b: Buf, off: nat): (r: Run) {
    match b
    case Direct(base) => if off + base >= U64 then Run(0, 0) else Run(base + off, U64 - 1)
    case Paged(pages, log2, firstOff) =>
      if off + firstOff >= U64 then Run(0, 0) else PageRun(pages, Pow2(log2), off + firstOff)
  }

  /** The run from an offset into a page table. */
  function PageRun(pages: seq<nat>, psz: nat, abs: nat): (r: Run)
    requires psz > 0
  {
    var idx := Quot(abs, psz);
    if idx >= |pages| then Run(0, 0)
    else Run((pages[idx] + Rem(abs, psz)) % U64,
             psz - Rem(abs, psz) + Following(pages, idx, psz) * psz)
  }

  /** buf_gpa(), with its loop over adjacent pages. */
  method BufGpa(b: Buf, off: nat) returns (r: Run)
    ensures r == BufRun(b, off)
  {
    match b
    case Direct(base) => r := if off + base >= U64 then Run(0, 0) else Run(base + off, U64 - 1);
    case Paged(pages, log2, firstOff) =>
      if off + firstOff >= U64 {
        return Run(0, 0);
      }
      r := PageGpa(pages, Pow2(log2), off + firstOff);
  }

  method PageGpa(pages: seq<nat>, psz: nat, abs: nat) returns (r: Run)
    requires psz > 0
    ensures r == PageRun(pages, psz, abs)
  {
    QuotRem(abs, psz);
    var idx := abs / psz;
    if idx >= |pages| {
      return Run(0, 0);
    }
    var gpa, len := (pages[idx] + abs % psz) % U64, psz - abs % psz;
    ghost var first := idx;
    while idx + 1 < |pages| && pages[idx + 1] == (pages[idx] + psz) % U64
      invariant first <= idx < |pages| && len >= 0
      invariant len + Following(pages, idx, psz) * psz == psz - Rem(abs, psz) + Following(pages, first, psz) * psz
      decreases |pages| - idx
    {
      OneMore(Following(pages, idx + 1, psz), psz);
      len := len + psz;
      idx := idx + 1;
    }
    assert Following(pages, idx, psz) == 0;
    r := Run(gpa, len);
  }

  // ---------------------------------------------------------------------
  // A run is its bytes
  // ---------------------------------------------------------------------

  lemma {:induction false} PageOn(x: nat, psz: nat, q: nat)
    ensures ((x + psz) % U64 + q * psz) % U64 == (x + (1 + q) * psz) % U64
  {
    OneMore(q, psz);
    ModAdd(x + psz, q * psz);
  }

  lemma {:induction false} FollowingAt(pages: seq<nat>, idx: nat, psz: nat, q: nat)
    requires idx < |pages| && q <= Following(pages, idx, psz)
    requires forall i :: 0 <= i < |pages| ==> pages[i] < U64
    ensures pages[idx + q] == (pages[idx] + q * psz) % U64
    decreases q
  {
    if q > 0 {
      FollowingAt(pages, idx + 1, psz, q - 1);
      PageOn(pages[idx], psz, q - 1);
    }
  }

  /** Byte i of a run from an offset into a page table. */
  lemma {:induction false} PageRunAt(pages: seq<nat>, psz: nat, abs: nat, i: nat)
    requires psz > 0 && i < PageRun(pages, psz, abs).len
    requires forall k :: 0 <= k < |pages| ==> pages[k] < U64
    ensures Quot(abs + i, psz) < |pages|
    ensures PageByte(pages, psz, abs + i) == Some((PageRun(pages, psz, abs).gpa + i) % U64)
  {
    var idx, poff := Quot(abs, psz), Rem(abs, psz);
    var q, r := Quot(poff + i, psz), Rem(poff + i, psz);
    QuotAdd(abs, psz, i);
    QuotBound(poff + i, psz, Following(pages, idx, psz));
    QuotProduct(poff + i, psz);
    FollowingAt(pages, idx, psz, q);
    ModAdd(pages[idx] + q * psz, r);
    ModAdd(pages[idx] + poff, i);
  }

  /** A page table's own size keeps what it covers below 2^64. */
  lemma {:induction false} Covered(abs: nat, log2: nat)
    requires Quot(abs, Pow2(log2)) < MAX_TABLE && log2 <= PAGE_LOG2_MAX
    ensures abs < U64
  {
    var psz := Pow2(log2);
    QuotProduct(abs, psz);
    Pow2Monotone(log2, 32);
    Pow2Word();
    MulGap(Quot(abs, psz), MAX_TABLE, psz);
    MulMonotone(psz, U32, MAX_TABLE);
  }

  lemma {:induction false} PagedRun(b: Buf, off: nat, i: nat)
    requires BufOk(b) && b.Paged? && i < BufRun(b, off).len
    ensures ByteGpa(b, off + i) == Some((BufRun(b, off).gpa + i) % U64)
  {
    var abs := off + b.firstOff;
    PageRunAt(b.pages, Pow2(b.log2), abs, i);
    Covered(abs + i, b.log2);
    assert off + i + b.firstOff == abs + i;
  }

  /** Every byte of the run buf_gpa() reports is where the run says, but for a
      buffer in one piece, whose run is reported without an end: there it holds
      exactly of the bytes whose address stays below 2^64. */
  lemma {:induction false} RunIsItsBytes(b: Buf, off: nat, i: nat)
    requires BufOk(b) && i < BufRun(b, off).len
    ensures var r := BufRun(b, off);
      ByteGpa(b, off + i) == Some((r.gpa + i) % U64) <==> b.Paged? || r.gpa + i < U64
  {
    if b.Paged? {
      PagedRun(b, off, i);
    }
  }

  lemma {:induction false} RunByte(b: Buf, off: nat, i: nat)
    requires BufOk(b) && i < BufRun(b, off).len && BufRun(b, off).gpa + i < U64
    ensures ByteGpa(b, off + i) == Some(BufRun(b, off).gpa + i)
  {
    if b.Paged? {
      PagedRun(b, off, i);
      SmallMod(BufRun(b, off).gpa + i);
    }
  }

  /** The exception is real: the first byte past the top of the address space
      is within the run, and nowhere. */
  lemma {:induction false} DirectRunPastTop()
    ensures var b := Direct(U64 - 1); var r := BufRun(b, 0);
      r.gpa == U64 - 1 && 1 < r.len && ByteGpa(b, 1) == None
  {
  }

  /** A run is empty exactly where the first byte is nowhere. */
  lemma {:induction false} NoRunNoByte(b: Buf, off: nat)
    requires BufOk(b)
    ensures BufRun(b, off).len == 0 <==> ByteGpa(b, off) == None
    ensures BufRun(b, off).gpa < U64
  {
  }
}
