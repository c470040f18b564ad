/** Copying between host buffers and guest memory. The layer below maps a span
    of guest memory as a list of host segments, and refuses a span that would
    need too long a list; such a span is halved, and halved again. */
module Dma {
  import opened Arith
  import opened Wire

  /** Guest memory: a byte at every address that is mapped. */
  type Memory = map<nat, byte>

  /** What the layer below says of a span. */
  datatype Answer =
    | TooMany                   // it needs more segments than the list holds
    | Refused                   // it isn't mapped, or not for this direction
    | Segments(lens: seq<nat>)  // the segments' lengths, in address order

  function Total(lens: seq<nat>): (n: nat) {
    if lens == [] then 0 else Total(lens[..|lens| - 1]) + lens[|lens| - 1]
  }

  /** Whether all of n bytes at gpa are mapped. */
  predicate Mapped(mem: Memory, gpa: nat, n: nat) {
    n == 0 || (Mapped(mem, gpa, n - 1) && gpa + n - 1 in mem)
  }

  lemma {:induction false} MappedPrefix(mem: Memory, gpa: nat, n: nat, k: nat)
    requires Mapped(mem, gpa, n) && k <= n
    ensures Mapped(mem, gpa, k)
  {
    if k < n {
      MappedPrefix(mem, gpa, n - 1, k);
    }
  }

  lemma {:induction false} MappedTwice(mem: Memory, gpa: nat, n: nat, k: nat)
    ensures Mapped(mem, gpa, n + k) <==> Mapped(mem, gpa, n) && Mapped(mem, gpa + n, k)
  {
    if k > 0 {
      MappedTwice(mem, gpa, n, k - 1);
    }
  }

  lemma {:induction false} MappedKeys(m: Memory, m': Memory, gpa: nat, n: nat)
    requires m.Keys == m'.Keys
    ensures Mapped(m, gpa, n) <==> Mapped(m', gpa, n)
  {
    if n > 0 {
      MappedKeys(m, m', gpa, n - 1);
    }
  }

  lemma {:induction false} MappedAt(mem: Memory, gpa: nat, n: nat)
    ensures Mapped(mem, gpa, n) <==> forall a :: gpa <= a < gpa + n ==> a in mem
  {
    if n > 0 {
      MappedAt(mem, gpa, n - 1);
    }
  }

  // ---------------------------------------------------------------------
  // What a transfer moves
  // ---------------------------------------------------------------------

  /** A transfer's state: guest memory and the host buffer. */
  datatype Side = Side(mem: Memory, buf: seq<byte>)

  /** One byte, into the guest or out of it; none if there is none. */
  function MoveByte(write: bool, a: Side, g: nat, o: nat): (b: Side) {
    if g !in a.mem || o >= |a.buf| then a
    else if write then a.(mem := a.mem[g := a.buf[o]])
    else a.(buf := a.buf[o := a.mem[g]])
  }

  /** n bytes moved one at a time. */
  function Move(write: bool, a: Side, gpa: nat, off: nat, n: nat): (b: Side) {
    if n == 0 then a else MoveByte(write, Move(write, a, gpa, off, n - 1), gpa + n - 1, off + n - 1)
  }

  /** Whether n bytes at gpa and at buf[off] can be moved. */
  predicate Movable(a: Side, gpa: nat, off: nat, n: nat) {
    off + n <= |a.buf| && Mapped(a.mem, gpa, n)
  }

  lemma {:induction false} MoveShape(write: bool, a: Side, gpa: nat, off: nat, n: nat)
    ensures var b := Move(write, a, gpa, off, n); b.mem.Keys == a.mem.Keys && |b.buf| == |a.buf|
    ensures var b := Move(write, a, gpa, off, n); if write then b.buf == a.buf else b.mem == a.mem
  {
    if n > 0 {
      MoveShape(write, a, gpa, off, n - 1);
    }
  }

  lemma {:induction false} MoveNext(write: bool, a: Side, gpa: nat, off: nat, n: nat)
    ensures Move(write, a, gpa, off, n + 1) == MoveByte(write, Move(write, a, gpa, off, n), gpa + n, off + n)
  {
  }

  /** Moving n bytes and then k more. */
  lemma {:induction false} MoveTwice(write: bool, a: Side, gpa: nat, off: nat, n: nat, k: nat)
    ensures Move(write, Move(write, a, gpa, off, n), gpa + n, off + n, k) == Move(write, a, gpa, off, n + k)
  {
    if k > 0 {
      MoveTwice(write, a, gpa, off, n, k - 1);
    }
  }

  /** What is where afterwards. */
  lemma {:induction false} WroteAt(a: Side, gpa: nat, off: nat, n: nat, x: nat)
    requires Movable(a, gpa, off, n) && x in a.mem
    ensures var b := Move(true, a, gpa, off, n);
      b.buf == a.buf && x in b.mem && b.mem[x] == if gpa <= x < gpa + n then a.buf[off + x - gpa] else a.mem[x]
  {
    if n > 0 {
      MoveShape(true, a, gpa, off, n - 1);
      WroteAt(a, gpa, off, n - 1, x);
    }
  }

  /** A byte of what is to be moved is mapped. */
  lemma {:induction false} MovableAt(a: Side, gpa: nat, off: nat, n: nat, o: nat)
    requires Movable(a, gpa, off, n) && off <= o < off + n
    ensures gpa + o - off in a.mem
  {
    MappedAt(a.mem, gpa, n);
  }

  lemma {:induction false} ReadAt(a: Side, gpa: nat, off: nat, n: nat, o: nat)
    requires Movable(a, gpa, off, n) && o < |a.buf|
    ensures var b := Move(false, a, gpa, off, n);
      && b.mem == a.mem && o < |b.buf|
      && b.buf[o] == if off <= o < off + n then (MovableAt(a, gpa, off, n, o); a.mem[gpa + o - off]) else a.buf[o]
  {
    if n > 0 {
      MoveShape(false, a, gpa, off, n - 1);
      ReadAt(a, gpa, off, n - 1, o);
    }
  }

  // ---------------------------------------------------------------------
  // Halving
  // ---------------------------------------------------------------------

  const DEPTH := 64             // one pending piece for each bit of a size_t

  lemma {:induction false} Pow2Bits()
    ensures Pow2(DEPTH) == U64
  {
    Pow2Word();
    Pow2Add(32, 32);
  }

  /** Whether x is at most len / 2^k, rounded up. */
  predicate Fits(x: nat, k: nat, len: nat) {
    x >= 1 && (x - 1) * Pow2(k) < len
  }

  /** The quotient rounded up. */
  function CeilDiv(n: nat, d: nat): (q: nat)
    requires d > 0
  {
    (n + d - 1) / d
  }

  lemma {:induction false} FitsIsCeil(x: nat, k: nat, len: nat)
    requires x >= 1
    ensures Fits(x, k, len) <==> x <= CeilDiv(len, Pow2(k))
  {
    var d := Pow2(k);
    var q := CeilDiv(len, d);
    DivBound(len + d - 1, d);
    if x <= q {
      MulMonotone(x - 1, q - 1, d);
      MinusOne(q, d);
    } else {
      MulMonotone(q, x - 1, d);
      MinusOne(q + 1, d);
    }
  }

  lemma {:induction false} DivBound(n: nat, d: nat)
    requires d > 0
    ensures (n / d) * d <= n < (n / d) * d + d
  {
  }

  lemma {:induction false} MinusOne(q: int, d: int)
    ensures (q - 1) * d == q * d - d
  {
  }

  lemma {:induction false} HalvesFit(x: nat, k: nat, len: nat)
    requires Fits(x, k, len) && x >= 2
    ensures Fits(x / 2, k + 1, len) && Fits(x - x / 2, k + 1, len)
  {
    var p := Pow2(k);
    var h := x - x / 2;
    MulMonotone(2 * (h - 1), x - 1, p);
    MulMonotone(2 * (x / 2 - 1), x - 1, p);
    assert (h - 1) * Pow2(k + 1) == 2 * (h - 1) * p;
    assert (x / 2 - 1) * Pow2(k + 1) == 2 * (x / 2 - 1) * p;
  }

  lemma {:induction false} FitsShallower(x: nat, k: nat, len: nat)
    requires Fits(x, k + 1, len)
    ensures Fits(x, k, len)
  {
    assert (x - 1) * Pow2(k + 1) == 2 * ((x - 1) * Pow2(k));
    MulMonotone(0, x - 1, Pow2(k));
  }

  /** A piece that can be halved is not yet at the last bit. */
  lemma {:induction false} RoomToSplit(x: nat, k: nat, len: nat)
    requires Fits(x, k, len) && x >= 2 && len < U64
    ensures k < DEPTH
  {
    MulMonotone(1, x - 1, Pow2(k));
    if k >= DEPTH {
      Pow2Bits();
      Pow2Monotone(DEPTH, k);
    }
  }

  lemma {:induction false} TotalOne(s: seq<nat>, x: nat)
    ensures Total(s + [x]) == Total(s) + x
  {
  }

  lemma {:induction false} TotalAtLeast(s: seq<nat>)
    requires forall i :: 0 <= i < |s| ==> s[i] >= 1
    ensures Total(s) >= |s|
  {
    if s != [] {
      TotalAtLeast(s[..|s| - 1]);
    }
  }

  lemma {:induction false} TotalNext(s: seq<nat>, i: nat)
    requires i < |s|
    ensures Total(s[..i + 1]) == Total(s[..i]) + s[i] <= Total(s)
  {
    assert s[..i + 1][..i] == s[..i];
    TotalUpTo(s, i + 1);
  }

  lemma {:induction false} TotalUpTo(s: seq<nat>, i: nat)
    requires i <= |s|
    ensures Total(s[..i]) <= Total(s) && (i == |s| ==> s[..i] == s)
  {
    if i < |s| {
      TotalUpTo(s[..|s| - 1], i);
      assert s[..|s| - 1][..i] == s[..i];
    } else {
      assert s[..i] == s;
    }
  }

  /** The pieces still to be done, and the one in hand: at least a byte each,
      halved no deeper than they may be. */
  predicate PiecesOk(pending: seq<nat>, piece: nat, len: nat) {
    && |pending| <= DEPTH
    && Fits(piece, |pending|, len)
    && forall i :: 0 <= i < |pending| ==> Fits(pending[i], i + 1, len)
  }

  /** What has been done, the piece in hand and the pieces pending make up the
      transfer. */
  predicate Remaining(pending: seq<nat>, piece: nat, done: nat, len: nat) {
    PiecesOk(pending, piece, len) && done + piece + Total(pending) == len
  }

  lemma {:induction false} FirstPiece(len: nat)
    requires len > 0
    ensures Remaining([], len, 0, len)
  {
    assert Pow2(0) == 1;
  }

  lemma {:induction false} InRange(pending: seq<nat>, piece: nat, done: nat, len: nat)
    requires Remaining(pending, piece, done, len)
    ensures piece >= 1 && |pending| + piece <= len - done
  {
    TotalAtLeast(pending);
  }

  lemma {:induction false} SplitPieces(pending: seq<nat>, piece: nat, done: nat, len: nat)
    requires Remaining(pending, piece, done, len) && piece >= 2 && len < U64
    ensures |pending| < DEPTH
    ensures Remaining(pending + [piece - piece / 2], piece / 2, done, len)
  {
    RoomToSplit(piece, |pending|, len);
    HalvesFit(piece, |pending|, len);
    TotalOne(pending, piece - piece / 2);
  }

  lemma {:induction false} NextPiece(pending: seq<nat>, piece: nat, done: nat, len: nat)
    requires Remaining(pending, piece, done, len) && pending != []
    ensures Remaining(pending[..|pending| - 1], pending[|pending| - 1], done + piece, len)
  {
    FitsShallower(pending[|pending| - 1], |pending| - 1, len);
  }

  // ---------------------------------------------------------------------
  // The transfer
  // ---------------------------------------------------------------------

  datatype Rc = Done | TooBig | EIo | EInval

  /** ernic_dma_range_ok() */
  predicate RangeOk(gpa: nat, len: nat)
    requires gpa < U64 && len < U64
  {
    gpa <= U64 - 1 - len
  }

  /** The mapping layer hands out segments of mapped memory only. */
  ghost predicate LayerOk(mem: Memory, layer: (nat, nat) -> Answer) {
    forall g: nat, n: nat :: layer(g, n).Segments? ==> Mapped(mem, g, Total(layer(g, n).lens))
  }

  /** Copying changes what is mapped nowhere. */
  lemma {:induction false} LayerStays(m: Memory, m': Memory, layer: (nat, nat) -> Answer)
    requires LayerOk(m, layer) && m.Keys == m'.Keys
    ensures LayerOk(m', layer)
  {
    forall g: nat, n: nat | layer(g, n).Segments? ensures Mapped(m', g, Total(layer(g, n).lens)) {
      MappedKeys(m, m', g, Total(layer(g, n).lens));
    }
  }

  /** Whether the layer gives any part of a span, or has it halved. */
  ghost predicate Serves(layer: (nat, nat) -> Answer, gpa: nat, len: nat) {
    forall g: nat, n: nat :: gpa <= g && n >= 1 && g + n <= gpa + len ==> Given(layer(g, n), n)
  }

  predicate Given(a: Answer, n: nat) {
    (a.TooMany? && n > 1) || (a.Segments? && a.lens != [] && Total(a.lens) >= n)
  }

  /** Guest memory and the host buffer a transfer fills or empties. */
  class Transfer {
    var mem: Memory
    var buf: seq<byte>

    constructor (m: Memory, b: seq<byte>)
      ensures Now() == Side(m, b)
    {
      mem, buf := m, b;
    }

    ghost function Now(): (s: Side)
      reads this
    {
      Side(mem, buf)
    }

    method CopyByte(write: bool, g: nat, o: nat)
      requires g in mem && o < |buf|
      modifies this
      ensures Now() == MoveByte(write, old(Now()), g, o)
    {
      if write {
        mem := mem[g := buf[o]];
      } else {
        buf := buf[o := mem[g]];
      }
    }

    /** The next k bytes of a transfer that began in the state was: memcpy()
        through a segment. */
    method Copy(write: bool, ghost was: Side, gpa: nat, off: nat, done: nat, k: nat)
      requires Movable(was, gpa, off, done + k) && Now() == Move(write, was, gpa, off, done)
      modifies this
      ensures Now() == Move(write, was, gpa, off, done + k)
    {
      for i := 0 to k
        invariant Now() == Move(write, was, gpa, off, done + i)
      {
        MappedPrefix(was.mem, gpa, done + k, done + i + 1);
        MoveShape(write, was, gpa, off, done + i);
        CopyByte(write, gpa + done + i, off + done + i);
      }
    }

    /** dma_xfer_piece()'s loop over the segments: copied counts what this
        piece has moved. */
    method CopySegments(lens: seq<nat>, write: bool, ghost was: Side, gpa: nat,
                        off: nat, done: nat, len: nat)
      returns (copied: nat)
      requires Movable(was, gpa, off, done) && Now() == Move(write, was, gpa, off, done)
      requires off + done + len <= |was.buf| && Mapped(was.mem, gpa + done, Total(lens))
      modifies this
      ensures copied == if Total(lens) < len then Total(lens) else len
      ensures Movable(was, gpa, off, done + copied) && Now() == Move(write, was, gpa, off, done + copied)
    {
      copied := 0;
      var i := 0;
      while i < |lens| && copied < len
        invariant i <= |lens| && copied <= len
        invariant copied == if Total(lens[..i]) < len then Total(lens[..i]) else len
        invariant Movable(was, gpa, off, done + copied) && Now() == Move(write, was, gpa, off, done + copied)
      {
        var n: nat := if lens[i] > len - copied then len - copied else lens[i];
        TotalNext(lens, i);
        MappedTwice(was.mem, gpa, done, Total(lens));
        MappedPrefix(was.mem, gpa, done + Total(lens), done + copied + n);
        Copy(write, was, gpa, off, done + copied, n);
        copied := copied + n;
        i := i + 1;
      }
      TotalUpTo(lens, i);
    }

    /** dma_xfer_piece(), given what the layer says of the piece, which is the
        transfer's next. moved counts the bytes it moved before it stopped. */
    method XferPiece(answer: Answer, write: bool, ghost was: Side, gpa: nat,
                     off: nat, done: nat, len: nat)
      returns (rc: Rc, ghost moved: nat)
      requires Movable(was, gpa, off, done) && Now() == Move(write, was, gpa, off, done)
      requires len >= 1 && off + done + len <= |was.buf|
      requires answer.Segments? ==> Mapped(was.mem, gpa + done, Total(answer.lens))
      modifies this
      ensures rc == TooBig <==> answer.TooMany? && len > 1
      ensures rc == Done <==> answer.Segments? && answer.lens != [] && Total(answer.lens) >= len
      ensures rc != EInval && moved <= len && (rc == Done ==> moved == len) && (rc == TooBig ==> moved == 0)
      ensures Movable(was, gpa, off, done + moved) && Now() == Move(write, was, gpa, off, done + moved)
    {
      if answer.Segments? && answer.lens != [] {
        var copied := CopySegments(answer.lens, write, was, gpa, off, done, len);
        return if copied == len then Done else EIo, copied;
      }
      return if answer.TooMany? && len > 1 then TooBig else EIo, 0;
    }

    /** dma_xfer(): the whole range, in order, or a prefix of it and an error. */
    method Xfer(layer: (nat, nat) -> Answer, write: bool, gpa: nat, off: nat, len: nat)
      returns (rc: Rc, ghost moved: nat)
      requires gpa < U64 && len < U64 && off + len <= |buf| && LayerOk(mem, layer)
      modifies this
      ensures rc == EInval <==> !RangeOk(gpa, len)
      ensures rc != TooBig && moved <= len && (rc == Done ==> moved == len) && (rc == EInval ==> moved == 0)
      ensures Movable(old(Now()), gpa, off, moved)
      ensures Now() == Move(write, old(Now()), gpa, off, moved)
      ensures mem.Keys == old(mem).Keys && |buf| == |old(buf)|
      ensures RangeOk(gpa, len) && Serves(layer, gpa, len) ==> rc == Done
    {
      if !RangeOk(gpa, len) {
        return EInval, 0;
      }
      if len == 0 {
        return Done, 0;
      }
      ghost var was := Now();
      rc, moved := XferPieces(layer, write, was, gpa, off, len);
      MoveShape(write, was, gpa, off, moved);
    }

    /** dma_xfer()'s loop. A piece that needs too many segments is halved: the
        second half waits on a stack that holds one for each bit of len. */
    method XferPieces(layer: (nat, nat) -> Answer, write: bool, ghost was: Side, gpa: nat,
                      off: nat, len: nat)
      returns (rc: Rc, ghost moved: nat)
      requires gpa < U64 && 0 < len < U64 && off + len <= |buf| && RangeOk(gpa, len)
      requires was == Now() && LayerOk(was.mem, layer)
      modifies this
      ensures (rc == Done || rc == EIo) && moved <= len && (rc == Done ==> moved == len)
      ensures Movable(was, gpa, off, moved) && Now() == Move(write, was, gpa, off, moved)
      ensures Serves(layer, gpa, len) ==> rc == Done
    {
      var pending: seq<nat> := [];
      var done: nat, piece: nat := 0, len;
      FirstPiece(len);
      while true
        invariant Remaining(pending, piece, done, len)
        invariant Movable(was, gpa, off, done) && Now() == Move(write, was, gpa, off, done)
        decreases 2 * (len - done) - |pending|
      {
        InRange(pending, piece, done, len);
        var answer := layer(gpa + done, piece);
        var r, m := XferPiece(answer, write, was, gpa, off, done, piece);
        if r == EIo {
          assert !Given(answer, piece);
          return EIo, done + m;
        }
        if r == TooBig {
          SplitPieces(pending, piece, done, len);
          assert |pending| < DEPTH;
          pending, piece := pending + [piece - piece / 2], piece / 2;
        } else {
          if pending == [] {
            return Done, len;
          }
          NextPiece(pending, piece, done, len);
          done := done + piece;
          pending, piece := pending[..|pending| - 1], pending[|pending| - 1];
        }
      }
    }
  }
}
