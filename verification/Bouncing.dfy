/** Copies from guest memory to guest memory, told exactly: also where source and
    destination overlap, and it shows where the device's turns end. */
module Bouncing {
  import opened Wire
  import opened Dma
  import opened Regions
  import opened Copying
  import opened Turns

  const BOUNCE := 4096

  function Least(a: nat, b: nat, c: nat): (n: nat)
    requires a > 0 && b > 0 && c > 0
    ensures 0 < n <= a && n <= b && n <= c && n <= BOUNCE
  {
    var x := if a > b then b else a;
    var y := if x > c then c else x;
    if y > BOUNCE then BOUNCE else y
  }

  /** How many bytes one turn of dp_copy_sge() is for, d bytes into len: none if
      either end resolves to nothing. */
  function TurnLen(m: Bindings, dst: Va, src: Va, len: nat, d: nat): (n: nat)
    requires d < len
    ensures n <= len - d
  {
    var srun, drun := SgeRun(m, Ahead(src, d)), SgeRun(m, Ahead(dst, d));
    if srun.len == 0 || drun.len == 0 then 0 else Least(len - d, srun.len, drun.len)
  }

  /** Memory once the k bytes from the d-th on have been copied at once. */
  function TurnTo(mem: Memory, m: Bindings, dst: Va, src: Va, d: nat, k: nat): (r: Memory) {
    Linear(mem, Span(m, Ahead(src, d), k), Span(m, Ahead(dst, d), k))
  }

  /** dp_copy_sge()'s turns, over len bytes. */
  function Bouncing(m: Bindings, dst: Va, src: Va, len: nat): (w: Work<Memory>) {
    Work((mem: Memory, d: nat, e: nat) => if d <= e then TurnTo(mem, m, dst, src, d, e - d) else mem,
         (mem: Memory, d: nat) => TurnUnits(m, dst, src, len, d),
         (mem: Memory) => 0)
  }

  /** How many bytes a whole turn from the d-th on takes: all there are, if it is
      one that can't be taken. */
  function TurnUnits(m: Bindings, dst: Va, src: Va, len: nat, d: nat): (n: nat) {
    if d >= len then 0
    else if TurnLen(m, dst, src, len, d) == 0 then len - d
    else TurnLen(m, dst, src, len, d)
  }

  lemma {:induction false} BouncingIs(mem: Memory, m: Bindings, dst: Va, src: Va, len: nat, d: nat, k: nat, e: nat)
    requires e == d + k
    ensures var w := Bouncing(m, dst, src, len);
      w.turn(mem, d, e) == TurnTo(mem, m, dst, src, d, k) && w.units(mem, d) == TurnUnits(m, dst, src, len, d)
  {
  }

  lemma {:induction false} BouncingIdles(mem: Memory, m: Bindings, dst: Va, src: Va, len: nat, d: nat)
    ensures Idles(Bouncing(m, dst, src, len), Itself, mem, d)
  {
    BouncingIs(mem, m, dst, src, len, d, 0, d);
    NoTurn(mem, m, dst, src, d);
  }

  /** Guest memory once dp_copy_sge() has copied n of len bytes: a turn at a time,
      each turn's bytes read before any of them is written, so that where source
      and destination overlap it shows where the turns end. */
  function Bounced(mem: Memory, m: Bindings, dst: Va, src: Va, len: nat, n: nat): (r: Memory) {
    Worked(Bouncing(m, dst, src, len), mem, 0, n)
  }

  lemma {:induction false} NoTurn(mem: Memory, m: Bindings, dst: Va, src: Va, d: nat)
    ensures TurnTo(mem, m, dst, src, d, 0) == mem
  {
  }

  /** What a turn moves is the first of its bytes. */
  lemma {:induction false} TurnIs(mem: Memory, m: Bindings, dst: Va, src: Va, d: nat, n: nat, k: nat)
    requires k <= n
    ensures Linear(mem, Span(m, Ahead(src, d), n)[..k], Span(m, Ahead(dst, d), n)[..k])
         == TurnTo(mem, m, dst, src, d, k)
  {
    SpanTake(m, Ahead(src, d), n, k);
    SpanTake(m, Ahead(dst, d), n, k);
  }

  function Itself(mem: Memory): (r: Memory) { mem }

  /** Where it has got to after d bytes. */
  ghost predicate CopyingAt(was: Memory, mem: Memory, m: Bindings, dst: Va, src: Va, len: nat, d: nat) {
    Resumes(Bouncing(m, dst, src, len), Itself, was, mem, d)
  }

  lemma {:induction false} CopyingBegins(was: Memory, m: Bindings, dst: Va, src: Va, len: nat)
    ensures CopyingAt(was, was, m, dst, src, len, 0)
  {
    Begins(Bouncing(m, dst, src, len), Itself, was);
  }

  /** A turn that moves k of its n bytes, and ends there. */
  lemma {:induction false} CopyingCut(was: Memory, mem: Memory, m: Bindings, dst: Va, src: Va, len: nat, d: nat, n: nat,
                                      k: nat, e: nat)
    requires CopyingAt(was, mem, m, dst, src, len, d) && d < len && n == TurnLen(m, dst, src, len, d)
    requires k <= n && e == d + k
    ensures TurnTo(mem, m, dst, src, d, k) == Bounced(was, m, dst, src, len, e)
  {
    BouncingIdles(mem, m, dst, src, len, d);
    BouncingIs(mem, m, dst, src, len, d, k, e);
    CutAt(Bouncing(m, dst, src, len), Itself, was, mem, d, e);
  }

  /** One that moves them all. */
  lemma {:induction false} CopyingOn(was: Memory, mem: Memory, m: Bindings, dst: Va, src: Va, len: nat, d: nat, n: nat,
                                     e: nat)
    requires CopyingAt(was, mem, m, dst, src, len, d) && d < len && n == TurnLen(m, dst, src, len, d) && 0 < n
    requires e == d + n
    ensures CopyingAt(was, TurnTo(mem, m, dst, src, d, n), m, dst, src, len, e)
  {
    BouncingIdles(mem, m, dst, src, len, d);
    BouncingIs(mem, m, dst, src, len, d, n, e);
    TurnOn(Bouncing(m, dst, src, len), Itself, was, mem, d, e);
  }

  lemma {:induction false} CopyingEnds(was: Memory, mem: Memory, m: Bindings, dst: Va, src: Va, len: nat, d: nat)
    requires CopyingAt(was, mem, m, dst, src, len, d)
    ensures mem == Bounced(was, m, dst, src, len, d)
  {
    StopsAt(Bouncing(m, dst, src, len), Itself, was, mem, d);
  }

  lemma {:induction false} LinearOn(m: Bindings, was: Memory, src: Va, dst: Va, len: nat, d: nat, n: nat, k: nat)
    requires d + n <= len && k <= n && Apart(Span(m, src, len), Span(m, dst, len))
    ensures Linear(Linear(was, Span(m, src, len)[..d], Span(m, dst, len)[..d]),
                   Span(m, Ahead(src, d), n)[..k], Span(m, Ahead(dst, d), n)[..k])
         == Linear(was, Span(m, src, len)[..d + k], Span(m, dst, len)[..d + k])
  {
    SpanSlice(m, src, len, d, k);
    SpanSlice(m, dst, len, d, k);
    SpanTake(m, Ahead(src, d), n, k);
    SpanTake(m, Ahead(dst, d), n, k);
    LinearTwice(was, Span(m, src, len), Span(m, dst, len), d, k);
  }

  lemma {:induction false} TurnApart(was: Memory, m: Bindings, dst: Va, src: Va, len: nat, d: nat, k: nat, e: nat)
    requires e == d + k <= len && Apart(Span(m, src, len), Span(m, dst, len))
    ensures var s, t := Span(m, src, len), Span(m, dst, len);
      TurnTo(Linear(was, s[..d], t[..d]), m, dst, src, d, k) == Linear(was, s[..e], t[..e])
  {
    LinearOn(m, was, src, dst, len, d, k, k);
    TurnIs(Linear(was, Span(m, src, len)[..d], Span(m, dst, len)[..d]), m, dst, src, d, k, k);
  }

  lemma {:induction false} LinearNone(was: Memory, s: Places, t: Places)
    ensures Linear(was, s[..0], t[..0]) == was
  {
    assert s[..0] == [] && t[..0] == [];
  }

  /** Memory with the first d of some bytes copied. */
  function CopiedTo(was: Memory, s: Places, t: Places, d: nat): (r: Memory) {
    if d <= |s| && d <= |t| then Linear(was, s[..d], t[..d]) else was
  }

  lemma {:induction false} CopiedOn(was: Memory, m: Bindings, dst: Va, src: Va, len: nat, mem: Memory, d: nat, e: nat)
    requires d <= e <= len && Apart(Span(m, src, len), Span(m, dst, len))
    requires mem == CopiedTo(was, Span(m, src, len), Span(m, dst, len), d)
    ensures Bouncing(m, dst, src, len).turn(mem, d, e) == CopiedTo(was, Span(m, src, len), Span(m, dst, len), e)
  {
    BouncingIs(mem, m, dst, src, len, d, e - d, e);
    TurnApart(was, m, dst, src, len, d, e - d, e);
  }

  /** Between pieces of memory that don't overlap the turns don't show: what
      arrives is what the source held to begin with. */
  lemma {:induction false} BouncedApart(was: Memory, m: Bindings, dst: Va, src: Va, len: nat, n: nat)
    requires n <= len && Apart(Span(m, src, len), Span(m, dst, len))
    ensures Bounced(was, m, dst, src, len, n) == CopiedTo(was, Span(m, src, len), Span(m, dst, len), n)
  {
    var w, s, t := Bouncing(m, dst, src, len), Span(m, src, len), Span(m, dst, len);
    var ok := (mem: Memory, d: nat) => d < len;
    var at := (d: nat) => CopiedTo(was, s, t, d);
    LinearNone(was, s, t);
    forall mem, d: nat, e: nat ensures Keeps(w, Itself, ok, at, n, mem, d, e) {
      if mem == at(d) && d < n && d <= e <= n {
        CopiedOn(was, m, dst, src, len, mem, d, e);
        BouncingIs(mem, m, dst, src, len, d, e - d, e);
      }
    }
    WorkKeeps(w, Itself, ok, at, was, 0, n);
  }

  // ---------------------------------------------------------------------
  // Two lists in lockstep
  // ---------------------------------------------------------------------

  function Shorter(a: Places, b: Places): (n: nat) { if |a| < |b| then |a| else |b| }

  /** A place in each of two lists: an entry, and so many bytes into it. */
  datatype Pos = Pos(si: nat, soff: nat, di: nat, doff: nat)

  const FRONT := Pos(0, 0, 0, 0)

  predicate InLists(sl: seq<Sge>, dl: seq<Sge>, p: Pos) {
    p.si < |sl| && p.di < |dl| && p.soff <= sl[p.si].len && p.doff <= dl[p.di].len
  }

  /** What is left of both entries. */
  function Overlap(sl: seq<Sge>, dl: seq<Sge>, p: Pos): (n: nat)
    requires InLists(sl, dl, p)
  {
    var s, d := sl[p.si].len - p.soff, dl[p.di].len - p.doff;
    if s < d then s else d
  }

  function NextPos(sl: seq<Sge>, dl: seq<Sge>, p: Pos): (r: Pos)
    requires InLists(sl, dl, p)
    ensures r.si + r.di > p.si + p.di && r.si <= |sl| && r.di <= |dl|
  {
    var c := Overlap(sl, dl, p);
    var s, d := p.soff + c == sl[p.si].len, p.doff + c == dl[p.di].len;
    Pos(if s then p.si + 1 else p.si, if s then 0 else p.soff + c,
        if d then p.di + 1 else p.di, if d then 0 else p.doff + c)
  }

  /** Memory once k of them have been copied. */
  function OverlapTo(mem: Memory, m: Bindings, sl: seq<Sge>, dl: seq<Sge>, p: Pos, k: nat): (r: Memory)
    requires InLists(sl, dl, p)
  {
    Bounced(mem, m, Ahead(Entry(dl[p.di]), p.doff), Ahead(Entry(sl[p.si]), p.soff), Overlap(sl, dl, p), k)
  }

  /** Where a walk over two lists is. */
  datatype Walk = Walk(mem: Memory, p: Pos)

  function MemOf(w: Walk): (mem: Memory) { w.mem }

  function EntriesLeft(sl: seq<Sge>, dl: seq<Sge>, p: Pos): (n: nat) {
    if InLists(sl, dl, p) then 1 + |sl| + |dl| - p.si - p.di else 0
  }

  /** The walk's turns: as much as is left of both entries. */
  function Walking(m: Bindings, sl: seq<Sge>, dl: seq<Sge>): (w: Work<Walk>) {
    Work((x: Walk, n: nat, e: nat) =>
           if n <= e && InLists(sl, dl, x.p)
           then Walk(OverlapTo(x.mem, m, sl, dl, x.p, e - n), NextPos(sl, dl, x.p)) else x,
         (x: Walk, n: nat) => if InLists(sl, dl, x.p) then Overlap(sl, dl, x.p) else 0,
         (x: Walk) => EntriesLeft(sl, dl, x.p))
  }

  /** Memory once the walk has copied n bytes. */
  function Walked(mem: Memory, m: Bindings, sl: seq<Sge>, dl: seq<Sge>, n: nat): (r: Memory) {
    Worked(Walking(m, sl, dl), Walk(mem, FRONT), 0, n).mem
  }

  lemma {:induction false} WalkingIs(x: Walk, m: Bindings, sl: seq<Sge>, dl: seq<Sge>, n: nat, k: nat, e: nat)
    requires InLists(sl, dl, x.p) && e == n + k
    ensures var w := Walking(m, sl, dl);
      && w.turn(x, n, e) == Walk(OverlapTo(x.mem, m, sl, dl, x.p, k), NextPos(sl, dl, x.p))
      && w.units(x, n) == Overlap(sl, dl, x.p) && w.rank(w.turn(x, n, e)) < w.rank(x)
  {
  }

  lemma {:induction false} WalkingIdles(x: Walk, m: Bindings, sl: seq<Sge>, dl: seq<Sge>, n: nat)
    requires InLists(sl, dl, x.p)
    ensures Idles(Walking(m, sl, dl), MemOf, x, n)
  {
    WalkingIs(x, m, sl, dl, n, 0, n);
    NoOverlap(x.mem, m, sl, dl, x.p);
  }

  lemma {:induction false} NoOverlap(mem: Memory, m: Bindings, sl: seq<Sge>, dl: seq<Sge>, p: Pos)
    requires InLists(sl, dl, p)
    ensures OverlapTo(mem, m, sl, dl, p, 0) == mem
  {
  }

  /** Where it has got to after n bytes. */
  ghost predicate WalkingAt(was: Memory, x: Walk, m: Bindings, sl: seq<Sge>, dl: seq<Sge>, n: nat) {
    Resumes(Walking(m, sl, dl), MemOf, Walk(was, FRONT), x, n)
  }

  lemma {:induction false} WalkingBegins(was: Memory, m: Bindings, sl: seq<Sge>, dl: seq<Sge>)
    ensures WalkingAt(was, Walk(was, FRONT), m, sl, dl, 0)
  {
    Begins(Walking(m, sl, dl), MemOf, Walk(was, FRONT));
  }

  lemma {:induction false} WalkingCut(was: Memory, x: Walk, m: Bindings, sl: seq<Sge>, dl: seq<Sge>, n: nat, k: nat,
                                      e: nat)
    requires WalkingAt(was, x, m, sl, dl, n) && InLists(sl, dl, x.p) && k <= Overlap(sl, dl, x.p) && e == n + k
    ensures OverlapTo(x.mem, m, sl, dl, x.p, k) == Walked(was, m, sl, dl, e)
  {
    WalkingIdles(x, m, sl, dl, n);
    WalkingIs(x, m, sl, dl, n, k, e);
    CutAt(Walking(m, sl, dl), MemOf, Walk(was, FRONT), x, n, e);
  }

  lemma {:induction false} WalkingOn(was: Memory, x: Walk, m: Bindings, sl: seq<Sge>, dl: seq<Sge>, n: nat, c: nat,
                                     e: nat)
    requires WalkingAt(was, x, m, sl, dl, n) && InLists(sl, dl, x.p) && c == Overlap(sl, dl, x.p) && e == n + c
    ensures WalkingAt(was, Walk(OverlapTo(x.mem, m, sl, dl, x.p, c), NextPos(sl, dl, x.p)), m, sl, dl, e)
  {
    WalkingIdles(x, m, sl, dl, n);
    WalkingIs(x, m, sl, dl, n, 0, n);
    WalkingIs(x, m, sl, dl, n, c, e);
    TurnOn(Walking(m, sl, dl), MemOf, Walk(was, FRONT), x, n, e);
  }

  lemma {:induction false} WalkingEnds(was: Memory, x: Walk, m: Bindings, sl: seq<Sge>, dl: seq<Sge>, n: nat)
    requires WalkingAt(was, x, m, sl, dl, n)
    ensures x.mem == Walked(was, m, sl, dl, n)
  {
    StopsAt(Walking(m, sl, dl), MemOf, Walk(was, FRONT), x, n);
  }
}
