/** Copying through scatter/gather lists. The device copies run by run; what
    its loops come to is told byte by byte. */
module Copying {
  import opened Arith
  import opened Wire
  import opened Dma
  import opened Translate
  import opened Regions

  /** A byte as a guest names it. */
  datatype Va = Va(lkey: nat, va: nat)

  predicate InRegion(r: Region, va: nat) { r.va <= va < r.va + r.length }

  /** Where the byte at va of a region is, and the run from there, held to the
      region's end. */
  function RegionByte(r: Region, va: nat): (g: Option<nat>) {
    if !InRegion(r, va) then None else ByteGpa(r.buf, va - r.va)
  }

  function RegionRun(r: Region, va: nat): (run: Run) {
    if !InRegion(r, va) then Run(0, 0)
    else
      var run := BufRun(r.buf, va - r.va);
      var left := r.length - (va - r.va);
      Run(run.gpa, if run.len > left then left else run.len)
  }

  /** What a key stands for: key 0 for bus addresses, which are where they
      say, and another for the region it is bound to, if any. */
  datatype Named = Bus | Nothing | InMr(region: Region)

  function Resolve(m: Bindings, key: nat): (n: Named) {
    if key == 0 then Bus
    else
      var r := Lookup(m, key);
      if r.None? then Nothing else InMr(r.value)
  }

  function NamedByte(n: Named, va: nat): (g: Option<nat>) {
    match n
    case Bus => Some(va)
    case Nothing => None
    case InMr(r) => RegionByte(r, va)
  }

  function NamedRun(n: Named, va: nat): (run: Run) {
    match n
    case Bus => Run(va, U64 - 1)
    case Nothing => Run(0, 0)
    case InMr(r) => RegionRun(r, va)
  }

  /** Where a byte is. */
  function ByteOf(m: Bindings, v: Va): (g: Option<nat>) { NamedByte(Resolve(m, v.lkey), v.va) }

  /** sge_gpa() */
  function SgeRun(m: Bindings, v: Va): (run: Run) { NamedRun(Resolve(m, v.lkey), v.va) }

  function Ahead(v: Va, i: nat): (r: Va) { v.(va := (v.va + i) % U64) }

  lemma {:induction false} RegionRunIsItsBytes(r: Region, va: nat, i: nat)
    requires RegionFits(r) && i < RegionRun(r, va).len && RegionRun(r, va).gpa + i < U64
    ensures InRegion(r, va + i) && va + i < U64
    ensures RegionByte(r, va + i) == Some(RegionRun(r, va).gpa + i)
  {
    var off := va - r.va;
    RunByte(r.buf, off, i);
    assert InRegion(r, va + i);
    assert RegionByte(r, va + i) == ByteGpa(r.buf, off + i) by { assert va + i - r.va == off + i; }
  }

  predicate NamedOk(n: Named) { n.InMr? ==> RegionFits(n.region) }

  lemma {:induction false} ResolveOk(m: Bindings, key: nat)
    requires RegionsOk(m)
    ensures NamedOk(Resolve(m, key))
  {
    if key != 0 && Lookup(m, key).Some? {
      assert RegionOk(Slot(key).value, m[Slot(key).value]);
    }
  }

  lemma {:induction false} NamedRunIsItsBytes(n: Named, va: nat, i: nat)
    requires NamedOk(n) && va < U64 && i < NamedRun(n, va).len && NamedRun(n, va).gpa + i < U64
    ensures va + i < U64 && NamedByte(n, va + i) == Some(NamedRun(n, va).gpa + i)
    ensures n.InMr? ==> InRegion(n.region, va + i)
  {
    if n.InMr? {
      RegionRunIsItsBytes(n.region, va, i);
    }
  }

  /** Each byte of the run sge_gpa() reports lies within the region, and is
      where the run says as long as that is an address at all. */
  lemma {:induction false} SgeRunIsItsBytes(m: Bindings, v: Va, i: nat)
    requires RegionsOk(m) && v.va < U64 && i < SgeRun(m, v).len && SgeRun(m, v).gpa + i < U64
    ensures v.va + i < U64
    ensures ByteOf(m, Ahead(v, i)) == Some(SgeRun(m, v).gpa + i)
    ensures Resolve(m, v.lkey).InMr? ==> InRegion(Resolve(m, v.lkey).region, v.va + i)
  {
    var n := Resolve(m, v.lkey);
    ResolveOk(m, v.lkey);
    NamedRunIsItsBytes(n, v.va, i);
    SmallMod(v.va + i);
  }

  /** ionic_dp_mr_covers() says of a range exactly that every byte of it is in
      the region. */
  lemma {:induction false} CoversExactly(m: Bindings, key: nat, va: nat, len: nat)
    requires key != 0 && len > 0
    ensures Covers(m, key, va, len) <==>
              Lookup(m, key).Some? && forall x :: va <= x < va + len ==> InRegion(Lookup(m, key).value, x)
  {
    if Lookup(m, key).Some? && !Covers(m, key, va, len) {
      var r := Lookup(m, key).value;
      assert !InRegion(r, va) || !InRegion(r, va + len - 1);
    }
  }

  /** There is no run exactly where there is no byte. */
  lemma {:induction false} NoRunNoByteOf(m: Bindings, v: Va)
    requires RegionsOk(m) && v.va < U64
    ensures SgeRun(m, v).len == 0 <==> ByteOf(m, v) == None
    ensures SgeRun(m, v).gpa < U64
  {
    var n := Resolve(m, v.lkey);
    ResolveOk(m, v.lkey);
    if n.InMr? && InRegion(n.region, v.va) {
      NoRunNoByte(n.region.buf, v.va - n.region.va);
    }
  }

  // ---------------------------------------------------------------------
  // Byte by byte
  // ---------------------------------------------------------------------

  /** Where each of some named bytes is, if anywhere. */
  type Places = seq<Option<nat>>

  /** The n bytes from v on, in order. */
  function Span(m: Bindings, v: Va, n: nat): (s: Places)
    ensures |s| == n
  {
    if n == 0 then [] else Span(m, v, n - 1) + [ByteOf(m, Ahead(v, n - 1))]
  }

  /** The bytes of a whole list, one entry's after another's. */
  function Flat(m: Bindings, l: seq<Sge>): (s: Places) {
    if l == [] then []
    else
      var e := l[|l| - 1];
      Flat(m, l[..|l| - 1]) + Span(m, Va(e.lkey, e.va), e.len)
  }

  /** One byte moved to or from the host buffer; none if it is nowhere. */
  function CopyOne(write: bool, a: Side, g: Option<nat>, o: nat): (b: Side) {
    if g.None? then a else MoveByte(write, a, g.value, o)
  }

  /** Bytes moved one at a time, in order. */
  function CopyBytes(write: bool, a: Side, s: Places, off: nat): (b: Side) {
    if s == [] then a
    else CopyOne(write, CopyBytes(write, a, s[..|s| - 1], off), s[|s| - 1], off + |s| - 1)
  }

  lemma {:induction false} SpanAt(m: Bindings, v: Va, n: nat, k: nat)
    requires k < n
    ensures Span(m, v, n)[k] == ByteOf(m, Ahead(v, k))
  {
    if k < n - 1 {
      SpanAt(m, v, n - 1, k);
    }
  }

  /** Bytes moved after others. */
  lemma {:induction false} CopyConcat(write: bool, a: Side, s: Places, t: Places, off: nat)
    ensures CopyBytes(write, a, s + t, off) == CopyBytes(write, CopyBytes(write, a, s, off), t, off + |s|)
  {
    if t == [] {
      assert s + t == s;
    } else {
      var t' := t[..|t| - 1];
      CopyConcat(write, a, s, t', off);
      assert (s + t)[..|s + t| - 1] == s + t';
      assert (s + t)[|s + t| - 1] == t[|t| - 1];
    }
  }

  lemma {:induction false} CopyNext(write: bool, a: Side, s: Places, off: nat, n: nat)
    requires n < |s|
    ensures CopyBytes(write, a, s[..n + 1], off) == CopyOne(write, CopyBytes(write, a, s[..n], off), s[n], off + n)
  {
    var t := s[..n + 1];
    assert t[..|t| - 1] == s[..n];
  }

  /** Whether n bytes from the d-th on are one after another from gpa. */
  predicate Straight(s: Places, d: nat, gpa: nat, n: nat) {
    d + n <= |s| && forall i :: d <= i < d + n ==> s[i] == Some(gpa + i - d)
  }

  /** One byte more of a run: n is k + 1, and e is d + n. */
  lemma {:induction false} RunCopyNext(write: bool, a: Side, c: Side, s: Places, gpa: nat, off: nat, at: nat,
                                       k: nat, n: nat, e: nat)
    requires 0 < e <= |s| && s[e - 1] == Some(gpa + k) && n == k + 1 && at + k == off + e - 1
    requires Move(write, c, gpa, at, k) == CopyBytes(write, a, s[..e - 1], off)
    ensures Move(write, c, gpa, at, n) == CopyBytes(write, a, s[..e], off)
  {
    MoveNext(write, c, gpa, at, k);
    CopyNext(write, a, s, off, e - 1);
  }

  lemma {:induction false} RunCopyTo(write: bool, a: Side, c: Side, s: Places, d: nat, gpa: nat, off: nat, at: nat,
                                     n: nat, e: nat)
    requires e == d + n && at == off + d && Straight(s, d, gpa, n) && c == CopyBytes(write, a, s[..d], off)
    ensures Move(write, c, gpa, at, n) == CopyBytes(write, a, s[..e], off)
  {
    if n > 0 {
      RunCopyTo(write, a, c, s, d, gpa, off, at, n - 1, e - 1);
      RunCopyNext(write, a, c, s, gpa, off, at, n - 1, n, e);
    }
  }

  /** A run moved at once is its bytes moved one at a time, even if two of them
      are the same byte. */
  lemma {:induction false} RunCopy(write: bool, a: Side, s: Places, d: nat, gpa: nat, off: nat, n: nat)
    requires Straight(s, d, gpa, n)
    ensures Move(write, CopyBytes(write, a, s[..d], off), gpa, off + d, n) == CopyBytes(write, a, s[..d + n], off)
  {
    RunCopyTo(write, a, CopyBytes(write, a, s[..d], off), s, d, gpa, off, off + d, n, d + n);
  }

  /** The run sge_gpa() reports d bytes into a piece of memory. */
  lemma {:induction false} RunStraight(m: Bindings, v: Va, len: nat, d: nat, run: Run, n: nat)
    requires RegionsOk(m) && v.va < U64 && run == SgeRun(m, Ahead(v, d))
    requires d + n <= len && n <= run.len && run.gpa + n <= U64
    ensures Straight(Span(m, v, len), d, run.gpa, n)
  {
    forall i | d <= i < d + n ensures Span(m, v, len)[i] == Some(run.gpa + i - d) {
      SpanAt(m, v, len, i);
      SgeRunIsItsBytes(m, Ahead(v, d), i - d);
      AheadTwice(v, d, i - d);
    }
  }

  lemma {:induction false} AheadTwice(v: Va, d: nat, i: nat)
    ensures Ahead(Ahead(v, d), i) == Ahead(v, d + i)
  {
    ModAdd(v.va + d, i);
  }

  // ---------------------------------------------------------------------
  // When everything can be moved
  // ---------------------------------------------------------------------

  /** None of them is the byte at the last address, which no transfer reaches. */
  predicate BelowTop(s: Places) {
    forall i :: 0 <= i < |s| && s[i].Some? ==> s[i].value < U64 - 1
  }

  predicate Reachable(mem: Memory, s: Places) {
    forall i :: 0 <= i < |s| ==> s[i].Some? && s[i].value in mem
  }

  /** How many of some bytes can be reached before the first that can't. */
  function Within(mem: Memory, s: Places): (n: nat)
    ensures n <= |s| && Reachable(mem, s[..n])
    ensures n < |s| ==> s[n].None? || s[n].value !in mem
  {
    if s == [] then 0
    else
      var n := Within(mem, s[..|s| - 1]);
      assert s[..|s| - 1][..n] == s[..n];
      if n == |s| - 1 && s[n].Some? && s[n].value in mem then |s| else n
  }

  /** How many of the bytes some others are to go to, and of those, can be. */
  function ReachBoth(mem: Memory, s: Places, d: Places): (n: nat) {
    if Within(mem, s) < Within(mem, d) then Within(mem, s) else Within(mem, d)
  }

  lemma {:induction false} WithinAtLeast(mem: Memory, s: Places, n: nat)
    requires n <= |s| && Reachable(mem, s[..n])
    ensures n <= Within(mem, s)
  {
    var t, k := s[..n], Within(mem, s);
    assert forall i :: 0 <= i < n ==> t[i] == s[i];
  }

  /** Whether the mapping layer gives all of mapped memory, in pieces. */
  ghost predicate GivesAll(mem: Memory, layer: (nat, nat) -> Answer) {
    forall g: nat, n: nat :: n >= 1 && Mapped(mem, g, n) ==> Given(layer(g, n), n)
  }

  /** Whether nothing keeps some bytes from being moved. */
  ghost predicate Ready(mem: Memory, layer: (nat, nat) -> Answer, s: Places) {
    BelowTop(s) && Reachable(mem, s) && GivesAll(mem, layer)
  }

  lemma {:induction false} NoRunNotReady(mem: Memory, layer: (nat, nat) -> Answer, m: Bindings, v: Va, len: nat, d: nat)
    requires RegionsOk(m) && v.va < U64 && d < len && SgeRun(m, Ahead(v, d)).len == 0
    ensures !Ready(mem, layer, Span(m, v, len))
  {
    NoRunNoByteOf(m, Ahead(v, d));
    SpanAt(m, v, len, d);
    assert Span(m, v, len)[d] == None;
  }

  /** What stays mapped stays within reach. */
  lemma {:induction false} ReadyStays(mem: Memory, mem': Memory, layer: (nat, nat) -> Answer, s: Places)
    requires mem.Keys == mem'.Keys && Ready(mem, layer, s)
    ensures Ready(mem', layer, s)
  {
    forall g: nat, n: nat | n >= 1 && Mapped(mem', g, n) ensures Given(layer(g, n), n) {
      MappedKeys(mem, mem', g, n);
    }
  }

  /** Part of what can be moved can be moved. */
  lemma {:induction false} ReadySlice(mem: Memory, layer: (nat, nat) -> Answer, s: Places, d: nat, k: nat)
    requires Ready(mem, layer, s) && d + k <= |s|
    ensures Ready(mem, layer, s[d..d + k])
  {
  }

  /** A run of reachable bytes doesn't come near the top of the address space,
      and the layer gives it. */
  lemma {:induction false} RunServed(mem: Memory, layer: (nat, nat) -> Answer, m: Bindings, v: Va, len: nat, d: nat,
                                     n: nat)
    requires RegionsOk(m) && v.va < U64 && d + n <= len && n <= SgeRun(m, Ahead(v, d)).len && n < U64
    requires Ready(mem, layer, Span(m, v, len))
    ensures var gpa := SgeRun(m, Ahead(v, d)).gpa;
      gpa < U64 && RangeOk(gpa, n) && Serves(layer, gpa, n)
  {
    var run := SgeRun(m, Ahead(v, d));
    NoRunNoByteOf(m, Ahead(v, d));
    RunBelowTop(mem, m, v, len, d, n);
    RunStraight(m, v, len, d, run, n);
    RunMapped(mem, Span(m, v, len), d, run.gpa, n);
    forall g: nat, k: nat | run.gpa <= g && k >= 1 && g + k <= run.gpa + n ensures Given(layer(g, k), k) {
      MappedAt(mem, run.gpa, n);
      MappedAt(mem, g, k);
    }
  }

  lemma {:induction false} RunMapped(mem: Memory, s: Places, d: nat, gpa: nat, n: nat)
    requires Straight(s, d, gpa, n) && Reachable(mem, s)
    ensures Mapped(mem, gpa, n)
  {
    forall x | gpa <= x < gpa + n ensures x in mem {
      assert s[d + x - gpa] == Some(x);
    }
    MappedAt(mem, gpa, n);
  }

  lemma {:induction false} RunBelowTop(mem: Memory, m: Bindings, v: Va, len: nat, d: nat, n: nat)
    requires RegionsOk(m) && v.va < U64 && d + n <= len && n <= SgeRun(m, Ahead(v, d)).len
    requires BelowTop(Span(m, v, len)) && Reachable(mem, Span(m, v, len))
    ensures SgeRun(m, Ahead(v, d)).gpa + n < U64 || n == 0
  {
    if n > 0 {
      var run := SgeRun(m, Ahead(v, d));
      NoRunNoByteOf(m, Ahead(v, d));
      var k := if n < U64 - run.gpa then n else U64 - run.gpa;
      RunStraight(m, v, len, d, run, k);
      var s := Span(m, v, len);
      assert s[d + k - 1] == Some(run.gpa + k - 1);
    }
  }

  // ---------------------------------------------------------------------
  // Lists
  // ---------------------------------------------------------------------

  lemma {:induction false} SpanTake(m: Bindings, v: Va, n: nat, k: nat)
    requires k <= n
    ensures Span(m, v, n)[..k] == Span(m, v, k)
  {
    if k < n {
      SpanTake(m, v, n - 1, k);
      assert Span(m, v, n)[..k] == Span(m, v, n - 1)[..k];
    } else {
      assert Span(m, v, n)[..n] == Span(m, v, n);
    }
  }

  /** The k bytes from the d-th on are a piece of memory of their own. */
  lemma {:induction false} SpanSlice(m: Bindings, v: Va, n: nat, d: nat, k: nat)
    requires d + k <= n
    ensures Span(m, v, n)[d..d + k] == Span(m, Ahead(v, d), k)
  {
    forall i | 0 <= i < k ensures Span(m, v, n)[d + i] == Span(m, Ahead(v, d), k)[i] {
      SpanAt(m, v, n, d + i);
      SpanAt(m, Ahead(v, d), k, i);
      AheadTwice(v, d, i);
    }
  }

  function Entry(e: Sge): (v: Va) { Va(e.lkey, e.va) }

  /** A list is its first i entries, entry i, and the rest. */
  lemma {:induction false} FlatAt(m: Bindings, l: seq<Sge>, i: nat)
    requires i < |l|
    ensures Flat(m, l[..i + 1]) == Flat(m, l[..i]) + Span(m, Entry(l[i]), l[i].len)
    ensures |Flat(m, l[..i + 1])| <= |Flat(m, l)|
    ensures Flat(m, l)[..|Flat(m, l[..i + 1])|] == Flat(m, l[..i + 1])
  {
    assert l[..i + 1][..i] == l[..i];
    FlatPrefix(m, l, i + 1);
  }

  lemma {:induction false} FlatPrefix(m: Bindings, l: seq<Sge>, i: nat)
    requires i <= |l|
    ensures |Flat(m, l[..i])| <= |Flat(m, l)|
    ensures Flat(m, l)[..|Flat(m, l[..i])|] == Flat(m, l[..i])
    ensures i == |l| ==> l[..i] == l
  {
    if i == |l| {
      assert l[..i] == l;
    } else {
      var a := l[..|l| - 1];
      FlatPrefix(m, a, i);
      assert a[..i] == l[..i];
    }
  }

  /** Part of one entry, as the list numbers its bytes. */
  lemma {:induction false} FlatSlice(m: Bindings, l: seq<Sge>, i: nat, d: nat, k: nat)
    requires i < |l| && d + k <= l[i].len
    ensures var p := |Flat(m, l[..i])| + d;
      p + k <= |Flat(m, l)| && Flat(m, l)[p..p + k] == Span(m, Ahead(Entry(l[i]), d), k)
  {
    FlatAt(m, l, i);
    SpanSlice(m, Entry(l[i]), l[i].len, d, k);
    var f, g := Flat(m, l), Flat(m, l[..i + 1]);
    var p := |Flat(m, l[..i])| + d;
    assert g[p..p + k] == Span(m, Entry(l[i]), l[i].len)[d..d + k];
    assert f[p..p + k] == f[..|g|][p..p + k];
  }

  lemma {:induction false} AheadNone(v: Va)
    requires v.va < U64
    ensures Ahead(v, 0) == v
  {
  }

  // ---------------------------------------------------------------------
  // From one piece of guest memory to another
  // ---------------------------------------------------------------------

  function ByteAt(mem: Memory, g: Option<nat>): (b: byte) {
    if g.Some? && g.value in mem then mem[g.value] else 0
  }

  /** What some bytes hold. */
  function DataOf(mem: Memory, s: Places): (d: seq<byte>)
    ensures |d| == |s|
  {
    seq(|s|, i requires 0 <= i < |s| => ByteAt(mem, s[i]))
  }

  /** Guest memory with what the bytes src held now in the bytes dst. */
  function Linear(mem: Memory, src: Places, dst: Places): (r: Memory) {
    CopyBytes(true, Side(mem, DataOf(mem, src)), dst, 0).mem
  }

  /** No byte of one is a byte of the other. */
  predicate Apart(s: Places, t: Places) {
    forall i, j :: 0 <= i < |s| && 0 <= j < |t| && s[i].Some? ==> s[i] != t[j]
  }

  lemma {:induction false} CopyShape(write: bool, a: Side, s: Places, off: nat)
    ensures var b := CopyBytes(write, a, s, off); b.mem.Keys == a.mem.Keys && |b.buf| == |a.buf|
    ensures write ==> CopyBytes(write, a, s, off).buf == a.buf
    ensures !write ==> CopyBytes(write, a, s, off).mem == a.mem
  {
    if s != [] {
      CopyShape(write, a, s[..|s| - 1], off);
    }
  }

  /** Only the bytes written change. */
  lemma {:induction false} CopyFrame(a: Side, s: Places, off: nat, g: Option<nat>)
    requires forall j :: 0 <= j < |s| ==> g != s[j]
    ensures ByteAt(CopyBytes(true, a, s, off).mem, g) == ByteAt(a.mem, g)
  {
    if s != [] {
      CopyFrame(a, s[..|s| - 1], off, g);
    }
  }

  /** What is apart from the bytes written still holds what it held. */
  lemma {:induction false} DataStays(a: Side, s: Places, off: nat, t: Places)
    requires Apart(t, s)
    ensures DataOf(CopyBytes(true, a, s, off).mem, t) == DataOf(a.mem, t)
  {
    forall i | 0 <= i < |t| ensures ByteAt(CopyBytes(true, a, s, off).mem, t[i]) == ByteAt(a.mem, t[i]) {
      if t[i].Some? {
        CopyFrame(a, s, off, t[i]);
      }
    }
  }

  /** Where the data is in the host buffer doesn't matter. */
  lemma {:induction false} CopySameData(mem: Memory, x: seq<byte>, y: seq<byte>, s: Places, p: nat, q: nat)
    requires p + |s| <= |x| && q + |s| <= |y| && x[p..p + |s|] == y[q..q + |s|]
    ensures CopyBytes(true, Side(mem, x), s, p).mem == CopyBytes(true, Side(mem, y), s, q).mem
  {
    if s != [] {
      var n := |s| - 1;
      assert x[p..p + n] == x[p..p + |s|][..n] && y[q..q + n] == y[q..q + |s|][..n];
      CopySameData(mem, x, y, s[..n], p, q);
      CopyShape(true, Side(mem, x), s[..n], p);
      CopyShape(true, Side(mem, y), s[..n], q);
      assert x[p + n] == x[p..p + |s|][n] && y[q + n] == y[q..q + |s|][n];
    }
  }

  /** Copying the first d bytes, and then the k that follow, copies d + k: the
      source still holds what it did. */
  lemma {:induction false} LinearTwice(mem: Memory, src: Places, dst: Places, d: nat, k: nat)
    requires Apart(src, dst) && d + k <= |src| && d + k <= |dst|
    ensures Linear(Linear(mem, src[..d], dst[..d]), src[d..d + k], dst[d..d + k])
         == Linear(mem, src[..d + k], dst[..d + k])
  {
    var data := DataOf(mem, src[..d + k]);
    var a := Side(mem, data);
    CopySameData(mem, data, DataOf(mem, src[..d]), dst[..d], 0, 0);
    var mid := CopyBytes(true, a, dst[..d], 0);
    CopyShape(true, a, dst[..d], 0);
    assert mid == Side(Linear(mem, src[..d], dst[..d]), data);
    DataStays(a, dst[..d], 0, src[d..d + k]);
    CopySameData(mid.mem, DataOf(mid.mem, src[d..d + k]), data, dst[d..d + k], 0, d);
    CopyConcat(true, a, dst[..d], dst[d..d + k], 0);
    assert dst[..d] + dst[d..d + k] == dst[..d + k];
  }

  /** It is what gathering the source into a linear buffer and scattering that
      comes to. */
  lemma {:induction false} LinearIsGatherScatter(mem: Memory, src: Places, dst: Places, zeros: seq<byte>)
    requires |src| == |dst| == |zeros| && forall i :: 0 <= i < |zeros| ==> zeros[i] == 0
    ensures Linear(mem, src, dst)
         == CopyBytes(true, CopyBytes(false, Side(mem, zeros), src, 0), dst, 0).mem
  {
    CopyShape(false, Side(mem, zeros), src, 0);
    var b := CopyBytes(false, Side(mem, zeros), src, 0);
    forall i | 0 <= i < |src| ensures b.buf[i] == ByteAt(mem, src[i]) {
      GatheredAt(Side(mem, zeros), src, i);
    }
    assert b.buf == DataOf(mem, src);
  }

  lemma {:induction false} GatheredAt(a: Side, s: Places, i: nat)
    requires |s| <= |a.buf| && i < |a.buf|
    ensures |CopyBytes(false, a, s, 0).buf| == |a.buf|
    ensures CopyBytes(false, a, s, 0).buf[i]
         == if i < |s| && s[i].Some? && s[i].value in a.mem then a.mem[s[i].value] else a.buf[i]
  {
    CopyShape(false, a, s, 0);
    if s != [] {
      CopyShape(false, a, s[..|s| - 1], 0);
      GatheredAt(a, s[..|s| - 1], i);
    }
  }

  lemma {:induction false} ApartSlices(s: Places, t: Places, d: nat, k: nat)
    requires Apart(s, t) && d + k <= |s| && d + k <= |t|
    ensures Apart(s[d..d + k], t[d..d + k])
  {
  }
}
