/** The data path's copy loops. */
module CopyLoops {
  import opened Arith
  import opened Wire
  import opened Dma
  import opened Translate
  import opened Regions
  import opened Copying
  import opened Turns
  import opened Bouncing

  /** sge_gpa() */
  method SgeGpa(m: Bindings, v: Va) returns (run: Run)
    ensures run == SgeRun(m, v)
  {
    var n := Resolve(m, v.lkey);
    match n
    case Bus => return Run(v.va, U64 - 1);
    case Nothing => return Run(0, 0);
    case InMr(r) =>
      if !InRegion(r, v.va) {
        return Run(0, 0);
      }
      run := BufGpa(r.buf, v.va - r.va);
      var left := r.length - (v.va - r.va);
      if run.len > left {
        run := Run(run.gpa, left);
      }
  }

  /** The transfer of one run: chunk bytes, d into the piece of memory. */
  method CopyRun(t: Transfer, m: Bindings, layer: (nat, nat) -> Answer, write: bool, ghost was: Side, v: Va,
                 off: nat, len: nat, d: nat, run: Run, chunk: nat)
    returns (ok: bool, ghost pos: nat)
    requires RegionsOk(m) && v.va < U64 && run == SgeRun(m, Ahead(v, d)) && chunk <= run.len && chunk < U64
    requires d + chunk <= len && off + len <= |t.buf| && LayerOk(was.mem, layer) && t.mem.Keys == was.mem.Keys
    requires t.Now() == CopyBytes(write, was, Span(m, v, len)[..d], off) && Reachable(was.mem, Span(m, v, len)[..d])
    modifies t
    ensures d <= pos <= d + chunk && (ok ==> pos == d + chunk) && Reachable(was.mem, Span(m, v, len)[..pos])
    ensures t.Now() == CopyBytes(write, was, Span(m, v, len)[..pos], off)
    ensures t.mem.Keys == was.mem.Keys && |t.buf| == |old(t.buf)|
    ensures !ok ==> !Ready(was.mem, layer, Span(m, v, len))
  {
    NoRunNoByteOf(m, Ahead(v, d));
    LayerStays(was.mem, t.mem, layer);
    ghost var before, s := t.Now(), Span(m, v, len);
    var at := off + d;
    var rc, k := t.Xfer(layer, write, run.gpa, at, chunk);
    pos := d + k;
    ok := rc == Done;
    RunMoved(m, v, len, d, run, k, write, was, before, s, off, at, pos);
    if Ready(was.mem, layer, Span(m, v, len)) {
      RunServed(was.mem, layer, m, v, len, d, chunk);
    }
  }

  /** A run that was moved: its bytes were all there, and are those that come
      next. */
  lemma {:induction false} RunMoved(m: Bindings, v: Va, len: nat, d: nat, run: Run, k: nat, write: bool, was: Side,
                                    before: Side, s: Places, off: nat, at: nat, e: nat)
    requires at == off + d && e == d + k && RegionsOk(m) && v.va < U64 && run == SgeRun(m, Ahead(v, d))
    requires s == Span(m, v, len)
    requires d + k <= len && k <= run.len && run.gpa + k <= U64
    requires before == CopyBytes(write, was, s[..d], off) && before.mem.Keys == was.mem.Keys
    requires Mapped(before.mem, run.gpa, k) && Reachable(was.mem, s[..d])
    ensures Move(write, before, run.gpa, at, k) == CopyBytes(write, was, s[..e], off)
    ensures Reachable(was.mem, s[..e])
  {
    RunStraight(m, v, len, d, run, k);
    RunCopy(write, was, s, d, run.gpa, off, k);
    RunReached(was.mem, before.mem, s, d, run.gpa, k);
  }

  /** The bytes of a run that was moved were all there. */
  lemma {:induction false} RunReached(mem: Memory, mem': Memory, s: Places, d: nat, gpa: nat, k: nat)
    requires Straight(s, d, gpa, k) && Mapped(mem', gpa, k) && mem.Keys == mem'.Keys && Reachable(mem, s[..d])
    ensures Reachable(mem, s[..d + k])
  {
    MappedAt(mem', gpa, k);
    var t := s[..d + k];
    forall i | 0 <= i < |t| ensures t[i].Some? && t[i].value in mem {
      if i < d {
        assert s[..d][i] == t[i];
      }
    }
  }

  /** ionic_dp_sge_to_host() and ionic_dp_host_to_sge(): run by run, the bytes
      of a prefix, one at a time, and all of them if they can all be reached
      and the mapping layer gives them. */
  method SgeHost(t: Transfer, m: Bindings, layer: (nat, nat) -> Answer, write: bool, v: Va, off: nat, len: nat)
    returns (done: nat, ghost moved: nat)
    requires RegionsOk(m) && v.va < U64 && len < U32 && off + len <= |t.buf| && LayerOk(t.mem, layer)
    modifies t
    ensures done <= moved <= len && (done == len ==> moved == len)
    ensures t.Now() == CopyBytes(write, old(t.Now()), Span(m, v, len)[..moved], off)
    ensures Reachable(old(t.mem), Span(m, v, len)[..moved])
    ensures t.mem.Keys == old(t.mem).Keys && |t.buf| == |old(t.buf)|
    ensures Ready(old(t.mem), layer, Span(m, v, len)) ==> done == len
  {
    ghost var was := t.Now();
    ghost var s := Span(m, v, len);
    done := 0;
    moved := 0;
    assert s[..0] == [];
    while done < len
      invariant done <= len && moved == done
      invariant t.Now() == CopyBytes(write, was, s[..moved], off) && Reachable(was.mem, s[..moved])
      invariant t.mem.Keys == was.mem.Keys && |t.buf| == |was.buf|
    {
      var run := SgeGpa(m, Ahead(v, done));
      if run.len == 0 {
        NoRunNotReady(was.mem, layer, m, v, len, done);
        return;
      }
      var chunk := if len - done > run.len then run.len else len - done;
      var ok;
      ok, moved := CopyRun(t, m, layer, write, was, v, off, len, done, run, chunk);
      if !ok {
        return;
      }
      done := done + chunk;
    }
  }

  /** Where entry i's bytes begin. */
  ghost function Base(m: Bindings, l: seq<Sge>, i: nat): (n: nat)
    requires i <= |l|
  {
    |Flat(m, l[..i])|
  }

  lemma {:induction false} BaseNext(m: Bindings, l: seq<Sge>, i: nat)
    requires i < |l|
    ensures Base(m, l, i + 1) == Base(m, l, i) + l[i].len <= |Flat(m, l)|
  {
    FlatAt(m, l, i);
  }

  lemma {:induction false} BaseEnd(m: Bindings, l: seq<Sge>)
    ensures Base(m, l, 0) == 0 && Base(m, l, |l|) == |Flat(m, l)|
  {
    assert l[..0] == [] && l[..|l|] == l;
  }

  /** The first k of entry i's bytes come after all those before it. */
  lemma {:induction false} EntrySlice(m: Bindings, l: seq<Sge>, i: nat, n: nat, k: nat, d: nat, e: nat, f: Places)
    requires i < |l| && l[i].va < U64 && k <= n <= l[i].len && d == Base(m, l, i) && e == d + k && f == Flat(m, l)
    ensures e <= |f| && f[d..e] == Span(m, Entry(l[i]), n)[..k]
  {
    FlatSlice(m, l, i, 0, k);
    AheadNone(Entry(l[i]));
    SpanTake(m, Entry(l[i]), n, k);
  }

  lemma {:induction false} CopyTo(write: bool, was: Side, f: Places, d: nat, e: nat)
    requires d <= e <= |f|
    ensures CopyBytes(write, was, f[..e], 0) == CopyBytes(write, CopyBytes(write, was, f[..d], 0), f[d..e], d)
  {
    assert f[..e] == f[..d] + f[d..e];
    CopyConcat(write, was, f[..d], f[d..e], 0);
  }

  /** The first k of an entry's bytes, moved: they were there, and are those that
      come next. */
  lemma {:induction false} EntryMoved(m: Bindings, write: bool, was: Side, mid: Side, l: seq<Sge>, i: nat, d: nat,
                                      n: nat,
                                      k: nat, f: Places, e: nat)
    requires i < |l| && l[i].va < U64 && k <= n <= l[i].len && f == Flat(m, l) && d == Base(m, l, i) <= |f|
    requires e == d + k
    requires mid == CopyBytes(write, was, f[..d], 0) && mid.mem.Keys == was.mem.Keys && Reachable(was.mem, f[..d])
    requires Reachable(mid.mem, Span(m, Entry(l[i]), n)[..k])
    ensures e <= |f| && Reachable(was.mem, f[..e])
    ensures CopyBytes(write, mid, Span(m, Entry(l[i]), n)[..k], d) == CopyBytes(write, was, f[..e], 0)
  {
    EntrySlice(m, l, i, n, k, d, e, f);
    CopyTo(write, was, f, d, e);
    ReachJoin(was.mem, mid.mem, f[..d], f[d..e]);
    assert f[..e] == f[..d] + f[d..e];
  }

  lemma {:induction false} ReachJoin(mem: Memory, mem': Memory, a: Places, b: Places)
    requires mem.Keys == mem'.Keys && Reachable(mem, a) && Reachable(mem', b)
    ensures Reachable(mem, a + b)
  {
    forall j | 0 <= j < |a + b| ensures (a + b)[j].Some? && (a + b)[j].value in mem {
      if j >= |a| {
        assert b[j - |a|].Some? && b[j - |a|].value in mem';
      }
    }
  }

  /** ionic_dp_gather() and dp_scatter(): the list's bytes in order to or from
      a linear buffer, as many as both hold. */
  method WalkList(t: Transfer, m: Bindings, layer: (nat, nat) -> Answer, write: bool, l: seq<Sge>, len: nat)
    returns (done: nat, ghost moved: nat)
    requires RegionsOk(m) && len < U32 && len <= |t.buf| && LayerOk(t.mem, layer)
    requires forall i :: 0 <= i < |l| ==> l[i].va < U64
    modifies t
    ensures done <= moved <= len && moved <= |Flat(m, l)|
    ensures t.Now() == CopyBytes(write, old(t.Now()), Flat(m, l)[..moved], 0)
    ensures Reachable(old(t.mem), Flat(m, l)[..moved]) && (done == len ==> moved == len)
    ensures Ready(old(t.mem), layer, Flat(m, l)) ==>
              done == moved == if |Flat(m, l)| < len then |Flat(m, l)| else len
  {
    ghost var was, f := t.Now(), Flat(m, l);
    done := 0;
    moved := 0;
    var i := 0;
    BaseEnd(m, l);
    assert f[..0] == [];
    while i < |l| && done < len
      invariant i <= |l| && done == moved <= len && done <= |f|
      invariant done < len ==> done == Base(m, l, i)
      invariant t.Now() == CopyBytes(write, was, f[..moved], 0) && Reachable(was.mem, f[..moved])
      invariant t.mem.Keys == was.mem.Keys && |t.buf| == |was.buf|
    {
      BaseNext(m, l, i);
      var n := if l[i].len > len - done then len - done else l[i].len;
      var got;
      got, moved := CopyEntry(t, m, layer, write, was, l, i, done, n);
      done := done + got;
      if got != n {
        return;
      }
      i := i + 1;
    }
  }

  /** The first n bytes of entry i, after all of the entries before it. */
  method CopyEntry(t: Transfer, m: Bindings, layer: (nat, nat) -> Answer, write: bool, ghost was: Side,
                   l: seq<Sge>, i: nat, done: nat, n: nat)
    returns (got: nat, ghost pos: nat)
    requires RegionsOk(m) && i < |l| && l[i].va < U64 && n <= l[i].len && n < U32
    requires done == Base(m, l, i) <= |Flat(m, l)| && done + n <= |t.buf|
    requires LayerOk(was.mem, layer) && t.mem.Keys == was.mem.Keys
    requires t.Now() == CopyBytes(write, was, Flat(m, l)[..done], 0) && Reachable(was.mem, Flat(m, l)[..done])
    modifies t
    ensures done + got <= pos <= done + n && (got == n ==> pos == done + n) && pos <= |Flat(m, l)|
    ensures t.Now() == CopyBytes(write, was, Flat(m, l)[..pos], 0) && Reachable(was.mem, Flat(m, l)[..pos])
    ensures t.mem.Keys == was.mem.Keys && |t.buf| == |old(t.buf)|
    ensures Ready(was.mem, layer, Flat(m, l)) ==> got == n
  {
    if n == 0 {
      return 0, done;
    }
    LayerStays(was.mem, t.mem, layer);
    ghost var mid := t.Now();
    ghost var k;
    got, k := SgeHost(t, m, layer, write, Entry(l[i]), done, n);
    pos := done + k;
    EntryMoved(m, write, was, mid, l, i, done, n, k, Flat(m, l), pos);
    if Ready(was.mem, layer, Flat(m, l)) {
      ReadyEntry(was.mem, mid.mem, m, l, i, 0, n, layer);
      AheadNone(Entry(l[i]));
    }
  }

  /** Part of one entry of a list that can be moved can be moved. */
  lemma {:induction false} ReadyEntry(mem: Memory, mem': Memory, m: Bindings, l: seq<Sge>, i: nat, d: nat, n: nat,
                                      layer: (nat, nat) -> Answer)
    requires mem.Keys == mem'.Keys && i < |l| && d + n <= l[i].len && Ready(mem, layer, Flat(m, l))
    ensures Ready(mem', layer, Span(m, Ahead(Entry(l[i]), d), n))
  {
    FlatSlice(m, l, i, d, n);
    ReadySlice(mem, layer, Flat(m, l), Base(m, l, i) + d, n);
    ReadyStays(mem, mem', layer, Span(m, Ahead(Entry(l[i]), d), n));
  }

  // ---------------------------------------------------------------------
  // From guest memory to guest memory
  // ---------------------------------------------------------------------

  /** The first n of some bytes, and of those they go to, are all there. */
  predicate Both(mem: Memory, s: Places, d: Places, n: nat) {
    n <= |s| && n <= |d| && Reachable(mem, s[..n]) && Reachable(mem, d[..n])
  }

  lemma {:induction false} ReachOn(mem: Memory, s: Places, n: nat, c: nat, k: nat, e: nat)
    requires n + c <= |s| && k <= c && e == n + k && Reachable(mem, s[..n]) && Reachable(mem, s[n..n + c][..k])
    ensures Reachable(mem, s[..e])
  {
    assert s[n..n + c][..k] == s[n..e] && s[..e] == s[..n] + s[n..e];
    ReachJoin(mem, mem, s[..n], s[n..e]);
  }

  /** After the first n, so many more. */
  lemma {:induction false} BothOn(mem: Memory, s: Places, d: Places, n: nat, c: nat, k: nat, e: nat)
    requires Both(mem, s, d, n) && n + c <= |s| && n + c <= |d| && k <= c && e == n + k
    requires Both(mem, s[n..n + c], d[n..n + c], k)
    ensures Both(mem, s, d, e)
  {
    ReachOn(mem, s, n, c, k, e);
    ReachOn(mem, d, n, c, k, e);
  }

  /** A transfer that was read into the buffer holds what the run held. */
  lemma {:induction false} ReadRun(a: Side, b: Side, s: Places, gpa: nat, n: nat)
    requires Straight(s, 0, gpa, n) && |s| == n && Movable(a, gpa, 0, n) && b == Move(false, a, gpa, 0, n)
    ensures b.mem == a.mem && |b.buf| == |a.buf| && b.buf[..n] == DataOf(a.mem, s)
  {
    MoveShape(false, a, gpa, 0, n);
    MappedAt(a.mem, gpa, n);
    forall i | 0 <= i < n ensures b.buf[i] == ByteAt(a.mem, s[i]) {
      ReadAt(a, gpa, 0, n, i);
    }
  }

  /** One turn of dp_copy_sge(): n bytes through the bounce buffer. */
  method Bounce(t: Transfer, m: Bindings, layer: (nat, nat) -> Answer, dst: Va, src: Va, drun: Run, srun: Run, n: nat)
    returns (ok: bool, ghost moved: nat)
    requires RegionsOk(m) && dst.va < U64 && src.va < U64 && 0 < n <= BOUNCE <= |t.buf| && LayerOk(t.mem, layer)
    requires srun == SgeRun(m, src) && drun == SgeRun(m, dst) && n <= srun.len && n <= drun.len
    modifies t
    ensures moved <= n && (ok ==> moved == n) && t.mem.Keys == old(t.mem).Keys && |t.buf| == |old(t.buf)|
    ensures t.mem == Linear(old(t.mem), Span(m, src, n)[..moved], Span(m, dst, n)[..moved])
    ensures Both(old(t.mem), Span(m, src, n), Span(m, dst, n), moved)
    ensures Ready(old(t.mem), layer, Span(m, src, n)) && Ready(old(t.mem), layer, Span(m, dst, n)) ==> ok
  {
    ghost var was := t.Now();
    NoRunNoByteOf(m, src);
    NoRunNoByteOf(m, dst);
    AheadNone(src);
    AheadNone(dst);
    if Ready(was.mem, layer, Span(m, src, n)) && Ready(was.mem, layer, Span(m, dst, n)) {
      RunServed(was.mem, layer, m, src, n, 0, n);
      RunServed(was.mem, layer, m, dst, n, 0, n);
    }
    var rc, k := t.Xfer(layer, false, srun.gpa, 0, n);
    MoveShape(false, was, srun.gpa, 0, k);
    if rc != Done {
      return false, 0;
    }
    RunStraight(m, src, n, 0, srun, n);
    ghost var mid := t.Now();
    ReadRun(was, mid, Span(m, src, n), srun.gpa, n);
    rc, moved := t.Xfer(layer, true, drun.gpa, 0, n);
    ok := rc == Done;
    RunStraight(m, dst, n, 0, drun, moved);
    BounceWrite(was.mem, mid.buf, Span(m, src, n), Span(m, dst, n), drun.gpa, moved);
    BounceReached(was.mem, mid.mem, Span(m, src, n), Span(m, dst, n), srun.gpa, drun.gpa, n, moved);
  }

  lemma {:induction false} BounceReached(mem: Memory, mid: Memory, s: Places, d: Places, sgpa: nat, dgpa: nat, n: nat,
                                         k: nat)
    requires Straight(s, 0, sgpa, n) && Straight(d, 0, dgpa, k) && k <= n && mem.Keys == mid.Keys
    requires Mapped(mem, sgpa, n) && Mapped(mid, dgpa, k)
    ensures Both(mem, s, d, k)
  {
    MappedAt(mem, sgpa, n);
    MappedAt(mid, dgpa, k);
    forall i | 0 <= i < k
      ensures s[..k][i].Some? && s[..k][i].value in mem && d[..k][i].Some? && d[..k][i].value in mem
    {
      assert s[..k][i] == Some(sgpa + i) && d[..k][i] == Some(dgpa + i);
    }
  }

  /** What reaches the destination is what the source held. */
  lemma {:induction false} BounceWrite(mem: Memory, buf: seq<byte>, s: Places, d: Places, gpa: nat, k: nat)
    requires Straight(d, 0, gpa, k) && k <= |s| <= |buf| && buf[..|s|] == DataOf(mem, s)
    ensures Move(true, Side(mem, buf), gpa, 0, k).mem == Linear(mem, s[..k], d[..k])
  {
    assert d[..0] == [];
    RunCopy(true, Side(mem, buf), d, 0, gpa, 0, k);
    assert buf[0..k] == buf[..|s|][..k];
    assert DataOf(mem, s[..k]) == DataOf(mem, s)[..k];
    assert DataOf(mem, s[..k])[0..k] == DataOf(mem, s[..k]);
    CopySameData(mem, buf, DataOf(mem, s[..k]), d[..k], 0, 0);
  }

  /** dp_copy_sge(): through a bounce buffer, run by run. */
  method CopySge(t: Transfer, m: Bindings, layer: (nat, nat) -> Answer, dst: Va, src: Va, len: nat)
    returns (done: nat, ghost moved: nat)
    requires RegionsOk(m) && dst.va < U64 && src.va < U64 && len < U32 && BOUNCE <= |t.buf| && LayerOk(t.mem, layer)
    modifies t
    ensures done <= moved <= len && (done == len ==> moved == len)
    ensures t.mem.Keys == old(t.mem).Keys && |t.buf| == |old(t.buf)|
    ensures t.mem == Bounced(old(t.mem), m, dst, src, len, moved)
    ensures Both(old(t.mem), Span(m, src, len), Span(m, dst, len), moved)
    ensures Ready(old(t.mem), layer, Span(m, src, len)) && Ready(old(t.mem), layer, Span(m, dst, len)) ==> done == len
  {
    ghost var was := t.mem;
    done := 0;
    moved := 0;
    CopyingBegins(was, m, dst, src, len);
    while done < len
      invariant done == moved <= len && t.mem.Keys == was.Keys && |t.buf| == |old(t.buf)|
      invariant CopyingAt(was, t.mem, m, dst, src, len, done) && Both(was, Span(m, src, len), Span(m, dst, len), done)
    {
      ghost var mem := t.mem;
      var n, ok;
      ghost var k;
      n, ok, k := CopySgeTurn(t, m, layer, dst, src, len, done, was);
      moved := done + k;
      TurnReached(was, m, dst, src, len, done, n, k, moved);
      if !ok {
        CopyingCut(was, mem, m, dst, src, len, done, n, k, moved);
        return;
      }
      CopyingOn(was, mem, m, dst, src, len, done, n, moved);
      done := done + n;
    }
    CopyingEnds(was, t.mem, m, dst, src, len, done);
  }

  lemma {:induction false} TurnReached(mem: Memory, m: Bindings, dst: Va, src: Va, len: nat, d: nat, n: nat, k: nat,
                                       e: nat)
    requires d + n <= len && k <= n && e == d + k && Both(mem, Span(m, src, len), Span(m, dst, len), d)
    requires Both(mem, Span(m, Ahead(src, d), n), Span(m, Ahead(dst, d), n), k)
    ensures Both(mem, Span(m, src, len), Span(m, dst, len), e)
  {
    SpanSlice(m, src, len, d, n);
    SpanSlice(m, dst, len, d, n);
    BothOn(mem, Span(m, src, len), Span(m, dst, len), d, n, k, e);
  }

  method CopySgeTurn(t: Transfer, m: Bindings, layer: (nat, nat) -> Answer, dst: Va, src: Va, len: nat, done: nat,
                     ghost was: Memory)
    returns (n: nat, ok: bool, ghost moved: nat)
    requires RegionsOk(m) && dst.va < U64 && src.va < U64 && done < len && BOUNCE <= |t.buf|
    requires LayerOk(was, layer) && t.mem.Keys == was.Keys
    modifies t
    ensures n == TurnLen(m, dst, src, len, done) && moved <= n && (ok ==> 0 < n == moved)
    ensures t.mem.Keys == was.Keys && |t.buf| == |old(t.buf)|
    ensures t.mem == TurnTo(old(t.mem), m, dst, src, done, moved)
    ensures done + n <= len && Both(was, Span(m, Ahead(src, done), n), Span(m, Ahead(dst, done), n), moved)
    ensures Ready(was, layer, Span(m, src, len)) && Ready(was, layer, Span(m, dst, len)) ==> ok
  {
    var srun := SgeGpa(m, Ahead(src, done));
    var drun := SgeGpa(m, Ahead(dst, done));
    if srun.len == 0 || drun.len == 0 {
      if srun.len == 0 {
        NoRunNotReady(was, layer, m, src, len, done);
      } else {
        NoRunNotReady(was, layer, m, dst, len, done);
      }
      NoTurn(t.mem, m, dst, src, done);
      return 0, false, 0;
    }
    n := Least(len - done, srun.len, drun.len);
    LayerStays(was, t.mem, layer);
    if Ready(was, layer, Span(m, src, len)) && Ready(was, layer, Span(m, dst, len)) {
      ReadyPart(was, t.mem, layer, m, src, len, done, n);
      ReadyPart(was, t.mem, layer, m, dst, len, done, n);
    }
    ghost var mem := t.mem;
    ok, moved := Bounce(t, m, layer, Ahead(dst, done), Ahead(src, done), drun, srun, n);
    TurnIs(mem, m, dst, src, done, n, moved);
    BothStays(mem, was, Span(m, Ahead(src, done), n), Span(m, Ahead(dst, done), n), moved);
  }

  lemma {:induction false} BothStays(mem: Memory, mem': Memory, s: Places, d: Places, n: nat)
    requires mem.Keys == mem'.Keys && Both(mem, s, d, n)
    ensures Both(mem', s, d, n)
  {
    assert forall x :: x in mem <==> x in mem';
  }

  lemma {:induction false} ReadyPart(mem: Memory, mem': Memory, layer: (nat, nat) -> Answer, m: Bindings, v: Va,
                                     len: nat, d: nat, n: nat)
    requires mem.Keys == mem'.Keys && d + n <= len && Ready(mem, layer, Span(m, v, len))
    ensures Ready(mem', layer, Span(m, Ahead(v, d), n))
  {
    SpanSlice(m, v, len, d, n);
    ReadySlice(mem, layer, Span(m, v, len), d, n);
    ReadyStays(mem, mem', layer, Span(m, Ahead(v, d), n));
  }

  // ---------------------------------------------------------------------
  // Two lists in lockstep
  // ---------------------------------------------------------------------

  /** A position in a list: entry i, off bytes into it, at byte n overall. */
  ghost predicate At(m: Bindings, l: seq<Sge>, i: nat, off: nat, n: nat) {
    && i <= |l| && n == Base(m, l, i) + off <= |Flat(m, l)|
    && if i < |l| then off <= l[i].len else off == 0
  }

  lemma {:induction false} Advanced(m: Bindings, l: seq<Sge>, i: nat, off: nat, n: nat, chunk: nat)
    requires At(m, l, i, off, n) && i < |l| && off + chunk <= l[i].len
    ensures n + chunk <= |Flat(m, l)|
    ensures At(m, l, i, off + chunk, n + chunk)
    ensures off + chunk == l[i].len ==> At(m, l, i + 1, 0, n + chunk)
  {
    BaseNext(m, l, i);
  }

  /** What is left of an entry, as the list numbers its bytes. */
  lemma {:induction false} RestOfEntry(m: Bindings, l: seq<Sge>, i: nat, off: nat, n: nat, chunk: nat)
    requires At(m, l, i, off, n) && i < |l| && off + chunk <= l[i].len
    ensures n + chunk <= |Flat(m, l)| && Flat(m, l)[n..n + chunk] == Span(m, Ahead(Entry(l[i]), off), chunk)
  {
    FlatSlice(m, l, i, off, chunk);
  }

  /** One turn: as much as is left of both entries. */
  method CopyOverlap(t: Transfer, m: Bindings, layer: (nat, nat) -> Answer, sl: seq<Sge>, dl: seq<Sge>, p: Pos, n: nat,
                     chunk: nat, ghost was: Memory, ghost lim: nat)
    returns (got: nat, ghost k: nat)
    requires RegionsOk(m) && InLists(sl, dl, p) && chunk == Overlap(sl, dl, p) < U32 && BOUNCE <= |t.buf|
    requires LayerOk(was, layer) && t.mem.Keys == was.Keys
    requires AtBoth(m, sl, dl, p, n) && n <= lim && lim == ReachBoth(was, Flat(m, sl), Flat(m, dl))
    modifies t
    ensures got <= k <= chunk && (got == chunk ==> k == chunk)
    ensures |t.buf| == |old(t.buf)| && t.mem.Keys == was.Keys && t.mem == OverlapTo(old(t.mem), m, sl, dl, p, k)
    ensures n + k <= lim
    ensures Ready(was, layer, Flat(m, sl)) && Ready(was, layer, Flat(m, dl)) ==> got == chunk
  {
    if chunk == 0 {
      return 0, 0;
    }
    LayerStays(was, t.mem, layer);
    if Ready(was, layer, Flat(m, sl)) && Ready(was, layer, Flat(m, dl)) {
      ReadyEntry(was, t.mem, m, sl, p.si, p.soff, chunk, layer);
      ReadyEntry(was, t.mem, m, dl, p.di, p.doff, chunk, layer);
    }
    ghost var mem := t.mem;
    got, k := CopySge(t, m, layer, Ahead(Entry(dl[p.di]), p.doff), Ahead(Entry(sl[p.si]), p.soff), chunk);
    OverlapReached(was, mem, m, sl, dl, p, n, chunk, k, n + k, Flat(m, sl), Flat(m, dl));
  }

  lemma {:induction false} OverlapReached(mem: Memory, mid: Memory, m: Bindings, sl: seq<Sge>, dl: seq<Sge>, p: Pos,
                                          n: nat,
                                          c: nat, k: nat, e: nat, fs: Places, fd: Places)
    requires AtBoth(m, sl, dl, p, n) && InLists(sl, dl, p) && c == Overlap(sl, dl, p) && k <= c && e == n + k
    requires fs == Flat(m, sl) && fd == Flat(m, dl) && mem.Keys == mid.Keys && n <= ReachBoth(mem, fs, fd)
    requires Both(mid, Span(m, Ahead(Entry(sl[p.si]), p.soff), c), Span(m, Ahead(Entry(dl[p.di]), p.doff), c), k)
    ensures e <= ReachBoth(mem, fs, fd)
  {
    RestOfEntry(m, sl, p.si, p.soff, n, c);
    RestOfEntry(m, dl, p.di, p.doff, n, c);
    BothStays(mid, mem, fs[n..n + c], fd[n..n + c], k);
    WithinPrefix(mem, fs, n);
    WithinPrefix(mem, fd, n);
    BothOn(mem, fs, fd, n, c, k, e);
    WithinAtLeast(mem, fs, e);
    WithinAtLeast(mem, fd, e);
  }

  lemma {:induction false} WithinPrefix(mem: Memory, s: Places, n: nat)
    requires n <= Within(mem, s)
    ensures Reachable(mem, s[..n])
  {
    var t := s[..Within(mem, s)];
    assert forall i :: 0 <= i < n ==> s[..n][i] == t[i];
  }

  /** A turn of a walk over two lists, and where it leads. */
  method WalkTurn(t: Transfer, m: Bindings, layer: (nat, nat) -> Answer, sl: seq<Sge>, dl: seq<Sge>, p: Pos, n: nat,
                  chunk: nat, ghost was: Memory, ghost lim: nat)
    returns (got: nat, ghost moved: nat)
    requires RegionsOk(m) && InLists(sl, dl, p) && chunk == Overlap(sl, dl, p) < U32 && BOUNCE <= |t.buf|
    requires LayerOk(was, layer) && t.mem.Keys == was.Keys && WalkingAt(was, Walk(t.mem, p), m, sl, dl, n)
    requires AtBoth(m, sl, dl, p, n) && n <= lim && lim == ReachBoth(was, Flat(m, sl), Flat(m, dl))
    modifies t
    ensures |t.buf| == |old(t.buf)| && t.mem.Keys == was.Keys
    ensures n + got <= moved <= n + chunk <= Shorter(Flat(m, sl), Flat(m, dl)) && moved <= lim
    ensures got == chunk ==>
              && moved == n + chunk && AtBoth(m, sl, dl, NextPos(sl, dl, p), moved)
              && WalkingAt(was, Walk(t.mem, NextPos(sl, dl, p)), m, sl, dl, moved)
    ensures got != chunk ==> t.mem == Walked(was, m, sl, dl, moved)
    ensures Ready(was, layer, Flat(m, sl)) && Ready(was, layer, Flat(m, dl)) ==> got == chunk
  {
    ghost var mem, k := t.mem, 0;
    got, k := CopyOverlap(t, m, layer, sl, dl, p, n, chunk, was, lim);
    moved := n + k;
    AtNext(m, sl, dl, p, n, chunk, n + chunk);
    if got != chunk {
      WalkingCut(was, Walk(mem, p), m, sl, dl, n, k, moved);
    } else {
      WalkingOn(was, Walk(mem, p), m, sl, dl, n, chunk, moved);
    }
  }

  /** ionic_dp_deliver_recv()'s walk over the sender's list and the receive's:
      byte k of the one goes to byte k of the other, as many as both have. */
  method Lockstep(t: Transfer, m: Bindings, layer: (nat, nat) -> Answer, sl: seq<Sge>, dl: seq<Sge>)
    returns (copied: nat, ghost moved: nat)
    requires RegionsOk(m) && BOUNCE <= |t.buf| && LayerOk(t.mem, layer)
    requires forall i :: 0 <= i < |sl| ==> sl[i].len < U32
    modifies t
    ensures copied <= moved <= Shorter(Flat(m, sl), Flat(m, dl)) && t.mem.Keys == old(t.mem).Keys
    ensures t.mem == Walked(old(t.mem), m, sl, dl, moved) && moved <= ReachBoth(old(t.mem), Flat(m, sl), Flat(m, dl))
    ensures copied == Shorter(Flat(m, sl), Flat(m, dl)) ==> moved == copied
    ensures Ready(old(t.mem), layer, Flat(m, sl)) && Ready(old(t.mem), layer, Flat(m, dl)) ==>
              copied == Shorter(Flat(m, sl), Flat(m, dl))
  {
    ghost var was, lim := t.mem, ReachBoth(t.mem, Flat(m, sl), Flat(m, dl));
    copied := 0;
    moved := 0;
    var p := FRONT;
    BaseEnd(m, sl);
    BaseEnd(m, dl);
    WalkingBegins(was, m, sl, dl);
    while p.si < |sl| && p.di < |dl|
      invariant moved == copied <= lim && AtBoth(m, sl, dl, p, copied)
      invariant |t.buf| == |old(t.buf)| && t.mem.Keys == was.Keys && WalkingAt(was, Walk(t.mem, p), m, sl, dl, copied)
      decreases |sl| - p.si + (|dl| - p.di)
    {
      var chunk := Overlap(sl, dl, p);
      var got;
      got, moved := WalkTurn(t, m, layer, sl, dl, p, copied, chunk, was, lim);
      if got != chunk {
        return;
      }
      copied := copied + chunk;
      p := NextPos(sl, dl, p);
    }
    AtBothEnd(m, sl, dl, p, copied);
    WalkingEnds(was, Walk(t.mem, p), m, sl, dl, copied);
  }

  lemma {:induction false} FarFlat(m: Bindings, far: seq<Sge>)
    requires |far| == 1
    ensures |Flat(m, far)| == far[0].len
  {
    assert far[..0] == [];
  }

  /** Where rdma_xfer() is in the two lists when it has come to entry i of its own. */
  function FarPos(toFar: bool, i: nat, done: nat): (p: Pos) { if toFar then Pos(i, 0, 0, done) else Pos(0, done, i, 0) }

  /** Whether two lists are one of the guest's and the far end, in that order or the
      other. */
  predicate Ends(local: seq<Sge>, far: seq<Sge>, toFar: bool, sl: seq<Sge>, dl: seq<Sge>) {
    if toFar then sl == local && dl == far else sl == far && dl == local
  }

  /** Whether it is there, or at the end of one of them. */
  predicate InFar(local: seq<Sge>, far: seq<Sge>, toFar: bool, sl: seq<Sge>, dl: seq<Sge>, i: nat, done: nat, p: Pos)
    requires |far| == 1
  {
    if i < |local| && done < far[0].len then p == FarPos(toFar, i, done) else !InLists(sl, dl, p) || far[0].len == 0
  }

  lemma {:induction false} FarStep(local: seq<Sge>, far: seq<Sge>, toFar: bool, sl: seq<Sge>, dl: seq<Sge>, i: nat,
                                   done: nat, c: nat, p: Pos)
    requires Ends(local, far, toFar, sl, dl) && |far| == 1 && i < |local| && done < far[0].len
    requires p == FarPos(toFar, i, done)
    requires c == if local[i].len > far[0].len - done then far[0].len - done else local[i].len
    ensures InLists(sl, dl, p) && Overlap(sl, dl, p) == c
    ensures InFar(local, far, toFar, sl, dl, i + 1, done + c, NextPos(sl, dl, p))
  {
  }

  lemma {:induction false} FarDone(m: Bindings, local: seq<Sge>, far: seq<Sge>, toFar: bool, sl: seq<Sge>, dl: seq<Sge>,
                                   i: nat, done: nat, p: Pos)
    requires Ends(local, far, toFar, sl, dl) && |far| == 1 && InFar(local, far, toFar, sl, dl, i, done, p)
    requires AtBoth(m, sl, dl, p, done) && !(i < |local| && done < far[0].len)
    ensures done == Shorter(Flat(m, sl), Flat(m, dl))
  {
    FarFlat(m, far);
    AtBothEnd(m, sl, dl, p, done);
  }

  /** One turn of rdma_xfer(), for entry i of its list. */
  method RdmaTurn(t: Transfer, m: Bindings, layer: (nat, nat) -> Answer, local: seq<Sge>, far: seq<Sge>, toFar: bool,
                  sl: seq<Sge>, dl: seq<Sge>, i: nat, done: nat, ghost p: Pos, ghost was: Memory, ghost lim: nat)
    returns (got: nat, chunk: nat, ghost moved: nat)
    requires RegionsOk(m) && BOUNCE <= |t.buf| && LayerOk(was, layer) && t.mem.Keys == was.Keys
    requires Ends(local, far, toFar, sl, dl) && |far| == 1 && i < |local| && done < far[0].len < U32
    requires p == FarPos(toFar, i, done) && WalkingAt(was, Walk(t.mem, p), m, sl, dl, done)
    requires AtBoth(m, sl, dl, p, done) && done <= lim && lim == ReachBoth(was, Flat(m, sl), Flat(m, dl))
    modifies t
    ensures |t.buf| == |old(t.buf)| && t.mem.Keys == was.Keys && done + chunk <= far[0].len && InLists(sl, dl, p)
    ensures done + got <= moved <= done + chunk <= Shorter(Flat(m, sl), Flat(m, dl)) && moved <= lim
    ensures got == chunk ==>
              && moved == done + chunk && AtBoth(m, sl, dl, NextPos(sl, dl, p), moved)
              && WalkingAt(was, Walk(t.mem, NextPos(sl, dl, p)), m, sl, dl, moved)
              && InFar(local, far, toFar, sl, dl, i + 1, moved, NextPos(sl, dl, p))
    ensures got != chunk ==> t.mem == Walked(was, m, sl, dl, moved)
    ensures Ready(was, layer, Flat(m, sl)) && Ready(was, layer, Flat(m, dl)) ==> got == chunk
  {
    chunk := if local[i].len > far[0].len - done then far[0].len - done else local[i].len;
    FarStep(local, far, toFar, sl, dl, i, done, chunk, p);
    got, moved := WalkTurn(t, m, layer, sl, dl, FarPos(toFar, i, done), done, chunk, was, lim);
  }

  /** rdma_xfer(): between a list and a piece of memory in one, byte for byte. */
  method RdmaXfer(t: Transfer, m: Bindings, layer: (nat, nat) -> Answer, local: seq<Sge>, far: seq<Sge>, toFar: bool,
                  sl: seq<Sge>, dl: seq<Sge>)
    returns (done: nat, ghost moved: nat)
    requires RegionsOk(m) && BOUNCE <= |t.buf| && LayerOk(t.mem, layer) && |far| == 1 && far[0].len < U32
    requires Ends(local, far, toFar, sl, dl)
    modifies t
    ensures done <= moved <= Shorter(Flat(m, sl), Flat(m, dl)) && t.mem.Keys == old(t.mem).Keys
    ensures t.mem == Walked(old(t.mem), m, sl, dl, moved) && moved <= ReachBoth(old(t.mem), Flat(m, sl), Flat(m, dl))
    ensures done == Shorter(Flat(m, sl), Flat(m, dl)) ==> moved == done
    ensures Ready(old(t.mem), layer, Flat(m, sl)) && Ready(old(t.mem), layer, Flat(m, dl)) ==>
              done == Shorter(Flat(m, sl), Flat(m, dl))
  {
    ghost var was, lim, p := t.mem, ReachBoth(t.mem, Flat(m, sl), Flat(m, dl)), FRONT;
    done := 0;
    moved := 0;
    var i := 0;
    BaseEnd(m, sl);
    BaseEnd(m, dl);
    WalkingBegins(was, m, sl, dl);
    while i < |local| && done < far[0].len
      invariant i <= |local| && moved == done <= lim && AtBoth(m, sl, dl, p, done)
      invariant InFar(local, far, toFar, sl, dl, i, done, p)
      invariant |t.buf| == |old(t.buf)| && t.mem.Keys == was.Keys && WalkingAt(was, Walk(t.mem, p), m, sl, dl, done)
    {
      var got, chunk;
      got, chunk, moved := RdmaTurn(t, m, layer, local, far, toFar, sl, dl, i, done, p, was, lim);
      if got != chunk {
        return;
      }
      done := done + chunk;
      p := NextPos(sl, dl, p);
      i := i + 1;
    }
    FarDone(m, local, far, toFar, sl, dl, i, done, p);
    WalkingEnds(was, Walk(t.mem, p), m, sl, dl, done);
  }

  /** The n-th byte of each list is at a place in them. */
  ghost predicate AtBoth(m: Bindings, sl: seq<Sge>, dl: seq<Sge>, p: Pos, n: nat) {
    At(m, sl, p.si, p.soff, n) && At(m, dl, p.di, p.doff, n)
  }

  lemma {:induction false} AtNext(m: Bindings, sl: seq<Sge>, dl: seq<Sge>, p: Pos, n: nat, c: nat, e: nat)
    requires AtBoth(m, sl, dl, p, n) && InLists(sl, dl, p) && c == Overlap(sl, dl, p) && e == n + c
    ensures AtBoth(m, sl, dl, NextPos(sl, dl, p), e) && e <= Shorter(Flat(m, sl), Flat(m, dl))
  {
    Advanced(m, sl, p.si, p.soff, n, c);
    Advanced(m, dl, p.di, p.doff, n, c);
  }

  lemma {:induction false} AtBothEnd(m: Bindings, sl: seq<Sge>, dl: seq<Sge>, p: Pos, n: nat)
    requires AtBoth(m, sl, dl, p, n)
    ensures n <= Shorter(Flat(m, sl), Flat(m, dl))
    ensures !InLists(sl, dl, p) ==> n == Shorter(Flat(m, sl), Flat(m, dl))
  {
    BaseEnd(m, sl);
    BaseEnd(m, dl);
  }

  // ---------------------------------------------------------------------
  // Lists that don't overlap
  // ---------------------------------------------------------------------

  /** The bytes of an overlap are the next of both lists. */
  lemma {:induction false} OverlapSpans(m: Bindings, sl: seq<Sge>, dl: seq<Sge>, p: Pos, n: nat, c: nat, fs: Places,
                                        fd: Places)
    requires AtBoth(m, sl, dl, p, n) && InLists(sl, dl, p) && c == Overlap(sl, dl, p)
    requires fs == Flat(m, sl) && fd == Flat(m, dl) && Apart(fs, fd)
    ensures var s, t := Span(m, Ahead(Entry(sl[p.si]), p.soff), c), Span(m, Ahead(Entry(dl[p.di]), p.doff), c);
      n + c <= |fs| && n + c <= |fd| && s == fs[n..n + c] && t == fd[n..n + c] && Apart(s, t)
  {
    RestOfEntry(m, sl, p.si, p.soff, n, c);
    RestOfEntry(m, dl, p.di, p.doff, n, c);
    ApartSlices(fs, fd, n, c);
  }

  lemma {:induction false} CopiedTwice(was: Memory, fs: Places, fd: Places, n: nat, c: nat, k: nat, e: nat)
    requires Apart(fs, fd) && n + c <= |fs| && n + c <= |fd| && k <= c && e == n + k
    ensures CopiedTo(CopiedTo(was, fs, fd, n), fs[n..n + c], fd[n..n + c], k) == CopiedTo(was, fs, fd, e)
  {
    assert fs[n..n + c][..k] == fs[n..e] && fd[n..n + c][..k] == fd[n..e];
    LinearTwice(was, fs, fd, n, k);
  }

  /** The copy of one overlap between two entries. */
  lemma {:induction false} OverlapIs(m: Bindings, sl: seq<Sge>, dl: seq<Sge>, p: Pos, was: Memory, n: nat, k: nat,
                                     e: nat,
                                     fs: Places, fd: Places)
    requires AtBoth(m, sl, dl, p, n) && InLists(sl, dl, p) && k <= Overlap(sl, dl, p) && e == n + k
    requires fs == Flat(m, sl) && fd == Flat(m, dl) && Apart(fs, fd)
    ensures OverlapTo(CopiedTo(was, fs, fd, n), m, sl, dl, p, k) == CopiedTo(was, fs, fd, e)
  {
    var c := Overlap(sl, dl, p);
    OverlapSpans(m, sl, dl, p, n, c, fs, fd);
    BouncedApart(CopiedTo(was, fs, fd, n), m, Ahead(Entry(dl[p.di]), p.doff), Ahead(Entry(sl[p.si]), p.soff), c, k);
    CopiedTwice(was, fs, fd, n, c, k, e);
  }

  /** A turn of the walk copies so many more. */
  lemma {:induction false} WalkKeeps(m: Bindings, sl: seq<Sge>, dl: seq<Sge>, was: Memory, x: Walk, n: nat, e: nat,
                                     fs: Places, fd: Places)
    requires AtBoth(m, sl, dl, x.p, n) && InLists(sl, dl, x.p) && n <= e <= n + Overlap(sl, dl, x.p)
    requires fs == Flat(m, sl) && fd == Flat(m, dl) && Apart(fs, fd) && x.mem == CopiedTo(was, fs, fd, n)
    ensures var w := Walking(m, sl, dl);
      && w.turn(x, n, e).mem == CopiedTo(was, fs, fd, e) && w.rank(w.turn(x, n, e)) < w.rank(x)
      && w.units(x, n) == Overlap(sl, dl, x.p)
      && (e == n + Overlap(sl, dl, x.p) ==> AtBoth(m, sl, dl, w.turn(x, n, e).p, e))
  {
    WalkingIs(x, m, sl, dl, n, e - n, e);
    OverlapIs(m, sl, dl, x.p, was, n, e - n, e, fs, fd);
    if e == n + Overlap(sl, dl, x.p) {
      AtNext(m, sl, dl, x.p, n, e - n, e);
    }
  }

  lemma {:induction false} WalkStep(m: Bindings, sl: seq<Sge>, dl: seq<Sge>, was: Memory, x: Walk, d: nat, e: nat,
                                    n: nat,
                                    fs: Places, fd: Places, ok: (Walk, nat) -> bool, at: nat -> Memory)
    requires fs == Flat(m, sl) && fd == Flat(m, dl) && Apart(fs, fd) && n <= Shorter(fs, fd)
    requires ok(x, d) <==> AtBoth(m, sl, dl, x.p, d)
    requires forall y: Walk, k: nat :: AtBoth(m, sl, dl, y.p, k) ==> ok(y, k)
    requires forall k: nat :: at(k) == CopiedTo(was, fs, fd, k)
    ensures Keeps(Walking(m, sl, dl), MemOf, ok, at, n, x, d, e)
  {
    if ok(x, d) && d < n && d <= e <= n {
      AtBothEnd(m, sl, dl, x.p, d);
      WalkingIs(x, m, sl, dl, d, 0, d);
      if e <= d + Overlap(sl, dl, x.p) && x.mem == at(d) {
        WalkKeeps(m, sl, dl, was, x, d, e, fs, fd);
      }
    }
  }

  /** A walk over two lists that don't overlap is gathering the first into a buffer
      and scattering it over the second (see LinearIsGatherScatter). */
  lemma {:induction false} WalkedApart(m: Bindings, sl: seq<Sge>, dl: seq<Sge>, was: Memory, n: nat)
    requires Apart(Flat(m, sl), Flat(m, dl)) && n <= Shorter(Flat(m, sl), Flat(m, dl))
    ensures Walked(was, m, sl, dl, n) == Linear(was, Flat(m, sl)[..n], Flat(m, dl)[..n])
  {
    var fs, fd := Flat(m, sl), Flat(m, dl);
    var ok := (x: Walk, d: nat) => AtBoth(m, sl, dl, x.p, d);
    var at := (d: nat) => CopiedTo(was, fs, fd, d);
    forall x, d: nat, e: nat ensures Keeps(Walking(m, sl, dl), MemOf, ok, at, n, x, d, e) {
      WalkStep(m, sl, dl, was, x, d, e, n, fs, fd, ok, at);
    }
    BaseEnd(m, sl);
    BaseEnd(m, dl);
    LinearNone(was, fs, fd);
    WorkKeeps(Walking(m, sl, dl), MemOf, ok, at, Walk(was, FRONT), 0, n);
  }
}
